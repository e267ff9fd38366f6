/**
 * The driver's option struct: 18 fields in a fixed order, shared by both
 * option records. The four string fields are pointers to C-string buffers.
 */
module Layout {
  import opened CTypes
  import opened CStrings

  /**
   * The 18 fields in the order the driver lays them out. `S` is what a string
   * field holds: a `BufferId` for the struct itself, a `string` for what the
   * struct means once every pointer is followed.
   */
  datatype Record<S> = Record(
    hardwareMapping: S,
    rows: CInt,
    cols: CInt,
    chainLength: CInt,
    parallel: CInt,
    pwmBits: CInt,
    pwmLsbNanoseconds: CInt,
    pwmDitherBits: CInt,
    brightness: CInt,
    scanMode: CInt,
    rowAddressType: CInt,
    multiplexing: CInt,
    ledRgbSequence: S,
    pixelMapperConfig: S,
    panelType: S,
    disableHardwarePulsing: CUInt,
    showRefreshRate: CUInt,
    inverseColors: CUInt)

  /** The values both records start from. */
  const DEFAULTS: Record<string> := Record(
    "regular", 32, 32, 1, 1, 11, 1000, 1, 100, 0, 0, 0, "RGB", "", "", 1, 1, 1)

  /** The four buffers a struct points to. */
  function Buffers(r: Record<BufferId>): set<BufferId> {
    {r.hardwareMapping, r.ledRgbSequence, r.pixelMapperConfig, r.panelType}
  }

  /** The struct owns four distinct buffers, all of them live. */
  predicate Owns(h: Heap, r: Record<BufferId>) {
    Wf(h) && Buffers(r) <= h.live
    && r.hardwareMapping != r.ledRgbSequence && r.hardwareMapping != r.pixelMapperConfig
    && r.hardwareMapping != r.panelType && r.ledRgbSequence != r.pixelMapperConfig
    && r.ledRgbSequence != r.panelType && r.pixelMapperConfig != r.panelType
  }

  /** What the struct means: every pointer replaced by the text of its buffer. */
  function Resolve(h: Heap, r: Record<BufferId>): (s: Record<string>)
    requires Buffers(r) <= h.store.Keys
  {
    Record(
      h.store[r.hardwareMapping], r.rows, r.cols, r.chainLength, r.parallel, r.pwmBits,
      r.pwmLsbNanoseconds, r.pwmDitherBits, r.brightness, r.scanMode, r.rowAddressType,
      r.multiplexing, h.store[r.ledRgbSequence], h.store[r.pixelMapperConfig],
      h.store[r.panelType], r.disableHardwarePulsing, r.showRefreshRate, r.inverseColors)
  }

  /**
   * What both records' `Drop` does to the heap: it frees the hardware-mapping
   * and RGB-sequence buffers only.
   */
  function DropRelease(h: Heap, r: Record<BufferId>): (h': Heap)
    requires Owns(h, r)
    ensures Wf(h') && h'.store == h.store
    ensures h'.live == h.live - {r.hardwareMapping, r.ledRgbSequence}
  {
    Reclaim(Reclaim(h, r.hardwareMapping), r.ledRgbSequence)
  }

  /** After `Drop` the pixel-mapper and panel-type buffers are still live: they leak. */
  lemma DropLeaks(h: Heap, r: Record<BufferId>)
    requires Owns(h, r)
    ensures r.pixelMapperConfig in DropRelease(h, r).live
    ensures r.panelType in DropRelease(h, r).live
    ensures r.hardwareMapping !in DropRelease(h, r).live
    ensures r.ledRgbSequence !in DropRelease(h, r).live
  {
  }

  /** A release that frees all four buffers, leaving nothing the struct owned live. */
  function ReleaseAll(h: Heap, r: Record<BufferId>): (h': Heap)
    requires Owns(h, r)
    ensures Wf(h') && h'.store == h.store
    ensures h'.live == h.live - Buffers(r)
    ensures Buffers(r) !! h'.live
  {
    Reclaim(Reclaim(DropRelease(h, r), r.pixelMapperConfig), r.panelType)
  }
}
