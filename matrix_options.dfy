/**
 * The public option record `Options` (src/led_matrix_options.rs): range-checked
 * setters for the parallel count, PWM bits and brightness, typed setters for the
 * three enumerated options, lossless `u16` setters, and owned string buffers.
 */
module MatrixOptions {
  import opened Wrappers
  import opened CTypes
  import opened CStrings
  import opened Layout

  datatype ScanMode = Progressive | Interlaced {
    /** `scan_mode as c_int`, the enum's discriminant. */
    function Code(): (c: CInt)
      ensures 0 <= c <= 1
      ensures c == 0 <==> this == Progressive
    {
      match this
      case Progressive => 0
      case Interlaced => 1
    }
  }

  datatype RowAddressType = Direct | ShiftRegister | DirectABCDLine | ABCShiftRegister {
    /** `row_address_type as c_int`, the enum's discriminant. */
    function Code(): (c: CInt)
      ensures 0 <= c <= 3
      ensures c == 0 <==> this == RowAddressType.Direct
    {
      match this
      case Direct => 0
      case ShiftRegister => 1
      case DirectABCDLine => 2
      case ABCShiftRegister => 3
    }
  }

  datatype Multiplexing =
    | Direct | Stripe | Checkered | Spiral | ZStripe | ZnMirrorZStripe | Coreman
  {
    /** `multiplexing as c_int`, the enum's discriminant. */
    function Code(): (c: CInt)
      ensures 0 <= c <= 6
      ensures c == 0 <==> this == Multiplexing.Direct
    {
      match this
      case Direct => 0
      case Stripe => 1
      case Checkered => 2
      case Spiral => 3
      case ZStripe => 4
      case ZnMirrorZStripe => 5
      case Coreman => 6
    }
  }

  /** Distinct scan modes are stored as distinct integers. */
  lemma ScanModeCodeInjective(a: ScanMode, b: ScanMode)
    ensures a.Code() == b.Code() <==> a == b
  {
  }

  /** Distinct row-address types are stored as distinct integers. */
  lemma RowAddressTypeCodeInjective(a: RowAddressType, b: RowAddressType)
    ensures a.Code() == b.Code() <==> a == b
  {
  }

  /** Distinct multiplexing schemes are stored as distinct integers. */
  lemma MultiplexingCodeInjective(a: Multiplexing, b: Multiplexing)
    ensures a.Code() == b.Code() <==> a == b
  {
  }

  /** Each rejected value is carried back to the caller in its error. */
  datatype ParallelError = ParallelError(parallel: U16)
  datatype PwmBitsError = PwmBitsError(pwmBits: U8)
  datatype BrightnessError = BrightnessError(brightness: U8)

  /**
   * The ranges every field of an `Options` keeps: the `u16` fields fit 16 bits,
   * the checked fields their documented range, the enumerated fields their
   * discriminants and the flags 0 or 1.
   */
  predicate InRange<S>(r: Record<S>) {
    0 <= r.rows < 0x1_0000 && 0 <= r.cols < 0x1_0000 && 0 <= r.chainLength < 0x1_0000
    && 0 <= r.pwmLsbNanoseconds < 0x1_0000
    && 1 <= r.parallel <= 3 && 0 <= r.pwmBits <= 11 && 1 <= r.brightness <= 100
    && 0 <= r.scanMode <= 1 && 0 <= r.rowAddressType <= 3 && 0 <= r.multiplexing <= 6
    && r.disableHardwarePulsing <= 1 && r.showRefreshRate <= 1 && r.inverseColors <= 1
  }

  class Options {
    /** The heap the four string buffers are allocated in. */
    const alloc: Allocator

    var hardwareMapping: BufferId
    var rows: CInt
    var cols: CInt
    var chainLength: CInt
    var parallel: CInt
    var pwmBits: CInt
    var pwmLsbNanoseconds: CInt
    var pwmDitherBits: CInt
    var brightness: CInt
    var scanMode: CInt
    var rowAddressType: CInt
    var multiplexing: CInt
    var ledRgbSequence: BufferId
    var pixelMapperConfig: BufferId
    var panelType: BufferId
    var disableHardwarePulsing: CUInt
    var showRefreshRate: CUInt
    var inverseColors: CUInt

    /** The struct as the driver reads it. */
    function Raw(): Record<BufferId>
      reads this
    {
      Record(hardwareMapping, rows, cols, chainLength, parallel, pwmBits, pwmLsbNanoseconds,
             pwmDitherBits, brightness, scanMode, rowAddressType, multiplexing, ledRgbSequence,
             pixelMapperConfig, panelType, disableHardwarePulsing, showRefreshRate, inverseColors)
    }

    /** Every string field points to its own live buffer and every number is in range. */
    ghost predicate Valid()
      reads this, alloc
    {
      Owns(alloc.heap, Raw()) && InRange(Raw())
    }

    /** The configuration the struct describes, strings followed through their pointers. */
    ghost function Settings(): Record<string>
      reads this, alloc
      requires Valid()
    {
      Resolve(alloc.heap, Raw())
    }

    /** `Options::new`: the documented defaults, each string in a fresh buffer. */
    constructor (alloc: Allocator)
      requires Wf(alloc.heap)
      modifies alloc
      ensures this.alloc == alloc && Valid()
      ensures Settings() == DEFAULTS
      ensures Buffers(Raw()) !! old(alloc.heap.store).Keys
      ensures alloc.heap.live == old(alloc.heap.live) + Buffers(Raw())
      ensures Extends(old(alloc.heap), alloc.heap)
    {
      this.alloc := alloc;
      var made := Allocate(alloc.heap, "regular");
      alloc.heap, hardwareMapping := made.value.0, made.value.1;
      rows := 32;
      cols := 32;
      chainLength := 1;
      parallel := 1;
      pwmBits := 11;
      pwmLsbNanoseconds := 1000;
      pwmDitherBits := 1;
      brightness := 100;
      scanMode := Progressive.Code();
      rowAddressType := RowAddressType.Direct.Code();
      multiplexing := Multiplexing.Direct.Code();
      made := Allocate(alloc.heap, "RGB");
      alloc.heap, ledRgbSequence := made.value.0, made.value.1;
      made := Allocate(alloc.heap, "");
      alloc.heap, pixelMapperConfig := made.value.0, made.value.1;
      made := Allocate(alloc.heap, "");
      alloc.heap, panelType := made.value.0, made.value.1;
      disableHardwarePulsing := 1;
      showRefreshRate := 1;
      inverseColors := 1;
    }

    /**
     * `set_hardware_mapping`: frees the current buffer, then installs a fresh one
     * holding `mapping`. A NUL character in `mapping` panics after the free, and
     * the field is left pointing at the freed buffer.
     */
    method SetHardwareMapping(mapping: string) returns (panicked: bool)
      requires Valid()
      modifies this, alloc
      ensures panicked <==> '\0' in mapping
      ensures alloc.heap == Replace(old(alloc.heap), old(hardwareMapping), mapping).heap
      ensures !panicked ==>
        Valid() && hardwareMapping !in old(alloc.heap.store)
        && Raw() == old(Raw()).(hardwareMapping := hardwareMapping)
        && Settings() == old(Settings()).(hardwareMapping := mapping)
      ensures panicked ==> Raw() == old(Raw()) && hardwareMapping !in alloc.heap.live
    {
      alloc.heap := Reclaim(alloc.heap, hardwareMapping);
      var made := Allocate(alloc.heap, mapping);
      if made.None? {
        return true;
      }
      alloc.heap, hardwareMapping := made.value.0, made.value.1;
      return false;
    }

    /** `set_rows`: a `u16` fits a `c_int`, so it is stored unchanged. */
    method SetRows(rows: U16)
      requires Valid()
      modifies this
      ensures Valid() && Raw() == old(Raw()).(rows := rows)
    {
      AsCIntLossless(rows);
      this.rows := AsCInt(rows);
    }

    /** `set_cols`: stored unchanged. */
    method SetCols(cols: U16)
      requires Valid()
      modifies this
      ensures Valid() && Raw() == old(Raw()).(cols := cols)
    {
      AsCIntLossless(cols);
      this.cols := AsCInt(cols);
    }

    /** `set_chain_length`: stored unchanged. */
    method SetChainLength(chainLength: U16)
      requires Valid()
      modifies this
      ensures Valid() && Raw() == old(Raw()).(chainLength := chainLength)
    {
      AsCIntLossless(chainLength);
      this.chainLength := AsCInt(chainLength);
    }

    /** `set_parallel`: accepts 1 to 3; anything else is reported and changes nothing. */
    method SetParallel(parallel: U16) returns (r: Status<ParallelError>)
      requires Valid()
      modifies this
      ensures Valid()
      ensures r.Ok? <==> 1 <= parallel <= 3
      ensures r.Ok? ==> Raw() == old(Raw()).(parallel := parallel)
      ensures r.Err? ==> r.error == ParallelError(parallel) && Raw() == old(Raw())
    {
      if parallel < 1 || parallel > 3 {
        r := Err(ParallelError(parallel));
      } else {
        AsCIntLossless(parallel);
        this.parallel := AsCInt(parallel);
        r := Ok;
      }
    }

    /** `set_pwm_bits`: accepts 0 to 11; anything else is reported and changes nothing. */
    method SetPwmBits(pwmBits: U8) returns (r: Status<PwmBitsError>)
      requires Valid()
      modifies this
      ensures Valid()
      ensures r.Ok? <==> pwmBits <= 11
      ensures r.Ok? ==> Raw() == old(Raw()).(pwmBits := pwmBits)
      ensures r.Err? ==> r.error == PwmBitsError(pwmBits) && Raw() == old(Raw())
    {
      if pwmBits > 11 {
        r := Err(PwmBitsError(pwmBits));
      } else {
        AsCIntLossless(pwmBits);
        this.pwmBits := AsCInt(pwmBits);
        r := Ok;
      }
    }

    /** `set_pwm_lsb_nanoseconds`: stored unchanged. */
    method SetPwmLsbNanoseconds(pwmLsbNanoseconds: U16)
      requires Valid()
      modifies this
      ensures Valid() && Raw() == old(Raw()).(pwmLsbNanoseconds := pwmLsbNanoseconds)
    {
      AsCIntLossless(pwmLsbNanoseconds);
      this.pwmLsbNanoseconds := AsCInt(pwmLsbNanoseconds);
    }

    /** `set_pwm_dither_bits`: an `i32` is already a `c_int`; any value is accepted. */
    method SetPwmDitherBits(pwmDitherBits: I32)
      requires Valid()
      modifies this
      ensures Valid() && Raw() == old(Raw()).(pwmDitherBits := pwmDitherBits)
    {
      AsCIntLossless(pwmDitherBits);
      this.pwmDitherBits := AsCInt(pwmDitherBits);
    }

    /** `set_brightness`: accepts 1 to 100; 0 and anything above 100 are reported and change nothing. */
    method SetBrightness(brightness: U8) returns (r: Status<BrightnessError>)
      requires Valid()
      modifies this
      ensures Valid()
      ensures r.Ok? <==> 1 <= brightness <= 100
      ensures r.Ok? ==> Raw() == old(Raw()).(brightness := brightness)
      ensures r.Err? ==> r.error == BrightnessError(brightness) && Raw() == old(Raw())
    {
      if brightness > 100 || brightness < 1 {
        r := Err(BrightnessError(brightness));
      } else {
        AsCIntLossless(brightness);
        this.brightness := AsCInt(brightness);
        r := Ok;
      }
    }

    /** `set_scan_mode`: stores the mode's discriminant. */
    method SetScanMode(scanMode: ScanMode)
      requires Valid()
      modifies this
      ensures Valid() && Raw() == old(Raw()).(scanMode := scanMode.Code())
    {
      this.scanMode := scanMode.Code();
    }

    /** `set_row_address_type`: stores the type's discriminant. */
    method SetRowAddressType(rowAddressType: RowAddressType)
      requires Valid()
      modifies this
      ensures Valid() && Raw() == old(Raw()).(rowAddressType := rowAddressType.Code())
    {
      this.rowAddressType := rowAddressType.Code();
    }

    /** `set_multiplexing`: stores the scheme's discriminant. */
    method SetMultiplexing(multiplexing: Multiplexing)
      requires Valid()
      modifies this
      ensures Valid() && Raw() == old(Raw()).(multiplexing := multiplexing.Code())
    {
      this.multiplexing := multiplexing.Code();
    }

    /** `set_led_rgb_sequence`: free, then install; a NUL character panics after the free. */
    method SetLedRgbSequence(sequence: string) returns (panicked: bool)
      requires Valid()
      modifies this, alloc
      ensures panicked <==> '\0' in sequence
      ensures alloc.heap == Replace(old(alloc.heap), old(ledRgbSequence), sequence).heap
      ensures !panicked ==>
        Valid() && ledRgbSequence !in old(alloc.heap.store)
        && Raw() == old(Raw()).(ledRgbSequence := ledRgbSequence)
        && Settings() == old(Settings()).(ledRgbSequence := sequence)
      ensures panicked ==> Raw() == old(Raw()) && ledRgbSequence !in alloc.heap.live
    {
      alloc.heap := Reclaim(alloc.heap, ledRgbSequence);
      var made := Allocate(alloc.heap, sequence);
      if made.None? {
        return true;
      }
      alloc.heap, ledRgbSequence := made.value.0, made.value.1;
      return false;
    }

    /** `set_pixel_mapper_config`: free, then install; a NUL character panics after the free. */
    method SetPixelMapperConfig(pixelMapperConfig: string) returns (panicked: bool)
      requires Valid()
      modifies this, alloc
      ensures panicked <==> '\0' in pixelMapperConfig
      ensures alloc.heap == Replace(old(alloc.heap), old(this.pixelMapperConfig), pixelMapperConfig).heap
      ensures !panicked ==>
        Valid() && this.pixelMapperConfig !in old(alloc.heap.store)
        && Raw() == old(Raw()).(pixelMapperConfig := this.pixelMapperConfig)
        && Settings() == old(Settings()).(pixelMapperConfig := pixelMapperConfig)
      ensures panicked ==> Raw() == old(Raw()) && this.pixelMapperConfig !in alloc.heap.live
    {
      alloc.heap := Reclaim(alloc.heap, this.pixelMapperConfig);
      var made := Allocate(alloc.heap, pixelMapperConfig);
      if made.None? {
        return true;
      }
      alloc.heap, this.pixelMapperConfig := made.value.0, made.value.1;
      return false;
    }

    /** `set_panel_type`: free, then install; a NUL character panics after the free. */
    method SetPanelType(panelType: string) returns (panicked: bool)
      requires Valid()
      modifies this, alloc
      ensures panicked <==> '\0' in panelType
      ensures alloc.heap == Replace(old(alloc.heap), old(this.panelType), panelType).heap
      ensures !panicked ==>
        Valid() && this.panelType !in old(alloc.heap.store)
        && Raw() == old(Raw()).(panelType := this.panelType)
        && Settings() == old(Settings()).(panelType := panelType)
      ensures panicked ==> Raw() == old(Raw()) && this.panelType !in alloc.heap.live
    {
      alloc.heap := Reclaim(alloc.heap, this.panelType);
      var made := Allocate(alloc.heap, panelType);
      if made.None? {
        return true;
      }
      alloc.heap, this.panelType := made.value.0, made.value.1;
      return false;
    }

    /** `set_disable_hardware_pulsing`: 1 for true, 0 for false. */
    method SetDisableHardwarePulsing(disable: bool)
      requires Valid()
      modifies this
      ensures Valid() && Raw() == old(Raw()).(disableHardwarePulsing := if disable then 1 else 0)
    {
      if disable {
        disableHardwarePulsing := 1;
      } else {
        disableHardwarePulsing := 0;
      }
    }

    /** `set_show_refresh_rate`: 1 for true, 0 for false. */
    method SetShowRefreshRate(show: bool)
      requires Valid()
      modifies this
      ensures Valid() && Raw() == old(Raw()).(showRefreshRate := if show then 1 else 0)
    {
      if show {
        showRefreshRate := 1;
      } else {
        showRefreshRate := 0;
      }
    }

    /** `set_inverse_colors`: 1 for true, 0 for false. */
    method SetInverseColors(inverse: bool)
      requires Valid()
      modifies this
      ensures Valid() && Raw() == old(Raw()).(inverseColors := if inverse then 1 else 0)
    {
      if inverse {
        inverseColors := 1;
      } else {
        inverseColors := 0;
      }
    }

    /**
     * `Drop for Options`: frees the hardware-mapping and RGB-sequence buffers;
     * the pixel-mapper and panel-type buffers stay live.
     */
    method Drop()
      requires Valid()
      modifies alloc
      ensures alloc.heap == DropRelease(old(alloc.heap), Raw())
      ensures pixelMapperConfig in alloc.heap.live && panelType in alloc.heap.live
    {
      alloc.heap := Reclaim(alloc.heap, hardwareMapping);
      alloc.heap := Reclaim(alloc.heap, ledRgbSequence);
    }
  }
}
