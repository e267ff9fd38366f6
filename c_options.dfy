/**
 * The older option record `LedMatrixOptions` (src/c.rs): boolean parallel and
 * scan-mode setters, `u32` setters cast with `as c_int`, and fixed error messages.
 */
module COptions {
  import opened Wrappers
  import opened CTypes
  import opened CStrings
  import opened Layout

  /** One colour: three 8-bit intensities. */
  datatype LedColor = LedColor(red: U8, green: U8, blue: U8)

  const PWM_BITS_MESSAGE: string := "Pwm bits can only have value between 0 and 11 inclusive"
  const BRIGHTNESS_MESSAGE: string := "Brigthness can only have value between 1 and 100 inclusive"

  /**
   * The ranges every `LedMatrixOptions` keeps: parallel count and scan mode are
   * 0 or 1, PWM bits and brightness their checked ranges, the flags 0 or 1. The
   * `u32` fields may hold any `c_int`, negative ones included.
   */
  predicate InRange<S>(r: Record<S>) {
    0 <= r.parallel <= 1 && 0 <= r.scanMode <= 1
    && 0 <= r.pwmBits <= 11 && 1 <= r.brightness <= 100
    && r.disableHardwarePulsing <= 1 && r.showRefreshRate <= 1 && r.inverseColors <= 1
  }

  class LedMatrixOptions {
    /** The heap the four string buffers are allocated in. */
    const alloc: Allocator

    var hardwareMapping: BufferId
    var rows: CInt
    var cols: CInt
    var chainLength: CInt
    var parallel: CInt
    var pwmBits: CInt
    var pwmLsbNanoseconds: CInt
    var pwmDitherBits: CInt
    var brightness: CInt
    var scanMode: CInt
    var rowAddressType: CInt
    var multiplexing: CInt
    var ledRgbSequence: BufferId
    var pixelMapperConfig: BufferId
    var panelType: BufferId
    var disableHardwarePulsing: CUInt
    var showRefreshRate: CUInt
    var inverseColors: CUInt

    /** The struct as the driver reads it. */
    function Raw(): Record<BufferId>
      reads this
    {
      Record(hardwareMapping, rows, cols, chainLength, parallel, pwmBits, pwmLsbNanoseconds,
             pwmDitherBits, brightness, scanMode, rowAddressType, multiplexing, ledRgbSequence,
             pixelMapperConfig, panelType, disableHardwarePulsing, showRefreshRate, inverseColors)
    }

    /** Every string field points to its own live buffer and every checked number is in range. */
    ghost predicate Valid()
      reads this, alloc
    {
      Owns(alloc.heap, Raw()) && InRange(Raw())
    }

    /** The configuration the struct describes, strings followed through their pointers. */
    ghost function Settings(): Record<string>
      reads this, alloc
      requires Valid()
    {
      Resolve(alloc.heap, Raw())
    }

    /** `LedMatrixOptions::new`: the same defaults as `Options::new`, each string in a fresh buffer. */
    constructor (alloc: Allocator)
      requires Wf(alloc.heap)
      modifies alloc
      ensures this.alloc == alloc && Valid()
      ensures Settings() == DEFAULTS
      ensures Buffers(Raw()) !! old(alloc.heap.store).Keys
      ensures alloc.heap.live == old(alloc.heap.live) + Buffers(Raw())
      ensures Extends(old(alloc.heap), alloc.heap)
    {
      this.alloc := alloc;
      var made := Allocate(alloc.heap, "regular");
      alloc.heap, hardwareMapping := made.value.0, made.value.1;
      rows := 32;
      cols := 32;
      chainLength := 1;
      parallel := 1;
      pwmBits := 11;
      pwmLsbNanoseconds := 1000;
      pwmDitherBits := 1;
      brightness := 100;
      scanMode := 0;
      rowAddressType := 0;
      multiplexing := 0;
      made := Allocate(alloc.heap, "RGB");
      alloc.heap, ledRgbSequence := made.value.0, made.value.1;
      made := Allocate(alloc.heap, "");
      alloc.heap, pixelMapperConfig := made.value.0, made.value.1;
      made := Allocate(alloc.heap, "");
      alloc.heap, panelType := made.value.0, made.value.1;
      disableHardwarePulsing := 1;
      showRefreshRate := 1;
      inverseColors := 1;
    }

    /** `set_hardware_mapping`: free, then install; a NUL character panics after the free. */
    method SetHardwareMapping(mapping: string) returns (panicked: bool)
      requires Valid()
      modifies this, alloc
      ensures panicked <==> '\0' in mapping
      ensures alloc.heap == Replace(old(alloc.heap), old(hardwareMapping), mapping).heap
      ensures !panicked ==>
        Valid() && hardwareMapping !in old(alloc.heap.store)
        && Raw() == old(Raw()).(hardwareMapping := hardwareMapping)
        && Settings() == old(Settings()).(hardwareMapping := mapping)
      ensures panicked ==> Raw() == old(Raw()) && hardwareMapping !in alloc.heap.live
    {
      alloc.heap := Reclaim(alloc.heap, hardwareMapping);
      var made := Allocate(alloc.heap, mapping);
      if made.None? {
        return true;
      }
      alloc.heap, hardwareMapping := made.value.0, made.value.1;
      return false;
    }

    /** `set_rows`: `rows as c_int`, negative from 2^31 on. */
    method SetRows(rows: U32)
      requires Valid()
      modifies this
      ensures Valid()
      ensures Raw() == old(Raw()).(rows := if rows <= I32_MAX then rows else rows - TWO_32)
    {
      AsCIntOfU32(rows);
      this.rows := AsCInt(rows);
    }

    /** `set_cols`: `cols as c_int`, negative from 2^31 on. */
    method SetCols(cols: U32)
      requires Valid()
      modifies this
      ensures Valid()
      ensures Raw() == old(Raw()).(cols := if cols <= I32_MAX then cols else cols - TWO_32)
    {
      AsCIntOfU32(cols);
      this.cols := AsCInt(cols);
    }

    /** `set_chain_length`: `chain_length as c_int`, negative from 2^31 on. */
    method SetChainLength(chainLength: U32)
      requires Valid()
      modifies this
      ensures Valid()
      ensures Raw() == old(Raw()).(chainLength :=
        if chainLength <= I32_MAX then chainLength else chainLength - TWO_32)
    {
      AsCIntOfU32(chainLength);
      this.chainLength := AsCInt(chainLength);
    }

    /** `set_parallel`: 1 for true, 0 for false; no range check, so 0 can be stored. */
    method SetParallel(parallel: bool)
      requires Valid()
      modifies this
      ensures Valid() && Raw() == old(Raw()).(parallel := if parallel then 1 else 0)
    {
      if parallel {
        this.parallel := 1;
      } else {
        this.parallel := 0;
      }
    }

    /** `set_pwm_bits`: accepts 0 to 11; anything else is refused with a fixed message. */
    method SetPwmBits(pwmBits: U8) returns (r: Status<string>)
      requires Valid()
      modifies this
      ensures Valid()
      ensures r.Ok? <==> pwmBits <= 11
      ensures r.Ok? ==> Raw() == old(Raw()).(pwmBits := pwmBits)
      ensures r.Err? ==> r.error == PWM_BITS_MESSAGE && Raw() == old(Raw())
    {
      if pwmBits > 11 {
        r := Err(PWM_BITS_MESSAGE);
      } else {
        AsCIntLossless(pwmBits);
        this.pwmBits := AsCInt(pwmBits);
        r := Ok;
      }
    }

    /** `set_pwm_lsb_nanoseconds`: `as c_int`, negative from 2^31 on. */
    method SetPwmLsbNanoseconds(pwmLsbNanoseconds: U32)
      requires Valid()
      modifies this
      ensures Valid()
      ensures Raw() == old(Raw()).(pwmLsbNanoseconds :=
        if pwmLsbNanoseconds <= I32_MAX then pwmLsbNanoseconds else pwmLsbNanoseconds - TWO_32)
    {
      AsCIntOfU32(pwmLsbNanoseconds);
      this.pwmLsbNanoseconds := AsCInt(pwmLsbNanoseconds);
    }

    /** `set_pwm_dither_bits`: an `i32` is stored unchanged. */
    method SetPwmDitherBits(pwmDitherBits: I32)
      requires Valid()
      modifies this
      ensures Valid() && Raw() == old(Raw()).(pwmDitherBits := pwmDitherBits)
    {
      AsCIntLossless(pwmDitherBits);
      this.pwmDitherBits := AsCInt(pwmDitherBits);
    }

    /** `set_brightness`: accepts 1 to 100; 0 and anything above 100 are refused with a fixed message. */
    method SetBrightness(brightness: U8) returns (r: Status<string>)
      requires Valid()
      modifies this
      ensures Valid()
      ensures r.Ok? <==> 1 <= brightness <= 100
      ensures r.Ok? ==> Raw() == old(Raw()).(brightness := brightness)
      ensures r.Err? ==> r.error == BRIGHTNESS_MESSAGE && Raw() == old(Raw())
    {
      if brightness > 100 || brightness < 1 {
        r := Err(BRIGHTNESS_MESSAGE);
      } else {
        AsCIntLossless(brightness);
        this.brightness := AsCInt(brightness);
        r := Ok;
      }
    }

    /** `set_scan_mode`: 1 (interlaced) for true, 0 (progressive) for false. */
    method SetScanMode(scanMode: bool)
      requires Valid()
      modifies this
      ensures Valid() && Raw() == old(Raw()).(scanMode := if scanMode then 1 else 0)
    {
      if scanMode {
        this.scanMode := 1;
      } else {
        this.scanMode := 0;
      }
    }

    /** `set_row_address_type`: `as c_int`, unchecked, negative from 2^31 on. */
    method SetRowAddressType(rowAddressType: U32)
      requires Valid()
      modifies this
      ensures Valid()
      ensures Raw() == old(Raw()).(rowAddressType :=
        if rowAddressType <= I32_MAX then rowAddressType else rowAddressType - TWO_32)
    {
      AsCIntOfU32(rowAddressType);
      this.rowAddressType := AsCInt(rowAddressType);
    }

    /** `set_multiplexing`: `as c_int`, unchecked, negative from 2^31 on. */
    method SetMultiplexing(multiplexing: U32)
      requires Valid()
      modifies this
      ensures Valid()
      ensures Raw() == old(Raw()).(multiplexing :=
        if multiplexing <= I32_MAX then multiplexing else multiplexing - TWO_32)
    {
      AsCIntOfU32(multiplexing);
      this.multiplexing := AsCInt(multiplexing);
    }

    /** `set_led_rgb_sequence`: free, then install; a NUL character panics after the free. */
    method SetLedRgbSequence(sequence: string) returns (panicked: bool)
      requires Valid()
      modifies this, alloc
      ensures panicked <==> '\0' in sequence
      ensures alloc.heap == Replace(old(alloc.heap), old(ledRgbSequence), sequence).heap
      ensures !panicked ==>
        Valid() && ledRgbSequence !in old(alloc.heap.store)
        && Raw() == old(Raw()).(ledRgbSequence := ledRgbSequence)
        && Settings() == old(Settings()).(ledRgbSequence := sequence)
      ensures panicked ==> Raw() == old(Raw()) && ledRgbSequence !in alloc.heap.live
    {
      alloc.heap := Reclaim(alloc.heap, ledRgbSequence);
      var made := Allocate(alloc.heap, sequence);
      if made.None? {
        return true;
      }
      alloc.heap, ledRgbSequence := made.value.0, made.value.1;
      return false;
    }

    /** `set_pixel_mapper_config`: free, then install; a NUL character panics after the free. */
    method SetPixelMapperConfig(pixelMapperConfig: string) returns (panicked: bool)
      requires Valid()
      modifies this, alloc
      ensures panicked <==> '\0' in pixelMapperConfig
      ensures alloc.heap == Replace(old(alloc.heap), old(this.pixelMapperConfig), pixelMapperConfig).heap
      ensures !panicked ==>
        Valid() && this.pixelMapperConfig !in old(alloc.heap.store)
        && Raw() == old(Raw()).(pixelMapperConfig := this.pixelMapperConfig)
        && Settings() == old(Settings()).(pixelMapperConfig := pixelMapperConfig)
      ensures panicked ==> Raw() == old(Raw()) && this.pixelMapperConfig !in alloc.heap.live
    {
      alloc.heap := Reclaim(alloc.heap, this.pixelMapperConfig);
      var made := Allocate(alloc.heap, pixelMapperConfig);
      if made.None? {
        return true;
      }
      alloc.heap, this.pixelMapperConfig := made.value.0, made.value.1;
      return false;
    }

    /** `set_panel_type`: free, then install; a NUL character panics after the free. */
    method SetPanelType(panelType: string) returns (panicked: bool)
      requires Valid()
      modifies this, alloc
      ensures panicked <==> '\0' in panelType
      ensures alloc.heap == Replace(old(alloc.heap), old(this.panelType), panelType).heap
      ensures !panicked ==>
        Valid() && this.panelType !in old(alloc.heap.store)
        && Raw() == old(Raw()).(panelType := this.panelType)
        && Settings() == old(Settings()).(panelType := panelType)
      ensures panicked ==> Raw() == old(Raw()) && this.panelType !in alloc.heap.live
    {
      alloc.heap := Reclaim(alloc.heap, this.panelType);
      var made := Allocate(alloc.heap, panelType);
      if made.None? {
        return true;
      }
      alloc.heap, this.panelType := made.value.0, made.value.1;
      return false;
    }

    /** `set_disable_hardware_pulsing`: 1 for true, 0 for false. */
    method SetDisableHardwarePulsing(disable: bool)
      requires Valid()
      modifies this
      ensures Valid() && Raw() == old(Raw()).(disableHardwarePulsing := if disable then 1 else 0)
    {
      if disable {
        disableHardwarePulsing := 1;
      } else {
        disableHardwarePulsing := 0;
      }
    }

    /** `set_show_refresh_rate`: 1 for true, 0 for false. */
    method SetShowRefreshRate(enable: bool)
      requires Valid()
      modifies this
      ensures Valid() && Raw() == old(Raw()).(showRefreshRate := if enable then 1 else 0)
    {
      if enable {
        showRefreshRate := 1;
      } else {
        showRefreshRate := 0;
      }
    }

    /** `set_inverse_colors`: 1 for true, 0 for false. */
    method SetInverseColors(enable: bool)
      requires Valid()
      modifies this
      ensures Valid() && Raw() == old(Raw()).(inverseColors := if enable then 1 else 0)
    {
      if enable {
        inverseColors := 1;
      } else {
        inverseColors := 0;
      }
    }

    /**
     * `Drop for LedMatrixOptions`: frees the hardware-mapping and RGB-sequence
     * buffers; the pixel-mapper and panel-type buffers stay live.
     */
    method Drop()
      requires Valid()
      modifies alloc
      ensures alloc.heap == DropRelease(old(alloc.heap), Raw())
      ensures pixelMapperConfig in alloc.heap.live && panelType in alloc.heap.live
    {
      alloc.heap := Reclaim(alloc.heap, hardwareMapping);
      alloc.heap := Reclaim(alloc.heap, ledRgbSequence);
    }
  }
}
