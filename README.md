# rpi-rgb-led-matrix option records in Dafny

This project models the configuration record of the Rust bindings for the
rpi-rgb-led-matrix driver. The record is the flat 18-field block that the
native driver reads when it creates a matrix:

- four owned C-string buffers: hardware mapping, RGB sequence, pixel-mapper
  configuration and panel type;
- eleven `c_int` fields;
- three `c_uint` flags that hold 0 or 1.

The bindings define the record twice:

- `Options` in `src/led_matrix_options.rs` is the public record. It has
  range-checked setters, typed enum setters and lossless `u16` setters.
- `LedMatrixOptions` in `src/c.rs` is an older private copy. It has boolean
  parallel and scan-mode setters, `u32` setters cast with `as c_int`, and
  fixed error messages.

Both are Dafny classes whose fields are the 18 struct fields, and whose setters
update them in place.

The string fields hold buffer ids. The buffers live in a heap value
(`CStrings.Heap`), which belongs to one `Allocator` object that all records
share. The heap records:

- the text of every buffer ever allocated;
- the buffers not yet freed (`live`).

A buffer id names one allocation and is never reused; it is an allocation's identity, not a pointer value, which a real allocator may hand out again after a free.

`CString::new(text).unwrap().into_raw()` is `CStrings.Allocate`.
`CString::from_raw` is `CStrings.Reclaim`.

`Layout.Record<S>` is the field layout in the driver's order.
`Record<BufferId>` is the struct as laid out (`Raw()`).
`Record<string>` is what the struct means once every pointer is followed
(`Settings()`). Both constructors produce `Layout.DEFAULTS`, so both records
start from the same 18 values.

Each setter's postcondition states the whole new struct as the old one with
one field replaced. It also states that `Valid()` still holds. `Valid()` means:

- the four buffers are distinct and live;
- every field is within the range that record's setters can produce.

A string setter frees the field's buffer before it copies the new text, as the
code does. A text with a NUL character makes `CString::new(..).unwrap()`
panic. The model reports this as `panicked == true`. The field then still
names the freed buffer and `Valid()` no longer holds.

Modules:
- `Wrappers`: `Option` and `Status`. `Status` is Rust's `Result<(), E>`.
- `CTypes`: integer widths and `as c_int`.
- `CStrings`: the buffer heap and the string-replacement discipline.
- `Layout`: the 18-field record, the defaults, and what `Drop` frees.
- `MatrixOptions`: `Options`, its three enums and its three error types.
- `COptions`: `LedMatrixOptions`, `LedColor` and the two error messages.

## Model

| member | source | states |
|---|---|---|
| CTypes.AsCInt | src/c.rs:74-76 | `as c_int` gives the one 32-bit signed value congruent to its argument modulo 2^32 |
| CTypes.AsCIntUnique | src/c.rs:74-76 | any `c_int` congruent to v modulo 2^32 is `v as c_int`, so the cast is fully determined |
| CTypes.AsCIntLossless | src/led_matrix_options.rs:116-118 | a value that fits a `c_int` (every `u8`, `u16`, `i32`) is stored unchanged |
| CTypes.AsCIntOfU32 | src/c.rs:74-86 | a `u32` below 2^31 is stored unchanged; from 2^31 on, v − 2^32 is stored |
| CStrings.Allocate | src/led_matrix_options.rs:111 | `CString::new(text).unwrap().into_raw()` fails exactly when text holds NUL; otherwise it yields a fresh allocation (a new id, not a reused address) that holds text and is live; nothing else changes |
| CStrings.Reclaim | src/led_matrix_options.rs:110 | `CString::from_raw` frees exactly that buffer; no text changes |
| CStrings.Replace | src/led_matrix_options.rs:108-113 | a string setter always frees the field's buffer; it panics exactly on a NUL; otherwise the live set is the old one minus the field's buffer plus one fresh buffer that holds the new text |
| CStrings.FreeFirstDangles | src/led_matrix_options.rs:110-111 | on a NUL the code's order has already freed the field's buffer, while allocate-first would keep it live |
| CStrings.ReplaceAllocFirst | src/led_matrix_options.rs:108-113 | allocate-first replacement: a NUL leaves the heap unchanged and the old buffer live; a valid text has the same effect as the code's order |
| CStrings.ReplaceAll | src/led_matrix_options.rs:108-113 | N consecutive calls of one string setter with NUL-free texts: the field ends on a live buffer holding the last text (its first text when N = 0), and every text already on record is kept |
| CStrings.ReplaceAllLeavesOneBuffer | src/led_matrix_options.rs:192-197 | after N ≥ 1 calls of one string setter, the field owns exactly one fresh live buffer that holds the last text; its first buffer and every buffer installed in between are freed; no other buffer's liveness changes |
| Layout.DropRelease | src/led_matrix_options.rs:246-253 | `Drop` frees exactly the hardware-mapping and RGB-sequence buffers and changes no text |
| Layout.DropLeaks | src/c.rs:207-214 | after `Drop` the pixel-mapper and panel-type buffers are still live (leaked); the other two are freed |
| Layout.ReleaseAll | src/led_matrix_options.rs:246-253 | a release of all four buffers leaves none of the record's buffers live |
| MatrixOptions.ScanMode.Code | src/led_matrix_options.rs:11-14 | the scan-mode discriminant is 0 or 1, and 0 is exactly `Progressive` |
| MatrixOptions.RowAddressType.Code | src/led_matrix_options.rs:16-21 | the row-address discriminant is in 0..3, and 0 is exactly `Direct` |
| MatrixOptions.Multiplexing.Code | src/led_matrix_options.rs:23-31 | the multiplexing discriminant is in 0..6, and 0 is exactly `Direct` |
| MatrixOptions.ScanModeCodeInjective | src/led_matrix_options.rs:175-177 | two scan modes are stored equal iff they are the same mode |
| MatrixOptions.RowAddressTypeCodeInjective | src/led_matrix_options.rs:181-183 | two row-address types are stored equal iff they are the same type |
| MatrixOptions.MultiplexingCodeInjective | src/led_matrix_options.rs:186-188 | two multiplexing schemes are stored equal iff they are the same scheme |
| MatrixOptions.Options.constructor | src/led_matrix_options.rs:84-105 | `Options::new` gives exactly the documented defaults: "regular", 32, 32, 1, 1, 11, 1000, 1, 100, 0, 0, 0, "RGB", "", "", 1, 1, 1; it allocates four fresh, distinct, live buffers, frees nothing, and leaves the text of every earlier buffer unchanged |
| MatrixOptions.Options.SetHardwareMapping | src/led_matrix_options.rs:108-113 | frees the old buffer, then installs a fresh buffer that holds the text; it panics iff the text has NUL, leaving the field on the freed buffer; other fields and buffers are untouched |
| MatrixOptions.Options.SetRows | src/led_matrix_options.rs:116-118 | stores the `u16` exactly; no other field changes |
| MatrixOptions.Options.SetCols | src/led_matrix_options.rs:121-123 | stores the `u16` exactly; no other field changes |
| MatrixOptions.Options.SetChainLength | src/led_matrix_options.rs:126-128 | stores the `u16` exactly; no other field changes |
| MatrixOptions.Options.SetParallel | src/led_matrix_options.rs:132-139 | succeeds and stores p iff 1 ≤ p ≤ 3; otherwise returns `ParallelError(p)` and the record is unchanged |
| MatrixOptions.Options.SetPwmBits | src/led_matrix_options.rs:142-149 | succeeds and stores b iff b ≤ 11; otherwise returns `PwmBitsError(b)` and the record is unchanged |
| MatrixOptions.Options.SetPwmLsbNanoseconds | src/led_matrix_options.rs:154-156 | stores the `u16` exactly; no other field changes |
| MatrixOptions.Options.SetPwmDitherBits | src/led_matrix_options.rs:159-161 | stores any `i32` exactly; no other field changes |
| MatrixOptions.Options.SetBrightness | src/led_matrix_options.rs:165-172 | succeeds and stores b iff 1 ≤ b ≤ 100; otherwise (0 or more than 100) returns `BrightnessError(b)` and the record is unchanged |
| MatrixOptions.Options.SetScanMode | src/led_matrix_options.rs:175-177 | stores the mode's discriminant; no other field changes |
| MatrixOptions.Options.SetRowAddressType | src/led_matrix_options.rs:181-183 | stores the type's discriminant; no other field changes |
| MatrixOptions.Options.SetMultiplexing | src/led_matrix_options.rs:186-188 | stores the scheme's discriminant; no other field changes |
| MatrixOptions.Options.SetLedRgbSequence | src/led_matrix_options.rs:192-197 | frees the old buffer, then installs a fresh one that holds the text; it panics iff the text has NUL, leaving the field dangling |
| MatrixOptions.Options.SetPixelMapperConfig | src/led_matrix_options.rs:202-207 | frees the old buffer, then installs a fresh one that holds the text; it panics iff the text has NUL, leaving the field dangling |
| MatrixOptions.Options.SetPanelType | src/led_matrix_options.rs:211-216 | frees the old buffer, then installs a fresh one that holds the text; it panics iff the text has NUL, leaving the field dangling |
| MatrixOptions.Options.SetDisableHardwarePulsing | src/led_matrix_options.rs:220-226 | stores 1 for true and 0 for false, so the flag stays in {0,1} |
| MatrixOptions.Options.SetShowRefreshRate | src/led_matrix_options.rs:228-234 | stores 1 for true and 0 for false, so the flag stays in {0,1} |
| MatrixOptions.Options.SetInverseColors | src/led_matrix_options.rs:237-243 | stores 1 for true and 0 for false, so the flag stays in {0,1} |
| MatrixOptions.Options.Drop | src/led_matrix_options.rs:246-253 | frees only the hardware-mapping and RGB-sequence buffers; the pixel-mapper and panel-type buffers stay live |
| COptions.LedMatrixOptions.constructor | src/c.rs:42-63 | `LedMatrixOptions::new` gives the same 18 defaults as `Options::new`, in four fresh, distinct, live buffers; it frees nothing and leaves the text of every earlier buffer unchanged |
| COptions.LedMatrixOptions.SetHardwareMapping | src/c.rs:66-71 | frees the old buffer, then installs a fresh one that holds the text; it panics iff the text has NUL, leaving the field dangling |
| COptions.LedMatrixOptions.SetRows | src/c.rs:74-76 | stores v when v < 2^31, and v − 2^32 otherwise; no other field changes |
| COptions.LedMatrixOptions.SetCols | src/c.rs:79-81 | stores v when v < 2^31, and v − 2^32 otherwise; no other field changes |
| COptions.LedMatrixOptions.SetChainLength | src/c.rs:84-86 | stores v when v < 2^31, and v − 2^32 otherwise; no other field changes |
| COptions.LedMatrixOptions.SetParallel | src/c.rs:90-96 | stores 1 for true and 0 for false, with no range check, so 0 is reachable |
| COptions.LedMatrixOptions.SetPwmBits | src/c.rs:99-106 | succeeds and stores b iff b ≤ 11; otherwise returns the fixed message and the record is unchanged |
| COptions.LedMatrixOptions.SetPwmLsbNanoseconds | src/c.rs:111-113 | stores v when v < 2^31, and v − 2^32 otherwise; no other field changes |
| COptions.LedMatrixOptions.SetPwmDitherBits | src/c.rs:116-118 | stores any `i32` exactly; no other field changes |
| COptions.LedMatrixOptions.SetBrightness | src/c.rs:122-129 | succeeds and stores b iff 1 ≤ b ≤ 100; otherwise returns the fixed message and the record is unchanged |
| COptions.LedMatrixOptions.SetScanMode | src/c.rs:132-138 | stores 1 for true and 0 for false |
| COptions.LedMatrixOptions.SetRowAddressType | src/c.rs:142-144 | stores v when v < 2^31, and v − 2^32 otherwise, unchecked |
| COptions.LedMatrixOptions.SetMultiplexing | src/c.rs:147-149 | stores v when v < 2^31, and v − 2^32 otherwise, unchecked |
| COptions.LedMatrixOptions.SetLedRgbSequence | src/c.rs:153-158 | frees the old buffer, then installs a fresh one that holds the text; it panics iff the text has NUL, leaving the field dangling |
| COptions.LedMatrixOptions.SetPixelMapperConfig | src/c.rs:163-168 | frees the old buffer, then installs a fresh one that holds the text; it panics iff the text has NUL, leaving the field dangling |
| COptions.LedMatrixOptions.SetPanelType | src/c.rs:172-177 | frees the old buffer, then installs a fresh one that holds the text; it panics iff the text has NUL, leaving the field dangling |
| COptions.LedMatrixOptions.SetDisableHardwarePulsing | src/c.rs:181-187 | stores 1 for true and 0 for false |
| COptions.LedMatrixOptions.SetShowRefreshRate | src/c.rs:189-195 | stores 1 for true and 0 for false |
| COptions.LedMatrixOptions.SetInverseColors | src/c.rs:198-204 | stores 1 for true and 0 for false |
| COptions.LedColor | src/c.rs:8-12 | a colour is three 8-bit intensities, red, green and blue |
| MatrixOptions.ParallelError | src/led_matrix_options.rs:38-40 | the parallel-count error carries the rejected `u16` |
| MatrixOptions.PwmBitsError | src/led_matrix_options.rs:45-47 | the PWM-bits error carries the rejected `u8` |
| MatrixOptions.BrightnessError | src/led_matrix_options.rs:52-54 | the brightness error carries the rejected `u8` |
| Layout.DEFAULTS | src/led_matrix_options.rs:84-105 | the 18 default values both records start from |
| COptions.LedMatrixOptions.Drop | src/c.rs:207-214 | frees only the hardware-mapping and RGB-sequence buffers; the other two stay live |

## Left out

- `LedMatrix`, `LedCanvas` and `LedFont` in src/lib.rs, and the `LedCanvas` impl and `extern "C"` block in src/c.rs, are not modelled. Each of their methods is one call into the native driver, which is not part of this model. That covers pixel writes, fill, clear, lines, circles, text advance, canvas size and the vsync swap.
- `#[repr(C, packed)]` and the field offsets are a compile-time layout property. `Layout.Record` keeps the field order only.
- The `Display` and `Error` impls of the three error types only format text. Each error value carries the rejected input.
- Unwinding is not modelled. A panicking string setter returns `panicked == true` and leaves the state as the panic finds it. The `Drop` that unwinding would then run is outside the model; `Drop` requires `Valid()`, which no longer holds at that point.
- Allocation failure (an out-of-memory abort inside `CString::new`) is not modelled. Allocation always succeeds for NUL-free text.
- The string setters free the old buffer before allocating the new one, and the model follows that order. Allocating first, then freeing, would keep the record valid when a text is rejected; that order is given beside it as `CStrings.ReplaceAllocFirst`.
- `LedColor` (src/c.rs:8-12) is a plain value with no operations. It is modelled as a datatype only.
- The tests in src/lib.rs need hardware and timing, and are not modelled.

## Findings

The classes keep the code's behaviour. The corrected definitions stand beside them in `CStrings` and `Layout`.

| source | as written | input that shows it | evidently intended | confidence | as-written member | corrected member |
|---|---|---|---|---|---|---|
| src/led_matrix_options.rs:110-111 | The field's buffer is freed before `CString::new(..).unwrap()`. A NUL character panics with the field still pointing at the freed buffer. The `Drop` run while unwinding then frees it a second time; this double free applies to `hardware_mapping` and `led_rgb_sequence` only, since `Drop` never frees the other two buffers. The same order is used in all eight string setters of both records. | `set_hardware_mapping("a\0b")` | Allocate the new buffer first, and free the old one only once the new one exists. A rejected text then changes nothing. | medium, not executed | CStrings.Replace, CStrings.FreeFirstDangles | CStrings.ReplaceAllocFirst |
| src/led_matrix_options.rs:246-253 | `Drop` frees two of the four buffers. The pixel-mapper and panel-type buffers are never freed. src/c.rs:207-214 does the same. | any record dropped, e.g. `Options::new()` followed by drop: the two "" buffers stay allocated | Free all four buffers the record owns. | medium, not executed | Layout.DropRelease, Layout.DropLeaks | Layout.ReleaseAll |
