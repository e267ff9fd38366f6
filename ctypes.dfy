/** The native integer widths the option record is made of, and Rust's `as c_int` cast. */
module CTypes {

  const I32_MIN: int := -0x8000_0000
  const I32_MAX: int := 0x7FFF_FFFF
  /** The modulus of 32-bit wrap-around. */
  const TWO_32: int := 0x1_0000_0000

  type U8 = x: int | 0 <= x < 0x100
  type U16 = x: int | 0 <= x < 0x1_0000
  type U32 = x: int | 0 <= x < 0x1_0000_0000
  type I32 = x: int | -0x8000_0000 <= x < 0x8000_0000

  /** `c_int` and `c_uint` are 32 bits wide on every target the driver runs on. */
  type CInt = I32
  type CUInt = U32

  /** `v as c_int`: keeps the low 32 bits of `v` and reads them in two's complement. */
  function AsCInt(v: int): (r: CInt)
    ensures (r - v) % TWO_32 == 0
  {
    var low := v % TWO_32;
    if low <= I32_MAX then low else low - TWO_32
  }

  /** `as c_int` is the only `c_int` congruent to its argument modulo 2^32. */
  lemma AsCIntUnique(v: int, r: CInt)
    requires (r - v) % TWO_32 == 0
    ensures r == AsCInt(v)
  {
  }

  /** A value that already fits a `c_int` (every `u8`, `u16` and `i32`) is stored as it is. */
  lemma AsCIntLossless(v: int)
    requires I32_MIN <= v <= I32_MAX
    ensures AsCInt(v) == v
  {
  }

  /** A `u32` below 2^31 is stored as it is; from 2^31 on it wraps to a negative `c_int`. */
  lemma AsCIntOfU32(v: U32)
    ensures AsCInt(v) == if v <= I32_MAX then v else v - TWO_32
  {
  }
}
