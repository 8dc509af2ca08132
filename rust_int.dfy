/**
 * Rust's fixed-width integers and the two casts and one subtraction the
 * decoder uses on them.  Dafny integers are unbounded, so every truncation
 * and every wrap-around is written out here.
 */
module RustInt {

  const U8_MODULUS: int := 0x100
  const U16_MODULUS: int := 0x1_0000
  const U16_MAX: int := 0xFFFF

  type u8 = x: int | 0 <= x < 0x100
  type u16 = x: int | 0 <= x < 0x1_0000
  type i32 = x: int | -0x8000_0000 <= x < 0x8000_0000

  /** `v as u16` for an `i32`: keeps the low 16 bits of the two's-complement value. */
  function AsU16(v: i32): (r: u16)
    ensures (r - v) % U16_MODULUS == 0
    ensures 0 <= v < U16_MODULUS ==> r == v
    ensures v == -1 ==> r == U16_MAX
  {
    v % U16_MODULUS
  }

  /** `v as u8` for an `i32`: keeps the low 8 bits of the two's-complement value. */
  function AsU8(v: i32): (r: u8)
    ensures (r - v) % U8_MODULUS == 0
    ensures 0 <= v < U8_MODULUS ==> r == v
  {
    v % U8_MODULUS
  }

  /**
   * `a - b` on `u16` as a release build computes it: the difference when it
   * is representable, otherwise wrapped around modulo 2^16.
   */
  function WrappingSubU16(a: u16, b: u16): (r: u16)
    ensures (r + b - a) % U16_MODULUS == 0
    ensures b <= a ==> r == a - b
    ensures a < b ==> r == U16_MODULUS + a - b
  {
    (a - b) % U16_MODULUS
  }
}
