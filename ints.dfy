/** Fixed-width integers of the Rust source, and the two ways it converts between them:
    `as` casts, which wrap, and checked arithmetic, which panics on overflow (the
    behaviour of a debug build). */
module Ints {

  const U8_LIMIT: int := 0x100
  const U16_LIMIT: int := 0x1_0000
  const U32_LIMIT: int := 0x1_0000_0000
  const I32_MIN: int := -0x8000_0000
  const I32_MAX: int := 0x7FFF_FFFF

  newtype u8 = x: int | 0 <= x < 0x100
  newtype u16 = x: int | 0 <= x < 0x1_0000
  newtype u32 = x: int | 0 <= x < 0x1_0000_0000
  newtype i32 = x: int | -0x8000_0000 <= x < 0x8000_0000

  /** `n as u32` for any integer `n` (usize or i32): keeps the low 32 bits, so a
      negative i32 becomes its two's-complement bit pattern. */
  function AsU32(n: int): (r: u32)
    ensures 0 <= n < U32_LIMIT ==> r as int == n
    ensures I32_MIN <= n < 0 ==> r as int == n + U32_LIMIT
    ensures (r as int - n) % U32_LIMIT == 0
  {
    (n % U32_LIMIT) as u32
  }

  /** `n as u16` for a u32 value: keeps the low 16 bits. */
  function AsU16(n: int): (r: u16)
    ensures 0 <= n < U16_LIMIT ==> r as int == n
    ensures (r as int - n) % U16_LIMIT == 0
  {
    (n % U16_LIMIT) as u16
  }

  /** True when `n` fits in a u32, i.e. an operation producing it did not overflow. */
  predicate FitsU32(n: int) {
    0 <= n < U32_LIMIT
  }

  /** True when `n` fits in an i32. */
  predicate FitsI32(n: int) {
    I32_MIN <= n <= I32_MAX
  }

  function Min(a: int, b: int): (r: int)
    ensures r <= a && r <= b && (r == a || r == b)
  {
    if a <= b then a else b
  }

  function Max(a: int, b: int): (r: int)
    ensures r >= a && r >= b && (r == a || r == b)
  {
    if a >= b then a else b
  }

  function Abs(a: int): (r: nat)
    ensures r == a || r == -a
  {
    if a < 0 then -a else a
  }
}
