// Fixed-width unsigned integers of the Rust side, as subset newtypes of `int`.
module Ints {
  const U8_LIMIT: int := 0x100
  const U32_LIMIT: int := 0x1_0000_0000
  const U64_LIMIT: int := 0x1_0000_0000_0000_0000

  /** Rust `u8`. */
  newtype u8 = x: int | 0 <= x < 0x100

  /** Rust `u32`. */
  newtype u32 = x: int | 0 <= x < 0x1_0000_0000

  /** Rust `n as u32` for an in-range `u64`: keeps the low 32 bits. */
  function TruncateToU32(n: nat): (r: u32)
    requires n < U64_LIMIT
    ensures r as int == n % U32_LIMIT
    ensures n < U32_LIMIT ==> r as int == n
  {
    (n % U32_LIMIT) as u32
  }
}
