/** Fixed-width unsigned integers of the C++ code: `unsigned int` and `size_t`.
    Every addition of pins or totals the C++ performs in one of these types goes through
    `Add32` or `Add64`, which subtract the limit once when the sum reaches it; `AddWraps` shows
    that this is addition modulo 2^32 or 2^64, so wrap-around is part of the model. The roll index
    and the roll counter are plain naturals: they stay at or below 21, so they cannot wrap. */
module Unsigned {

  /** 2^32, one past the largest `unsigned int`. */
  const U32_LIMIT: int := 0x1_0000_0000

  /** 2^64, one past the largest `size_t`. */
  const U64_LIMIT: int := 0x1_0000_0000_0000_0000

  type u32 = x: int | 0 <= x < 0x1_0000_0000

  type u64 = x: int | 0 <= x < 0x1_0000_0000_0000_0000

  /** `a + b` in `size_t`: the sum of two values below 2^64 is below 2^65, so it
      wraps by subtracting 2^64 at most once. */
  function Add64(a: u64, b: u64): u64
  {
    if a + b < U64_LIMIT then a + b else a + b - U64_LIMIT
  }

  /** `a + b` in `unsigned int`. */
  function Add32(a: u32, b: u32): u32
  {
    if a + b < U32_LIMIT then a + b else a + b - U32_LIMIT
  }

  /** Both additions are addition modulo 2 to the width of the type. */
  lemma AddWraps(a: u64, b: u64, c: u32, d: u32)
    ensures Add64(a, b) == (a + b) % U64_LIMIT
    ensures Add32(c, d) == (c + d) % U32_LIMIT
  {
  }

  /** A value that fits in `unsigned int` is unchanged by the conversion to it. */
  lemma ModOfSmall32(x: int)
    requires 0 <= x < U32_LIMIT
    ensures x % U32_LIMIT == x
  {
  }
}
