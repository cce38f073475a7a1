/** Java's fixed-width integers and the two arithmetic steps the TTL
    conversions use: truncating division and the narrowing `(int)` cast. */
module JavaInts {

  const INT_MIN: int := -0x8000_0000
  const INT_MAX: int := 0x7FFF_FFFF
  const LONG_MIN: int := -0x8000_0000_0000_0000
  const LONG_MAX: int := 0x7FFF_FFFF_FFFF_FFFF

  type Int32 = x: int | INT_MIN <= x <= INT_MAX
  type Int64 = x: int | LONG_MIN <= x <= LONG_MAX

  /** `millis / 1000` on Java integers: the quotient truncated toward zero,
      so the sub-second remainder is dropped on either side of zero. */
  function WholeSeconds(millis: int): (secs: int)
    ensures 0 <= millis ==> 0 <= secs && secs * 1000 <= millis < secs * 1000 + 1000
    ensures millis < 0 ==> secs <= 0 && secs * 1000 - 1000 < millis <= secs * 1000
  {
    if 0 <= millis then millis / 1000 else -((-millis) / 1000)
  }

  /** Java's `(int)` cast of a `long`: keeps the low 32 bits as a
      two's-complement value. */
  function NarrowToInt(x: int): (r: Int32)
    ensures (x - r) % 0x1_0000_0000 == 0
    ensures INT_MIN <= x <= INT_MAX ==> r == x
  {
    var low := x % 0x1_0000_0000;
    if low <= INT_MAX then low else low - 0x1_0000_0000
  }
}
