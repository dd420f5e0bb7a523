/**
  Java's fixed-width integers, and the two integer operations that the
  builder's duration setters apply to a duration's millisecond count:
  the narrowing cast `(int)` from `long`, and `/` on `int`.
 */
module JavaInt {

  const TWO_32: int := 0x1_0000_0000

  /** A Java `int`. */
  type Int32 = x: int | -0x8000_0000 <= x < 0x8000_0000

  /** A Java `long`. */
  type Int64 = x: int | -0x8000_0000_0000_0000 <= x < 0x8000_0000_0000_0000

  /** The narrowing cast `(int) x`: keeps the low 32 bits, read as two's complement. */
  function ToInt(x: Int64): (r: Int32)
    ensures (x - r) % TWO_32 == 0
    ensures -0x8000_0000 <= x < 0x8000_0000 ==> r == x
  {
    var low := x % TWO_32;
    if low < 0x8000_0000 then low else low - TWO_32
  }

  /** Java's `a / b` on `int` for a positive divisor: the quotient rounded toward zero. */
  function Quot(a: Int32, b: Int32): (q: Int32)
    requires b > 0
    ensures 0 <= a ==> 0 <= q && q * b <= a < q * b + b
    ensures a < 0 ==> q <= 0 && q * b - b < a <= q * b
  {
    var n: int := if a >= 0 then a else -(a as int);
    DivisionBounds(n, b);
    if a >= 0 then n / b else -(n / b)
  }

  /** Division of a non-negative number by a positive one leaves a remainder below the divisor. */
  lemma DivisionBounds(n: int, b: int)
    requires 0 <= n && 0 < b
    ensures 0 <= n / b <= n
    ensures (n / b) * b <= n < (n / b) * b + b
  {
    var q, r := n / b, n % b;
    assert n == q * b + r && 0 <= r < b;
    assert 0 <= q;
    assert q <= q * b by {
      assert q * b == q * (b - 1) + q;
      assert q * (b - 1) >= 0;
    }
  }

  /**
    The seconds that a duration setter stores for a duration of `millis`
    milliseconds: `(int) millis / 1000`. The cast binds tighter than the
    division, so the millisecond count is first cut to 32 bits and the
    division then rounds toward zero.
   */
  function MillisToSeconds(millis: Int64): (r: Int32)
    ensures -0x8000_0000 <= millis < 0x8000_0000 ==> r == Quot(millis, 1000)
    ensures 0 <= millis < 0x8000_0000 ==> r == millis / 1000
    ensures -2147483 <= r <= 2147483
  {
    Quot(ToInt(millis), 1000)
  }

  /** A whole number of seconds below 2^31 milliseconds comes back unchanged: 60 s gives 60. */
  lemma MillisToSecondsOfWholeSeconds(seconds: int)
    requires 0 <= seconds && seconds * 1000 < 0x8000_0000
    ensures MillisToSeconds(seconds * 1000) == seconds
  {
  }

  /**
    A negative duration rounds toward zero, not down: -1.5 s gives -1, where
    floor (or Euclidean) division of -1500 by 1000 gives -2.
   */
  lemma MillisToSecondsRoundsTowardZero()
    ensures MillisToSeconds(-1500) == -1
  {
  }

  /**
    Because the cast comes before the division, a duration of 2^31 ms (about
    24.8 days) or more wraps: 25 days (2,160,000,000 ms) gives -2,134,967
    seconds instead of the 2,160,000 that dividing the full count would give.
   */
  lemma MillisToSecondsWrapsBeyond2To31()
    ensures MillisToSeconds(2_160_000_000) == -2_134_967
  {
  }
}
