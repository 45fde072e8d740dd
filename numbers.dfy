/**
 * The integer arithmetic of C# the rules engine uses: Math.Min and Math.Max,
 * the int.MinValue / int.MaxValue sentinels, division that truncates toward
 * zero, and the `(int)(x * 1.05)`-style scaling of the level-up and synergy
 * bonuses.
 */
module Numbers {

  const MinInt: int := -2147483648
  const MaxInt: int := 2147483647

  function Min(a: int, b: int): (m: int)
    ensures m <= a && m <= b && (m == a || m == b)
  {
    if a <= b then a else b
  }

  function Max(a: int, b: int): (m: int)
    ensures m >= a && m >= b && (m == a || m == b)
  {
    if a >= b then a else b
  }

  /** C# integer division by a positive divisor: the quotient is rounded toward zero. */
  function TruncDiv(a: int, b: int): (q: int)
    requires b > 0
    ensures a >= 0 ==> q == a / b
    ensures (a >= 0 ==> q >= 0) && (a <= 0 ==> q <= 0)
  {
    if a >= 0 then a / b else -((-a) / b)
  }

  /**
   * `(int)(a * p / 100.0)` with the percentage p written as a double literal
   * (1.05, 1.03, 1.02): the product truncated toward zero. For |a| < 2^31 the
   * rounding error of the double product is far smaller than the distance
   * from a*p/100 to the next integer, so the exact rational is used.
   */
  function ScalePercent(a: int, p: int): (r: int)
    requires p > 0
  {
    TruncDiv(a * p, 100)
  }
}
