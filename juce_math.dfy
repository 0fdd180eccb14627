/**
 * The JUCE numeric helpers the engines call: jlimit on reals and on
 * integers, roundToInt, and the int cast that truncates toward zero.
 */
module JuceMath {

  /** jlimit(lower, upper, v): v pushed into [lower, upper]. */
  function Limit(lower: real, upper: real, v: real): (r: real)
    requires lower <= upper
    ensures lower <= r <= upper
    ensures lower <= v <= upper ==> r == v
    ensures v < lower ==> r == lower
    ensures v > upper ==> r == upper
  {
    if v < lower then lower else if upper < v then upper else v
  }

  /**
   * jlimit on integers. JUCE only asserts `lower <= upper` in debug builds;
   * with the bounds crossed the same expression still yields a value.
   */
  function LimitInt(lower: int, upper: int, v: int): (r: int)
    ensures lower <= upper ==> lower <= r <= upper
    ensures lower <= v <= upper ==> r == v
    ensures v < lower ==> r == lower
    ensures lower <= v && v > upper ==> r == upper
  {
    if v < lower then lower else if upper < v then upper else v
  }

  /**
   * roundToInt: the nearest integer, ties to even (JUCE adds a magic
   * constant and lets the default floating-point rounding mode decide).
   */
  function RoundToInt(x: real): (r: int)
    ensures x - 0.5 <= r as real <= x + 0.5
  {
    var f := x.Floor;
    var d := x - f as real;
    if d < 0.5 then f
    else if d > 0.5 then f + 1
    else if f % 2 == 0 then f else f + 1
  }

  /** static_cast<int> of a real: truncation toward zero. */
  function TruncToInt(x: real): (r: int)
    ensures x >= 0.0 ==> r == x.Floor
    ensures x < 0.0 ==> r == -((-x).Floor)
    ensures -1.0 < x - r as real < 1.0
  {
    if x >= 0.0 then x.Floor else -((-x).Floor)
  }

  /** C++ `%` on ints: the remainder takes the sign of the dividend. */
  function CRem(a: int, b: int): (r: int)
    requires b > 0
    ensures a >= 0 ==> 0 <= r < b && r == a % b
    ensures a < 0 ==> -b < r <= 0
  {
    if a >= 0 then a % b else -((-a) % b)
  }
}
