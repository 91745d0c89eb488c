/**
 * Exact-real models of the JavaScript arithmetic the calculator uses:
 * Math.abs, Math.min, the Math.max/Math.min clamp, Math.round, and the
 * "round to two decimals" idiom Math.round(x * 100) / 100.
 */
module Numeric {

  function Abs(x: real): (r: real)
    ensures r >= 0.0
    ensures r == x || r == -x
  {
    if x < 0.0 then -x else x
  }

  function Min(a: real, b: real): (r: real)
    ensures r <= a && r <= b
    ensures r == a || r == b
  {
    if a <= b then a else b
  }

  /** Math.max(lo, Math.min(hi, x)): x pulled into [lo, hi]. */
  function Clamp(lo: real, hi: real, x: real): (r: real)
    requires lo <= hi
    ensures lo <= r <= hi
    ensures lo <= x <= hi ==> r == x
    ensures x < lo ==> r == lo
    ensures hi < x ==> r == hi
  {
    var capped := if hi < x then hi else x;
    if capped < lo then lo else capped
  }

  /** Math.round: the integer nearest to x, a half rounded up (towards +infinity). */
  function Round(x: real): (r: int)
    ensures x - 0.5 < r as real <= x + 0.5
  {
    (x + 0.5).Floor
  }

  /**
   * Math.round(x * 100) / 100: x to two decimal places, that is, the whole
   * number of hundredths within half a hundredth of x.
   */
  function RoundTo2(x: real): (r: real)
    ensures x - 0.005 < r <= x + 0.005
    ensures (r * 100.0).Floor as real == r * 100.0
  {
    Round(x * 100.0) as real / 100.0
  }

  lemma RoundMonotone(x: real, y: real)
    requires x <= y
    ensures Round(x) <= Round(y)
  {
  }

  lemma RoundOfInteger(n: int)
    ensures Round(n as real) == n
  {
  }

  /** Rounding a doubled value differs from doubling the rounded value by at most one. */
  lemma RoundDouble(x: real)
    ensures -1 <= Round(2.0 * x) - 2 * Round(x) <= 1
  {
  }

  /** Rounding to cents keeps a value inside any interval whose ends are whole cents. */
  lemma RoundTo2Within(lo: int, hi: int, x: real)
    requires lo as real / 100.0 <= x <= hi as real / 100.0
    ensures lo as real / 100.0 <= RoundTo2(x) <= hi as real / 100.0
  {
    RoundMonotone(lo as real, x * 100.0);
    RoundMonotone(x * 100.0, hi as real);
    RoundOfInteger(lo);
    RoundOfInteger(hi);
  }

  lemma ProductNonNegative(a: real, b: real)
    requires a >= 0.0 && b >= 0.0
    ensures a * b >= 0.0
  {
  }

  /**
   * Rounding p * f, for p >= 0, is bracketed by rounding p times the ends of
   * f's range, and is never negative when f's range is.
   */
  lemma RoundProductBetween(p: real, f: real, lo: real, hi: real)
    requires p >= 0.0 && lo <= f <= hi
    ensures Round(p * lo) <= Round(p * f) <= Round(p * hi)
    ensures lo >= 0.0 ==> Round(p * f) >= 0
  {
    assert p * lo <= p * f <= p * hi;
    RoundMonotone(p * lo, p * f);
    RoundMonotone(p * f, p * hi);
    if lo >= 0.0 {
      RoundMonotone(0.0, p * lo);
      RoundOfInteger(0);
    }
  }

  /** c * x * f, for non-negative c and f, is monotone in x. */
  lemma ScaleMonotone(c: real, f: real, x: real, y: real)
    requires c >= 0.0 && f >= 0.0 && x <= y
    ensures c * x * f <= c * y * f
  {
    ProductNonNegative(c, f);
    assert c * x * f == (c * f) * x && c * y * f == (c * f) * y;
  }
}
