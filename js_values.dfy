/**
 * The few pieces of JavaScript value semantics that the app's arithmetic
 * relies on: `T | null`, numbers that may be NaN, `Number(x) || 0`,
 * `Math.round`, `Math.max` and `Math.min`.
 */
module JsValues {

  /** `T | null` (and an absent optional value). */
  datatype Option<+T> = None | Some(value: T)

  /**
   * A JavaScript number as the app meets it in AI payloads and edit fields:
   * a finite value, or NaN (what `Number()` yields for text that is not
   * numeric, or for a missing field). Infinities are not modelled.
   */
  datatype Number = Num(value: real) | NaN

  /** `Number(x) || 0`: NaN counts as 0. */
  function OrZero(n: Number): (r: real)
    ensures n.Num? ==> r == n.value
    ensures r == 0.0 <==> n.NaN? || n.value == 0.0
  {
    match n
    case Num(v) => v
    case NaN => 0.0
  }

  /**
   * `Math.round`: the integer nearest to `x`, a half rounded towards
   * positive infinity (so `Round(-2.5) == -2`).
   */
  function Round(x: real): (r: int)
    ensures r as real - 0.5 <= x < r as real + 0.5
  {
    (x + 0.5).Floor
  }

  /** `Math.max` on integers. */
  function MaxInt(a: int, b: int): int
  {
    if a >= b then a else b
  }

  /** `Math.max` on finite numbers. */
  function MaxReal(a: real, b: real): real
  {
    if a >= b then a else b
  }

  /** `Math.min` on finite numbers. */
  function MinReal(a: real, b: real): real
  {
    if a <= b then a else b
  }

  /** Rounding preserves order. */
  lemma RoundMonotone(x: real, y: real)
    requires x <= y
    ensures Round(x) <= Round(y)
  {
  }

  /** `(x / t) * 100`: x as a percentage of t. */
  function Percent(x: real, t: real): (p: real)
    requires t != 0.0
    ensures t > 0.0 ==> (p > 100.0 <==> x > t) && (p == 100.0 <==> x == t) && (x >= 0.0 ==> p >= 0.0)
  {
    if t > 0.0 then PercentOfTarget(x, t); x / t * 100.0
    else x / t * 100.0
  }

  /** A share of a positive target, in percent, compares with 100 as the amount compares with the target. */
  lemma PercentOfTarget(x: real, t: real)
    requires t > 0.0
    ensures x / t * 100.0 > 100.0 <==> x > t
    ensures x / t * 100.0 == 100.0 <==> x == t
    ensures x >= 0.0 ==> x / t * 100.0 >= 0.0
  {
    var q := x / t;
    assert q * t == x;
    if q > 1.0 {
      MulGrows(q - 1.0, t);
      assert (q - 1.0) * t == x - t;
    } else if q < 1.0 {
      MulGrows(1.0 - q, t);
      assert (1.0 - q) * t == t - x;
    }
  }

  /** A product of two positive numbers is positive. */
  lemma MulGrows(a: real, b: real)
    requires a > 0.0 && b > 0.0
    ensures a * b > 0.0
  {
  }

}
