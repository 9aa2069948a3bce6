/**
 * The progress figure several views show: `part / whole * 100` when the
 * whole is positive, otherwise 0, and the bar width `Math.min(p, 100)`.
 */
module Progress {

  /** The percentage of `whole` that `part` makes up, 0 for a whole that is not positive. */
  function Percentage(part: real, whole: real): (p: real)
    ensures whole > 0.0 ==> p * whole == part * 100.0
    ensures whole <= 0.0 ==> p == 0.0
  {
    if whole > 0.0 then part / whole * 100.0 else 0.0
  }

  /** With a positive whole, the percentage is below a threshold `t` exactly when the part is below `t / 100` of the whole. */
  lemma PercentageThreshold(part: real, whole: real, t: real)
    requires whole > 0.0
    ensures Percentage(part, whole) < t <==> part * 100.0 < t * whole
  {
    var p := Percentage(part, whole);
    if p < t {
      assert p * whole < t * whole;
    } else {
      assert p * whole >= t * whole;
    }
  }

  /** With a positive whole the percentage is below, at or over 100 exactly when the part is below, at or over the whole, and it is not negative exactly when the part is not. */
  lemma PercentageComparesPartToWhole(part: real, whole: real)
    requires whole > 0.0
    ensures Percentage(part, whole) < 100.0 <==> part < whole
    ensures Percentage(part, whole) == 100.0 <==> part == whole
    ensures Percentage(part, whole) >= 0.0 <==> part >= 0.0
  {
    PercentageThreshold(part, whole, 100.0);
    PercentageThreshold(part, whole, 0.0);
    var p := Percentage(part, whole);
    if p == 100.0 {
      assert part * 100.0 == 100.0 * whole;
    }
    if part == whole {
      assert p * whole == 100.0 * whole;
    }
  }

  /** `Math.min(p, 100)`: the bar is full at 100 and never wider. */
  function BarWidth(p: real): (w: real)
    ensures w <= 100.0 && w <= p
    ensures w == p || w == 100.0
  {
    if p < 100.0 then p else 100.0
  }
}
