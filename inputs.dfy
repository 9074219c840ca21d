/**
 * Reading numbers out of the quote form's fields.
 *
 * A field's text goes through `parseFloat`; its outcome is an `Option<real>`,
 * `None` standing for NaN (an empty or unparsable field). Floating point is
 * not modelled: every parsed number is a `real`.
 */
module Inputs {

  /** The outcome of parsing a field: `None` when it holds no number. */
  datatype Option<+T> = None | Some(value: T)

  /**
   * `Math.max(0, parseFloat(field) || 0)`, the reading every hour, rate,
   * material and travel field goes through: unparsable input and negative
   * numbers become 0, anything else is kept as typed.
   */
  function NonNeg(field: Option<real>): (r: real)
    ensures 0.0 <= r
    ensures field.Some? && 0.0 <= field.value ==> r == field.value
    ensures r != 0.0 ==> field == Some(r)
  {
    match field
    case None => 0.0
    case Some(v) => if v < 0.0 then 0.0 else v
  }

  /**
   * The percentage a percent field stands for: unparsable input counts as 0,
   * and the number is clamped to [0, 100].
   */
  function ClampPercent(field: Option<real>): (r: real)
    ensures 0.0 <= r <= 100.0
    ensures field.Some? && 0.0 <= field.value <= 100.0 ==> r == field.value
    ensures field.Some? && 100.0 < field.value ==> r == 100.0
    ensures field.None? || field.value < 0.0 ==> r == 0.0
  {
    match field
    case None => 0.0
    case Some(v) => if v < 0.0 then 0.0 else if v > 100.0 then 100.0 else v
  }

  /**
   * `Math.round(v * 10) / 10`: the number to one decimal, a half rounded up.
   * The result is a whole number of tenths within half a tenth of `v`.
   */
  function Round1(v: real): (r: real)
    ensures (r * 10.0).Floor as real == r * 10.0
    ensures v - 0.05 < r <= v + 0.05
  {
    ((v * 10.0 + 0.5).Floor as real) / 10.0
  }

  /** A number that is a whole number of tenths is kept by the rounding. */
  lemma Round1Tenths(v: real)
    requires (v * 10.0).Floor as real == v * 10.0
    ensures Round1(v) == v
  {
    var n := (v * 10.0).Floor;
    assert v * 10.0 + 0.5 == n as real + 0.5;
    assert (v * 10.0 + 0.5).Floor == n;
  }

  /** Rounding a percentage in [0, 100] keeps it in [0, 100]. */
  lemma Round1Percent(v: real)
    requires 0.0 <= v <= 100.0
    ensures 0.0 <= Round1(v) <= 100.0
  {
    var n := (v * 10.0 + 0.5).Floor;
    assert n <= 1000 by {
      assert v * 10.0 + 0.5 < 1001.0;
    }
  }

  /**
   * Reads a percent field and writes the clamped percentage back into it,
   * rounded to one decimal. Returns the fraction used for pricing, which is
   * the unrounded clamped percentage over 100, and the percentage `shown` in
   * the field afterwards.
   */
  method ClampPctInput(field: Option<real>) returns (fraction: real, shown: real)
    ensures 0.0 <= fraction <= 1.0
    ensures fraction == ClampPercent(field) / 100.0
    ensures shown == Round1(ClampPercent(field)) && 0.0 <= shown <= 100.0
  {
    var v: real;
    if field.None? {
      v := 0.0;
    } else {
      v := field.value;
    }
    var capped := if v < 100.0 then v else 100.0;
    v := if capped < 0.0 then 0.0 else capped;
    Round1Percent(v);
    shown := Round1(v);
    fraction := v / 100.0;
  }

  /** Re-reading a field that already holds a sanitised number gives that number back. */
  lemma NonNegIdempotent(field: Option<real>)
    ensures NonNeg(Some(NonNeg(field))) == NonNeg(field)
  {
  }

  /**
   * The percentage written back into a percent field reads back as itself,
   * whether clamped again or only floored at 0, and rounding it again
   * changes nothing.
   */
  lemma WrittenPercentStable(field: Option<real>)
    ensures var shown := Round1(ClampPercent(field));
            && ClampPercent(Some(shown)) == shown && NonNeg(Some(shown)) == shown && Round1(shown) == shown
  {
    var shown := Round1(ClampPercent(field));
    Round1Percent(ClampPercent(field));
    Round1Tenths(shown);
  }
}
