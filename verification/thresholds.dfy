/**
 * The dashboard's small decision functions: the colour of a variance
 * against target, the variance badge, the confidence band of a prediction
 * interval, and the delta badge against a baseline. Colours are the three
 * tones the palette gives them (blue, muted, orange); the hex strings and
 * the HTML around them are not modelled.
 */
module Thresholds {
  import opened Reals

  /** The palette entries these functions choose between. */
  datatype Tone = Blue | Muted | Orange

  /** The variance of `actual` against a non-zero `target`, in percent of the target's size. */
  function VariancePct(actual: real, target: real): real
    requires target != 0.0
  {
    (actual - target) / Abs(target) * 100.0
  }

  /** The tone for a variance percentage when higher is better. */
  function HigherTone(v: real): (t: Tone)
    ensures t == Blue <==> v >= 5.0
    ensures t == Muted <==> -5.0 <= v < 5.0
    ensures t == Orange <==> v < -5.0
  {
    if v >= 5.0 then Blue else if v >= -5.0 then Muted else Orange
  }

  /** The tone for a variance percentage when lower is better. */
  function LowerTone(v: real): (t: Tone)
    ensures t == Blue <==> v <= -5.0
    ensures t == Muted <==> -5.0 < v <= 5.0
    ensures t == Orange <==> v > 5.0
  {
    if v <= -5.0 then Blue else if v <= 5.0 then Muted else Orange
  }

  /**
   * `get_variance_color(actual, target, direction='higher')`: muted for a zero
   * target or an unknown direction, otherwise banded at plus and minus 5%.
   */
  function VarianceColor(actual: real, target: real, direction: string := "higher"): (t: Tone)
    ensures target == 0.0 ==> t == Muted
    ensures direction != "higher" && direction != "lower" ==> t == Muted
    ensures target != 0.0 && direction == "higher" ==> t == HigherTone(VariancePct(actual, target))
    ensures target != 0.0 && direction == "lower" ==> t == LowerTone(VariancePct(actual, target))
  {
    if target == 0.0 then Muted
    else
      var v := VariancePct(actual, target);
      if direction == "higher" then HigherTone(v)
      else if direction == "lower" then LowerTone(v)
      else Muted
  }

  /** Lower-is-better is the mirror image of higher-is-better: the tone at `v` is the higher tone at `-v`. */
  lemma LowerMirrorsHigher(v: real)
    ensures LowerTone(v) == HigherTone(-v)
  {
  }

  /** Rank of a tone from worst to best. */
  function Rank(t: Tone): nat
  {
    match t
    case Orange => 0
    case Muted => 1
    case Blue => 2
  }

  /**
   * For a fixed target, raising `actual` never worsens the higher-is-better
   * tone and never improves the lower-is-better one.
   */
  lemma VarianceColorMonotone(a1: real, a2: real, target: real)
    requires target != 0.0 && a1 <= a2
    ensures Rank(VarianceColor(a1, target, "higher")) <= Rank(VarianceColor(a2, target, "higher"))
    ensures Rank(VarianceColor(a1, target, "lower")) >= Rank(VarianceColor(a2, target, "lower"))
  {
    var p := Abs(target);
    assert (a1 - target) / p <= (a2 - target) / p by {
      DivMonotone(a1 - target, a2 - target, p);
    }
  }

  lemma DivMonotone(x: real, y: real, p: real)
    requires p > 0.0 && x <= y
    ensures x / p <= y / p
  {
    assert y / p - x / p == (y - x) / p;
  }

  /** The arrow of the variance badge. */
  datatype Arrow = Up | Down | Level

  /** The variance badge: an arrow, a tone and the size of the variance in percent. */
  datatype Badge = NoBadge | Badge(arrow: Arrow, tone: Tone, magnitudePct: real)

  /**
   * `format_variance(actual, target, direction='higher')`: no badge for a zero
   * target; otherwise the arrow follows the sign of `actual - target`, the
   * tone is the variance colour, and the figure is the variance's size.
   */
  function FormatVariance(actual: real, target: real, direction: string := "higher"): (b: Badge)
    ensures b == NoBadge <==> target == 0.0
    ensures b.Badge? ==> (b.arrow == Up <==> actual > target)
    ensures b.Badge? ==> (b.arrow == Down <==> actual < target)
    ensures b.Badge? ==> b.tone == VarianceColor(actual, target, direction)
    ensures b.Badge? ==> b.magnitudePct == Abs(VariancePct(actual, target))
  {
    if target == 0.0 then NoBadge
    else
      var variance := actual - target;
      var arrow := if variance > 0.0 then Up else if variance < 0.0 then Down else Level;
      Badge(arrow, VarianceColor(actual, target, direction), Abs(variance / Abs(target) * 100.0))
  }

  /**
   * The badge's arrow and tone agree: under higher-is-better a blue badge
   * points up and an orange one down; under lower-is-better the other way round.
   */
  lemma BadgeArrowAgreesWithTone(actual: real, target: real)
    requires target != 0.0
    ensures FormatVariance(actual, target, "higher").tone == Blue ==> FormatVariance(actual, target, "higher").arrow == Up
    ensures FormatVariance(actual, target, "higher").tone == Orange ==> FormatVariance(actual, target, "higher").arrow == Down
    ensures FormatVariance(actual, target, "lower").tone == Blue ==> FormatVariance(actual, target, "lower").arrow == Down
    ensures FormatVariance(actual, target, "lower").tone == Orange ==> FormatVariance(actual, target, "lower").arrow == Up
  {
    var p := Abs(target);
    var d := actual - target;
    if d > 0.0 {
      assert d / p > 0.0;
    } else if d < 0.0 {
      assert d / p < 0.0;
    } else {
      assert d / p == 0.0;
    }
  }

  /** The confidence label of a prediction interval. */
  datatype Confidence = High | Medium | Wide

  /** What `render_confidence_metric` decides: label, tone and the bar's width in percent. */
  datatype Band = Band(confidence: Confidence, tone: Tone, widthPct: real)

  /** The width of the interval in percent of the point value; zero for a zero value. */
  function RangePct(value: real, lower: real, upper: real): (r: real)
    ensures r >= 0.0
    ensures value == 0.0 ==> r == 0.0
  {
    if value == 0.0 then 0.0 else Abs((upper - lower) / value * 100.0)
  }

  /**
   * The banding of `render_confidence_metric`: under 10% is high confidence
   * (blue), under 25% medium (muted), anything wider orange; the bar is
   * twice the range, held between 10% and 100%.
   */
  function ConfidenceBand(value: real, lower: real, upper: real): (b: Band)
    ensures var r := RangePct(value, lower, upper);
            && (b.confidence == High <==> r < 10.0)
            && (b.confidence == Medium <==> 10.0 <= r < 25.0)
            && (b.confidence == Wide <==> r >= 25.0)
    ensures b.tone == (match b.confidence case High => Blue case Medium => Muted case Wide => Orange)
    ensures 10.0 <= b.widthPct <= 100.0
    ensures var r := RangePct(value, lower, upper); r < 5.0 ==> b.widthPct == 10.0
    ensures var r := RangePct(value, lower, upper); 5.0 <= r <= 50.0 ==> b.widthPct == 2.0 * r
    ensures var r := RangePct(value, lower, upper); r > 50.0 ==> b.widthPct == 100.0
  {
    var r := RangePct(value, lower, upper);
    var width := Min(100.0, Max(10.0, r * 2.0));
    if r < 10.0 then Band(High, Blue, width)
    else if r < 25.0 then Band(Medium, Muted, width)
    else Band(Wide, Orange, width)
  }

  /** A point value of zero always reads as high confidence, whatever the interval. */
  lemma ZeroValueIsHighConfidence(lower: real, upper: real)
    ensures ConfidenceBand(0.0, lower, upper).confidence == High
    ensures ConfidenceBand(0.0, lower, upper).widthPct == 10.0
  {
  }

  /** Rank of a confidence label from narrowest to widest. */
  function Spread(c: Confidence): nat
  {
    match c
    case High => 0
    case Medium => 1
    case Wide => 2
  }

  /** For the same point value, a wider interval never reads as more confident, and its bar is never shorter. */
  lemma WiderIntervalIsNoMoreConfident(value: real, lower: real, upper1: real, upper2: real)
    requires value != 0.0 && lower <= upper1 <= upper2
    ensures Spread(ConfidenceBand(value, lower, upper1).confidence) <= Spread(ConfidenceBand(value, lower, upper2).confidence)
    ensures ConfidenceBand(value, lower, upper1).widthPct <= ConfidenceBand(value, lower, upper2).widthPct
  {
    var r1 := RangePct(value, lower, upper1);
    var r2 := RangePct(value, lower, upper2);
    var a := Abs(value);
    assert r1 == (upper1 - lower) / a * 100.0 by { AbsQuotient(upper1 - lower, value); }
    assert r2 == (upper2 - lower) / a * 100.0 by { AbsQuotient(upper2 - lower, value); }
    DivMonotone(upper1 - lower, upper2 - lower, a);
  }

  /** For a non-negative numerator, the size of `d / v * 100` is `d / |v| * 100`. */
  lemma AbsQuotient(d: real, v: real)
    requires d >= 0.0 && v != 0.0
    ensures Abs(d / v * 100.0) == d / Abs(v) * 100.0
  {
    if v < 0.0 {
      assert d / v == -(d / -v);
    }
  }

  /** The sign shown before the delta badge's figures. */
  datatype Sign = Plus | Unsigned

  /** What `render_delta_badge` decides: tone, sign, delta and delta in percent of the baseline. */
  datatype DeltaBadge = DeltaBadge(tone: Tone, sign: Sign, delta: real, deltaPct: real)

  /**
   * `render_delta_badge(current, baseline, invert=False)`: the change from the
   * baseline is good (blue) when it is a rise, or a fall when `invert`;
   * otherwise orange. Only a rise is prefixed with "+". The percentage is
   * zero against a zero baseline.
   */
  function RenderDeltaBadge(current: real, baseline: real, invert: bool := false): (b: DeltaBadge)
    ensures b.delta == current - baseline
    ensures b.tone == Blue <==> (if invert then current < baseline else current > baseline)
    ensures b.tone == Blue || b.tone == Orange
    ensures b.sign == Plus <==> current > baseline
    ensures baseline == 0.0 ==> b.deltaPct == 0.0
    ensures baseline != 0.0 ==> b.deltaPct * baseline == b.delta * 100.0
  {
    var delta := current - baseline;
    var pct := if baseline != 0.0 then delta / baseline * 100.0 else 0.0;
    var positive := if !invert then delta > 0.0 else delta < 0.0;
    DeltaBadge(if positive then Blue else Orange, if delta > 0.0 then Plus else Unsigned, delta, pct)
  }

  /**
   * Inverting swaps the tone of any actual change, while no change is
   * orange either way; the sign and the figures do not depend on `invert`.
   */
  lemma InvertFlipsTone(current: real, baseline: real)
    ensures current != baseline ==>
              RenderDeltaBadge(current, baseline, true).tone != RenderDeltaBadge(current, baseline, false).tone
    ensures current == baseline ==>
              RenderDeltaBadge(current, baseline, true).tone == Orange && RenderDeltaBadge(current, baseline, false).tone == Orange
    ensures RenderDeltaBadge(current, baseline, true).sign == RenderDeltaBadge(current, baseline, false).sign
    ensures RenderDeltaBadge(current, baseline, true).deltaPct == RenderDeltaBadge(current, baseline, false).deltaPct
  {
  }
}
