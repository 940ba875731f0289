/** Winner determination and progress arithmetic of the A/B tests
    (apps/web/src/app/modules/campaigns/ab-tests/utils/abtest-calculations.ts). The z-score of two
    proportions involves a square root and is a parameter: `zScore(v1, v2, metric)` stands for
    `calculateZScore` applied to the proportions and sample sizes that `metric` selects. */
module AbTestCalculations {
  import opened Wrappers
  import opened Strings
  import opened JsNumber
  import opened AbTestTypes

  function Abs(x: real): real { if x < 0.0 then -x else x }

  /** `zScoreToConfidence` */
  function ZScoreToConfidence(z: real): (c: real)
    ensures 50.0 <= c <= 99.0
  {
    var absZ := Abs(z);
    if absZ >= 2.58 then 99.0
    else if absZ >= 1.96 then 95.0
    else if absZ >= 1.65 then 90.0
    else if absZ >= 1.28 then 80.0
    else if 50.0 + absZ * 15.0 < 75.0 then 50.0 + absZ * 15.0 else 75.0
  }

  /** The confidence depends only on |z| and never decreases as |z| grows. */
  lemma {:induction false} ConfidenceMonotone(z1: real, z2: real)
    ensures ZScoreToConfidence(z1) == ZScoreToConfidence(-z1)
    ensures Abs(z1) <= Abs(z2) ==> ZScoreToConfidence(z1) <= ZScoreToConfidence(z2)
  {
  }

  type ZScore = (VariantMetrics, VariantMetrics, string) -> real

  datatype Significance = Significance(significant: bool, confidence: real, zScore: real)

  predicate Testable(metric: string) { metric == "ctr" || metric == "conversions" || metric == "engagement" }

  /** `calculateSignificance(variant1, variant2, metric)` */
  function CalculateSignificance(v1: VariantMetrics, v2: VariantMetrics, metric: string, zScore: ZScore)
    : (r: Significance)
    ensures r.significant <==> Testable(metric) && Abs(zScore(v1, v2, metric)) >= 1.96
    ensures !Testable(metric) ==> r == Significance(false, 0.0, 0.0)
    ensures Testable(metric) ==> r.confidence == ZScoreToConfidence(r.zScore) && r.zScore == zScore(v1, v2, metric)
    ensures r.significant ==> r.confidence == 95.0 || r.confidence == 99.0
  {
    if !Testable(metric) then Significance(false, 0.0, 0.0)
    else
      var z := zScore(v1, v2, metric);
      Significance(Abs(z) >= 1.96, ZScoreToConfidence(z), z)
  }

  /** `getMetricValue`: larger is better, so a cost is negated; a missing optional metric is 0. */
  function MetricValue(m: VariantMetrics, metric: string): real {
    if metric == "ctr" then m.ctr
    else if metric == "conversions" then m.conversionRate
    else if metric == "cpa" then -m.cpa.GetOr(0.0)
    else if metric == "ltv" then m.ltv.GetOr(0.0)
    else if metric == "engagement" then m.engagement.GetOr(0.0)
    else 0.0
  }

  /** A lower cost per acquisition ranks higher; an unknown metric ranks every variant equal. */
  lemma {:induction false} MetricValueOrder(a: VariantMetrics, b: VariantMetrics, metric: string)
    ensures MetricValue(a, "cpa") > MetricValue(b, "cpa") <==> a.cpa.GetOr(0.0) < b.cpa.GetOr(0.0)
    ensures a.ltv.None? ==> MetricValue(a, "ltv") == 0.0
    ensures a.engagement.None? ==> MetricValue(a, "engagement") == 0.0
    ensures metric !in {"ctr", "conversions", "cpa", "ltv", "engagement"} ==> MetricValue(a, metric) == MetricValue(b, metric)
  {
  }

  /** The index the winner loop stops at: the first variant with the strictly greatest value. */
  function BestIndex(ms: seq<VariantMetrics>, metric: string): (b: nat)
    requires |ms| >= 1
    ensures b < |ms|
    decreases |ms|
  {
    if |ms| == 1 then 0
    else
      var b := BestIndex(ms[..|ms| - 1], metric);
      if MetricValue(ms[|ms| - 1], metric) > MetricValue(ms[b], metric) then |ms| - 1 else b
  }

  /** No variant has a greater value than the best one, and every earlier variant a smaller one. */
  lemma {:induction false} BestIndexIsFirstMaximum(ms: seq<VariantMetrics>, metric: string)
    requires |ms| >= 1
    ensures forall i :: 0 <= i < |ms| ==> MetricValue(ms[i], metric) <= MetricValue(ms[BestIndex(ms, metric)], metric)
    ensures forall i :: 0 <= i < BestIndex(ms, metric) ==> MetricValue(ms[i], metric) < MetricValue(ms[BestIndex(ms, metric)], metric)
    decreases |ms|
  {
    if |ms| > 1 {
      var n := |ms| - 1;
      BestIndexIsFirstMaximum(ms[..n], metric);
      assert forall i :: 0 <= i < n ==> ms[..n][i] == ms[i];
    }
  }

  datatype WinnerAnalysis = WinnerAnalysis(
    winnerId: string, confidence: real, improvement: Num, significant: bool, reason: string)

  /** `${confidence}`: the confidence of a significant result is 95 or 99. */
  function ConfidenceText(c: real): string { IntToString(c.Floor) }

  /** `((bestValue - controlValue) / controlValue) * 100` */
  function Improvement(bestValue: real, controlValue: real): (r: Num)
    ensures controlValue > 0.0 && bestValue > controlValue ==> r.Fin? && r.v > 0.0
    ensures controlValue == 0.0 && bestValue > controlValue ==> r.PosInf?
  {
    Scale(Div(bestValue - controlValue, controlValue), 100.0)
  }

  function Reason(improvement: Num, metric: string, confidence: real): string {
    Fixed(improvement, 1) + "% improvement in " + metric + " with " + ConfidenceText(confidence) + "% confidence"
  }

  /** What `determineWinner(metrics, targetMetric, minConfidence)` returns. */
  function Winner(ms: seq<VariantMetrics>, metric: string, minConfidence: real, zScore: ZScore)
    : (r: Option<WinnerAnalysis>)
    ensures |ms| < 2 ==> r.None?
    ensures !Testable(metric) ==> r.None?
    ensures r.Some? ==>
      r.value.winnerId == ms[BestIndex(ms, metric)].variantId && r.value.winnerId != ms[0].variantId
      && r.value.significant && r.value.confidence >= minConfidence
    ensures r.Some? ==>
      r.value.improvement == Improvement(MetricValue(ms[BestIndex(ms, metric)], metric), MetricValue(ms[0], metric))
  {
    if |ms| < 2 then None
    else
      var best := ms[BestIndex(ms, metric)];
      var control := ms[0];
      if best.variantId == control.variantId then None
      else
        var sig := CalculateSignificance(best, control, metric, zScore);
        if !sig.significant || sig.confidence < minConfidence then None
        else
          var improvement := Improvement(MetricValue(best, metric), MetricValue(control, metric));
          Some(WinnerAnalysis(best.variantId, sig.confidence, improvement, true,
            Reason(improvement, metric, sig.confidence)))
  }

  /** A declared winner beats the control strictly, so against a positive control value the
      improvement is a positive finite percentage. */
  lemma {:induction false} WinnerBeatsControl(ms: seq<VariantMetrics>, metric: string, minConfidence: real, zScore: ZScore)
    requires Winner(ms, metric, minConfidence, zScore).Some?
    ensures MetricValue(ms[BestIndex(ms, metric)], metric) > MetricValue(ms[0], metric)
    ensures MetricValue(ms[0], metric) > 0.0 ==>
      var imp := Winner(ms, metric, minConfidence, zScore).value.improvement;
      imp.Fin? && imp.v > 0.0
  {
    var w := Winner(ms, metric, minConfidence, zScore).value;
    assert BestIndex(ms, metric) != 0 by {
      assert w.winnerId == ms[BestIndex(ms, metric)].variantId && w.winnerId != ms[0].variantId;
    }
    BestIndexIsFirstMaximum(ms, metric);
  }

  /** `determineWinner`: one pass over the metrics keeping the best so far. */
  method DetermineWinner(ms: seq<VariantMetrics>, metric: string, minConfidence: real, zScore: ZScore)
    returns (r: Option<WinnerAnalysis>)
    ensures r == Winner(ms, metric, minConfidence, zScore)
  {
    if |ms| < 2 {
      return None;
    }
    var best := 0;
    var bestValue := MetricValue(ms[0], metric);
    var k := 0;
    while k < |ms|
      invariant 0 <= k <= |ms| && best < |ms|
      invariant bestValue == MetricValue(ms[best], metric)
      invariant k == 0 ==> best == 0
      invariant k >= 1 ==> best == BestIndex(ms[..k], metric)
    {
      assert ms[..k + 1][..k] == ms[..k];
      var value := MetricValue(ms[k], metric);
      if value > bestValue {
        bestValue := value;
        best := k;
      }
      k := k + 1;
    }
    assert ms[..k] == ms;
    var control := ms[0];
    if ms[best].variantId == control.variantId {
      return None;
    }
    var sig := CalculateSignificance(ms[best], control, metric, zScore);
    if !sig.significant || sig.confidence < minConfidence {
      return None;
    }
    var controlValue := MetricValue(control, metric);
    var improvement := Improvement(bestValue, controlValue);
    r := Some(WinnerAnalysis(ms[best].variantId, sig.confidence, improvement, true,
      Reason(improvement, metric, sig.confidence)));
  }

  /** `calculateRequiredSampleSize`: the z values come from two small tables. */
  function ZAlpha(confidence: real): real {
    if confidence == 95.0 then 1.96 else if confidence == 90.0 then 1.65 else 2.58
  }

  function ZBeta(power: real): real {
    if power == 80.0 then 0.84 else if power == 90.0 then 1.28 else 0.52
  }

  /** `Math.ceil(x)` on a finite value. */
  function Ceil(x: real): (r: int)
    ensures x <= r as real < x + 1.0
  {
    -((-x).Floor)
  }

  lemma {:induction false} CeilMonotone(x: real, y: real)
    requires x <= y
    ensures Ceil(x) <= Ceil(y)
  {
    var a, b := Ceil(x), Ceil(y);
    assert (a as real) < (b as real) + 1.0;
  }

  /** `p1 * (1 - p1) + p2 * (1 - p2)` */
  function Spread(p1: real, p2: real): real { p1 * (1.0 - p1) + p2 * (1.0 - p2) }

  lemma {:induction false} GapIsProduct(baselineRate: real, mde: real)
    ensures baselineRate * (1.0 + mde / 100.0) - baselineRate == baselineRate * (mde / 100.0)
    ensures baselineRate * (mde / 100.0) == 0.0 <==> baselineRate == 0.0 || mde == 0.0
  {
  }

  /** `Math.ceil(zSum^2 * spread / (p2 - p1)^2)`; `None` when the two rates coincide, where the
      source divides by zero and returns Infinity or NaN. */
  function SampleSize(zSum: real, p1: real, p2: real): (r: Option<int>)
    ensures r.Some? <==> p1 != p2
  {
    if p1 == p2 then None else Some(Ceil(Ratio(zSum, p1, p2)))
  }

  /** `Math.pow(zSum, 2) * spread / Math.pow(p2 - p1, 2)` */
  function Ratio(zSum: real, p1: real, p2: real): real
    requires p1 != p2
  {
    zSum * zSum * Spread(p1, p2) / (p2 - p1) / (p2 - p1)
  }

  /** `calculateRequiredSampleSize(baselineRate, mde, confidence, power)` */
  function RequiredSampleSize(baselineRate: real, mde: real, confidence: real, power: real): (r: Option<int>)
    ensures r.Some? <==> baselineRate != 0.0 && mde != 0.0
  {
    GapIsProduct(baselineRate, mde);
    SampleSize(ZAlpha(confidence) + ZBeta(power), baselineRate, baselineRate * (1.0 + mde / 100.0))
  }

  lemma {:induction false} SampleSizeMonotone(z1: real, z2: real, p1: real, p2: real)
    requires 0.0 <= z1 <= z2 && p1 != p2 && Spread(p1, p2) >= 0.0
    ensures 0 <= SampleSize(z1, p1, p2).value <= SampleSize(z2, p1, p2).value
  {
    ProductMonotone(z1, z2);
    MulMonotone(z1 * z1, z2 * z2, Spread(p1, p2));
    MulMonotone(0.0, z1 * z1, Spread(p1, p2));
    DivTwiceNonNegative(z1 * z1 * Spread(p1, p2), p2 - p1);
    DivTwiceMonotone(z1 * z1 * Spread(p1, p2), z2 * z2 * Spread(p1, p2), p2 - p1);
    CeilMonotone(Ratio(z1, p1, p2), Ratio(z2, p1, p2));
    CeilMonotone(0.0, Ratio(z1, p1, p2));
  }

  lemma {:induction false} ProductMonotone(a: real, b: real)
    requires 0.0 <= a <= b
    ensures 0.0 <= a * a <= b * b
  {
    assert a * a <= a * b <= b * b;
  }

  lemma {:induction false} MulMonotone(a: real, b: real, s: real)
    requires a <= b && s >= 0.0
    ensures a * s <= b * s
  {
  }

  lemma {:induction false} DivTwiceNonNegative(x: real, g: real)
    requires x >= 0.0 && g != 0.0
    ensures x / g / g >= 0.0
  {
    if g > 0.0 { assert x / g >= 0.0; } else { assert x / g <= 0.0; }
  }

  lemma {:induction false} DivTwiceMonotone(a: real, b: real, g: real)
    requires a <= b && g != 0.0
    ensures a / g / g <= b / g / g
  {
    DivTwiceNonNegative(b - a, g);
    assert (b - a) / g == b / g - a / g;
    assert (b / g - a / g) / g == b / g / g - a / g / g;
  }

  /** For rates in [0, 1] the required size is non-negative, and asking for more power (90 instead of
      80) never asks for fewer samples. */
  lemma {:induction false} RequiredSampleSizeProperties(baselineRate: real, mde: real)
    requires 0.0 < baselineRate <= 1.0 && mde != 0.0
    requires 0.0 <= baselineRate * (1.0 + mde / 100.0) <= 1.0
    ensures RequiredSampleSize(baselineRate, mde, 95.0, 80.0).value >= 0
    ensures RequiredSampleSize(baselineRate, mde, 95.0, 80.0).value <= RequiredSampleSize(baselineRate, mde, 95.0, 90.0).value
  {
    var p1 := baselineRate;
    var p2 := baselineRate * (1.0 + mde / 100.0);
    ProductNonNegative(p1, 1.0 - p1);
    ProductNonNegative(p2, 1.0 - p2);
    GapIsProduct(baselineRate, mde);
    assert ZAlpha(95.0) + ZBeta(80.0) == 2.8 && ZAlpha(95.0) + ZBeta(90.0) == 3.24;
    SampleSizeMonotone(2.8, 3.24, p1, p2);
  }

  lemma {:induction false} ProductNonNegative(a: real, b: real)
    requires a >= 0.0 && b >= 0.0
    ensures a * b >= 0.0
  {
  }

  /** `hasReachedSignificance(metrics, targetMetric, minSampleSize)` */
  predicate HasReachedSignificance(ms: seq<VariantMetrics>, metric: string, minSampleSize: real, zScore: ZScore) {
    |ms| >= 2 && (forall i :: 0 <= i < |ms| ==> ms[i].impressions >= minSampleSize)
    && Winner(ms, metric, 95.0, zScore).Some?
  }

  /** It needs at least two variants, enough impressions everywhere, a testable metric and a winner
      with at least 95% confidence. */
  lemma {:induction false} ReachedSignificanceNeeds(ms: seq<VariantMetrics>, metric: string, minSampleSize: real, zScore: ZScore)
    requires HasReachedSignificance(ms, metric, minSampleSize, zScore)
    ensures Testable(metric) && ms[0].impressions >= minSampleSize
    ensures Winner(ms, metric, 95.0, zScore).value.confidence >= 95.0
  {
  }

  /** `calculateTestProgress(currentSample, targetSample, startDate, endDate)`, `Date.now()` as `now`. */
  function TestProgress(currentSample: real, targetSample: real, start: nat, end: Option<nat>, now: nat): (r: Num)
    ensures !r.PosInf?
    ensures r.Fin? ==> r.v <= 100.0
  {
    var sampleProgress := Scale(Div(currentSample, targetSample), 100.0);
    if end.Some? then
      var timeProgress := Scale(Div((now - start) as real, (end.value - start) as real), 100.0);
      Min(Fin(100.0), Max(sampleProgress, timeProgress))
    else Min(Fin(100.0), sampleProgress)
  }

  /** Without an end date, the progress is the sample share capped at 100. */
  lemma {:induction false} ProgressWithoutEnd(currentSample: real, targetSample: real, start: nat, now: nat)
    requires targetSample != 0.0
    ensures TestProgress(currentSample, targetSample, start, None, now)
      == Fin(if 100.0 * currentSample / targetSample < 100.0 then 100.0 * currentSample / targetSample else 100.0)
  {
    assert currentSample / targetSample * 100.0 == 100.0 * currentSample / targetSample;
  }

  /** With an end date, progress is at least the (finite) elapsed-time share, up to 100. */
  lemma {:induction false} ProgressCoversTime(currentSample: real, targetSample: real, start: nat, end: nat, now: nat)
    requires targetSample != 0.0 && end != start
    ensures TestProgress(currentSample, targetSample, start, Some(end), now).Fin?
    ensures var t := (now - start) as real / (end - start) as real * 100.0;
      TestProgress(currentSample, targetSample, start, Some(end), now).v == (if t < 100.0 then
        (if currentSample / targetSample * 100.0 > t then
          (if currentSample / targetSample * 100.0 < 100.0 then currentSample / targetSample * 100.0 else 100.0)
         else t)
        else 100.0)
  {
  }

  /** `formatMetricValue(value, metric)` */
  function FormatMetricValue(value: real, metric: string): (r: string)
    ensures |r| >= 1
    ensures metric == "ctr" || metric == "conversions" || metric == "engagement" ==> r[|r| - 1] == '%'
    ensures metric == "cpa" || metric == "ltv" ==> r[0] == '$'
  {
    if metric == "ctr" || metric == "conversions" then ToFixed(value, 2) + "%"
    else if metric == "cpa" then "$" + ToFixed(value, 2)
    else if metric == "ltv" then "$" + ToFixed(value, 0)
    else if metric == "engagement" then ToFixed(value, 1) + "%"
    else ToFixed(value, 2)
  }

  /** `getMetricDisplayName`: the names table; another key reads `undefined`. */
  function MetricDisplayName(metric: string): (r: Option<string>)
    ensures r.Some? <==> metric in {"ctr", "conversions", "cpa", "ltv", "engagement"}
  {
    if metric == "ctr" then Some("Click-Through Rate")
    else if metric == "conversions" then Some("Conversion Rate")
    else if metric == "cpa" then Some("Cost Per Acquisition")
    else if metric == "ltv" then Some("Lifetime Value")
    else if metric == "engagement" then Some("Engagement Rate")
    else None
  }
}
