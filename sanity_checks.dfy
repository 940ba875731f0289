/** The business-rule checks of an A/B test (apps/web/src/app/modules/campaigns/ab-tests/utils/
    sanity-checks.ts). Each validator pushes errors into a list; the loop methods are proved equal to
    specification functions that list the same errors in the same order, and the lemmas state which
    inputs produce which errors. */
module SanityChecks {
  import opened Wrappers
  import opened Strings
  import opened Seqs
  import opened AbTestTypes

  datatype ValidationError = ValidationError(field: string, message: string)

  const FewForSplit := ValidationError("variants", "At least 2 variants are required for A/B testing")
  const FewVariants := ValidationError("variants", "At least 2 variants are required")
  const TooManyVariants := ValidationError("variants", "Maximum 10 variants allowed")
  const RangeMessage := "Traffic percentage must be between 0-100%"

  function Abs(x: real): real { if x < 0.0 then -x else x }

  /** `variants[<idx>].<name>` */
  function VariantField(idx: nat, name: string): string {
    "variants[" + NatToString(idx) + "]." + name
  }

  function Pct(v: VariantInput): real { v.trafficPercentage }

  /** `variants.reduce((sum, v) => sum + v.trafficPercentage, 0)` */
  function TotalTraffic(vs: seq<VariantInput>): real { SumOf(vs, Pct) }

  predicate OutOfRange(v: VariantInput) { v.trafficPercentage < 0.0 || v.trafficPercentage > 100.0 }

  function RangeError(idx: nat): ValidationError {
    ValidationError(VariantField(idx, "trafficPercentage"), RangeMessage)
  }

  function SplitError(total: real): ValidationError {
    ValidationError("trafficSplit", "Traffic split must equal 100% (current: " + ToFixed(total, 1) + "%)")
  }

  /** The per-variant range errors, in index order. */
  function RangeErrors(vs: seq<VariantInput>): seq<ValidationError>
    decreases |vs|
  {
    if vs == [] then []
    else RangeErrors(vs[..|vs| - 1]) + (if OutOfRange(vs[|vs| - 1]) then [RangeError(|vs| - 1)] else [])
  }

  function TrafficSplitErrors(vs: seq<VariantInput>): seq<ValidationError> {
    if |vs| < 2 then [FewForSplit]
    else
      (if Abs(TotalTraffic(vs) - 100.0) > 0.01 then [SplitError(TotalTraffic(vs))] else []) + RangeErrors(vs)
  }

  /** `validateTrafficSplit` */
  method ValidateTrafficSplit(vs: seq<VariantInput>) returns (errors: seq<ValidationError>)
    ensures errors == TrafficSplitErrors(vs)
  {
    if |vs| < 2 {
      errors := [FewForSplit];
      return;
    }
    var total := TotalTraffic(vs);
    errors := [];
    if Abs(total - 100.0) > 0.01 {
      errors := errors + [SplitError(total)];
    }
    var rangeErrors := CollectRangeErrors(vs);
    errors := errors + rangeErrors;
  }

  /** The `forEach` of `validateTrafficSplit`: one range error per percentage outside [0, 100]. */
  method CollectRangeErrors(vs: seq<VariantInput>) returns (errors: seq<ValidationError>)
    ensures errors == RangeErrors(vs)
  {
    errors := [];
    var k := 0;
    while k < |vs|
      invariant 0 <= k <= |vs|
      invariant errors == RangeErrors(vs[..k])
    {
      RangeErrorsStep(vs, k);
      if OutOfRange(vs[k]) {
        errors := errors + [RangeError(k)];
      }
      k := k + 1;
    }
    assert vs[..k] == vs;
  }

  lemma {:induction false} RangeErrorsStep(vs: seq<VariantInput>, k: nat)
    requires k < |vs|
    ensures RangeErrors(vs[..k + 1]) == RangeErrors(vs[..k]) + (if OutOfRange(vs[k]) then [RangeError(k)] else [])
  {
    assert vs[..k + 1][..k] == vs[..k];
  }

  lemma {:induction false} RangeErrorsShape(vs: seq<VariantInput>)
    ensures |RangeErrors(vs)| == Count(vs, OutOfRange)
    ensures forall e :: e in RangeErrors(vs) ==> e.message == RangeMessage && e.field != "trafficSplit"
    ensures forall i :: 0 <= i < |vs| && OutOfRange(vs[i]) ==> RangeError(i) in RangeErrors(vs)
    decreases |vs|
  {
    if vs != [] {
      var n := |vs| - 1;
      RangeErrorsShape(vs[..n]);
      CountConcat(vs[..n], [vs[n]], OutOfRange);
      assert vs[..n] + [vs[n]] == vs;
      forall i | 0 <= i < n && OutOfRange(vs[i]) ensures RangeError(i) in RangeErrors(vs) {
        assert vs[..n][i] == vs[i];
      }
      assert RangeError(n).field[0] == 'v' != "trafficSplit"[0];
    }
  }

  /** With at least two variants, the split error is reported iff the total is off 100 by more than
      0.01, and there is exactly one range error per percentage outside [0, 100]; with fewer, the only
      error is the "variants" one. */
  lemma {:induction false} TrafficSplitRules(vs: seq<VariantInput>)
    ensures |vs| < 2 ==> TrafficSplitErrors(vs) == [FewForSplit]
    ensures |vs| >= 2 ==>
      ((exists e :: e in TrafficSplitErrors(vs) && e.field == "trafficSplit")
        <==> Abs(TotalTraffic(vs) - 100.0) > 0.01)
    ensures |vs| >= 2 ==>
      |TrafficSplitErrors(vs)| == (if Abs(TotalTraffic(vs) - 100.0) > 0.01 then 1 else 0) + Count(vs, OutOfRange)
    ensures |vs| >= 2 ==>
      forall i :: 0 <= i < |vs| && OutOfRange(vs[i]) ==> RangeError(i) in TrafficSplitErrors(vs)
  {
    RangeErrorsShape(vs);
    if |vs| >= 2 {
      var r := RangeErrors(vs);
      if Abs(TotalTraffic(vs) - 100.0) > 0.01 {
        var e := SplitError(TotalTraffic(vs));
        assert TrafficSplitErrors(vs) == [e] + r;
        assert e in TrafficSplitErrors(vs) && e.field == "trafficSplit";
      } else {
        assert TrafficSplitErrors(vs) == r;
        assert forall e :: e in r ==> e.field != "trafficSplit";
      }
    }
  }

  /** A trimmed-empty string: `!s.trim()`. */
  predicate Blank(s: string) { Trim(s) == "" }

  /** `!o`: absent or empty. */
  predicate Falsy(o: Option<string>) { o.None? || o.value == "" }

  /** The creative carries what its type needs: a URL for images and videos, content for text. */
  predicate CreativeComplete(c: Creative) {
    (c.creativeType == "image" ==> !Falsy(c.url))
    && (c.creativeType == "video" ==> !Falsy(c.url))
    && (c.creativeType == "text" ==> !Falsy(c.content))
  }

  /** `cond ? [e] : []`: one conditional push. */
  function When(cond: bool, e: ValidationError): (r: seq<ValidationError>)
    ensures r == [] <==> !cond
  {
    if cond then [e] else []
  }

  /** `validateVariant(variant, index)` */
  function VariantErrors(v: VariantInput, index: nat): (r: seq<ValidationError>)
    ensures r == [] <==> !Blank(v.name) && !Blank(v.headline) && !Blank(v.cta) && CreativeComplete(v.creative)
  {
    var c := v.creative;
    When(Blank(v.name), ValidationError(VariantField(index, "name"), "Variant name is required"))
    + When(Blank(v.headline), ValidationError(VariantField(index, "headline"), "Headline is required"))
    + When(Blank(v.cta), ValidationError(VariantField(index, "cta"), "Call-to-action is required"))
    + When(c.creativeType == "image" && Falsy(c.url),
        ValidationError(VariantField(index, "creative"), "Image URL is required for image creatives"))
    + When(c.creativeType == "video" && Falsy(c.url),
        ValidationError(VariantField(index, "creative"), "Video URL is required for video creatives"))
    + When(c.creativeType == "text" && Falsy(c.content),
        ValidationError(VariantField(index, "creative"), "Text content is required for text creatives"))
  }

  /** The errors of every variant, in index order (the `forEach` of `validateAbTest`). */
  function AllVariantErrors(vs: seq<VariantInput>): seq<ValidationError> {
    FlatMapIndexed(vs, VariantErrors)
  }

  /** A JavaScript number used as a condition: present and non-zero (NaN is not modelled). */
  predicate Truthy(x: Option<real>) { x.Some? && x.value != 0.0 }

  predicate DurationAccepted(d: Option<real>) { !Truthy(d) || 1.0 <= d.value <= 90.0 }

  predicate SampleSizeAccepted(s: Option<real>) { !Truthy(s) || s.value >= 100.0 }

  function BasicErrors(input: CreateAbTestInput): (r: seq<ValidationError>)
    ensures r == [] <==>
      !Blank(input.name) && |input.name| <= 100 && input.campaignId != "" && 2 <= |input.variants| <= 10
  {
    When(Blank(input.name), ValidationError("name", "Test name is required"))
    + When(|input.name| > 100, ValidationError("name", "Test name must be less than 100 characters"))
    + When(input.campaignId == "", ValidationError("campaignId", "Campaign is required"))
    + When(|input.variants| < 2, FewVariants)
    + When(|input.variants| > 10, TooManyVariants)
  }

  function DurationErrors(duration: Option<real>): (r: seq<ValidationError>)
    ensures r == [] <==> DurationAccepted(duration)
  {
    if !Truthy(duration) then []
    else
      When(duration.value < 1.0, ValidationError("duration", "Test duration must be at least 1 day"))
      + When(duration.value > 90.0, ValidationError("duration", "Test duration cannot exceed 90 days"))
  }

  function SampleSizeErrors(sampleSize: Option<real>): (r: seq<ValidationError>)
    ensures r == [] <==> SampleSizeAccepted(sampleSize)
  {
    When(Truthy(sampleSize) && sampleSize.value < 100.0,
      ValidationError("sampleSize", "Sample size must be at least 100"))
  }

  /** The errors `validateAbTest` returns, in push order. */
  function AbTestErrors(input: CreateAbTestInput): seq<ValidationError> {
    BasicErrors(input) + AllVariantErrors(input.variants) + TrafficSplitErrors(input.variants)
    + DurationErrors(input.duration) + SampleSizeErrors(input.sampleSize)
  }

  /** The `forEach` of `validateAbTest`: each variant's errors, pushed in index order. */
  method CollectVariantErrors(vs: seq<VariantInput>) returns (errors: seq<ValidationError>)
    ensures errors == AllVariantErrors(vs)
  {
    errors := PushEach(vs, VariantErrors);
  }

  /** `validateAbTest` */
  method ValidateAbTest(input: CreateAbTestInput) returns (errors: seq<ValidationError>)
    ensures errors == AbTestErrors(input)
  {
    errors := BasicErrors(input);
    var variantErrors := CollectVariantErrors(input.variants);
    var trafficErrors := ValidateTrafficSplit(input.variants);
    errors := errors + variantErrors + trafficErrors + DurationErrors(input.duration)
      + SampleSizeErrors(input.sampleSize);
  }

  /** The split check passes iff there are two variants or more, the total is within 0.01 of 100
      and every percentage lies in [0, 100]. */
  lemma {:induction false} TrafficSplitErrorsEmptyIff(vs: seq<VariantInput>)
    ensures TrafficSplitErrors(vs) == [] <==>
      |vs| >= 2 && Abs(TotalTraffic(vs) - 100.0) <= 0.01 && forall i :: 0 <= i < |vs| ==> !OutOfRange(vs[i])
  {
    RangeErrorsShape(vs);
    if |vs| >= 2 && (forall i :: 0 <= i < |vs| ==> !OutOfRange(vs[i])) {
      CountNone(vs, OutOfRange);
    }
  }

  /** A test configuration is accepted iff every rule holds; an absent or zero duration or sample
      size is not checked. */
  lemma {:induction false} AbTestValidIff(input: CreateAbTestInput)
    ensures AbTestErrors(input) == [] <==>
      !Blank(input.name) && |input.name| <= 100 && input.campaignId != ""
      && 2 <= |input.variants| <= 10
      && (forall i :: 0 <= i < |input.variants| ==> VariantErrors(input.variants[i], i) == [])
      && Abs(TotalTraffic(input.variants) - 100.0) <= 0.01
      && (forall i :: 0 <= i < |input.variants| ==> !OutOfRange(input.variants[i]))
      && DurationAccepted(input.duration) && SampleSizeAccepted(input.sampleSize)
  {
    FlatMapIndexedEmptyIff(input.variants, VariantErrors);
    TrafficSplitErrorsEmptyIff(input.variants);
    var b, v, t := BasicErrors(input), AllVariantErrors(input.variants), TrafficSplitErrors(input.variants);
    var d, z := DurationErrors(input.duration), SampleSizeErrors(input.sampleSize);
    assert AbTestErrors(input) == b + v + t + d + z;
    assert b + v + t + d + z == [] <==> b == [] && v == [] && t == [] && d == [] && z == [];
  }

  lemma {:induction false} CountNone<T>(s: seq<T>, p: T -> bool)
    requires forall i :: 0 <= i < |s| ==> !p(s[i])
    ensures Count(s, p) == 0
    decreases |s|
  {
    if s != [] { CountNone(s[1..], p); }
  }

  /** With a single variant both "variants" errors appear: the configuration one and the split one. */
  lemma {:induction false} SingleVariantBothErrors(input: CreateAbTestInput)
    requires |input.variants| < 2
    ensures FewVariants in AbTestErrors(input) && FewForSplit in AbTestErrors(input)
  {
    var e := AbTestErrors(input);
    assert FewVariants in BasicErrors(input);
    assert FewForSplit in TrafficSplitErrors(input.variants);
  }

  /** The input `canStartTest` validates: the test's fields, variants without their ids. */
  function StartInput(test: AbTest): (r: CreateAbTestInput)
    ensures |r.variants| == |test.variants|
  {
    CreateAbTestInput(test.name, None, test.campaignId, test.channel, Map(test.variants, Strip),
      test.targetMetric, test.duration, test.sampleSize, None)
  }

  /** `messages.join(sep)` */
  function Join(parts: seq<string>, sep: string): string
    decreases |parts|
  {
    if parts == [] then "" else if |parts| == 1 then parts[0] else parts[0] + sep + Join(parts[1..], sep)
  }

  function Message(e: ValidationError): string { e.message }

  datatype Verdict = Verdict(allowed: bool, reason: Option<string>)

  /** `canStartTest` */
  function CanStartTest(test: AbTest): (r: Verdict)
    ensures r.allowed <==> test.status == "draft" && AbTestErrors(StartInput(test)) == []
    ensures r.allowed <==> r.reason.None?
    ensures test.status != "draft" ==> r.reason == Some("Test must be in draft status to start")
    ensures test.status == "draft" && !r.allowed ==> IsPrefix("Validation errors: ", r.reason.value)
  {
    if test.status != "draft" then Verdict(false, Some("Test must be in draft status to start"))
    else
      var errors := AbTestErrors(StartInput(test));
      if |errors| > 0 then Verdict(false, Some("Validation errors: " + Join(Map(errors, Message), ", ")))
      else Verdict(true, None)
  }

  /** A draft test with fewer than two variants can never be started. */
  lemma {:induction false} TooFewVariantsNeverStart(test: AbTest)
    requires |test.variants| < 2
    ensures !CanStartTest(test).allowed
  {
    SingleVariantBothErrors(StartInput(test));
  }

  /** `canStopTest` */
  function CanStopTest(test: AbTest): (r: Verdict)
    ensures r.allowed <==> test.status == "running" || test.status == "paused"
    ensures !r.allowed ==> r.reason == Some("Only running or paused tests can be stopped")
  {
    if test.status != "running" && test.status != "paused"
    then Verdict(false, Some("Only running or paused tests can be stopped"))
    else Verdict(true, None)
  }

  /** A test that may start may not be stopped, and the other way round. */
  lemma {:induction false} StartAndStopExclusive(test: AbTest)
    ensures !(CanStartTest(test).allowed && CanStopTest(test).allowed)
  {
  }

  /** `hasMinimumSampleSize(test, minSize)` */
  predicate HasMinimumSampleSize(test: AbTest, minSize: real) {
    test.metrics.Some? && forall i :: 0 <= i < |test.metrics.value| ==> test.metrics.value[i].impressions >= minSize
  }

  /** It is false without metrics, and a test that meets a sample size meets every smaller one. */
  lemma {:induction false} HasMinimumSampleSizeProperties(test: AbTest, minSize: real, smaller: real)
    ensures test.metrics.None? ==> !HasMinimumSampleSize(test, minSize)
    ensures HasMinimumSampleSize(test, minSize) && smaller <= minSize ==> HasMinimumSampleSize(test, smaller)
  {
  }

  const DayMs := 86400000.0

  predicate RunningTooLong(test: AbTest, now: nat) {
    test.status == "running" && test.startDate.Some? && Truthy(test.duration)
    && (now - test.startDate.value) as real / DayMs > test.duration.value * 1.5
  }

  function Impressions(m: VariantMetrics): real { m.impressions }

  /** `Math.max(...impressions.map(i => Math.abs(i - avg) / avg)) > 0.2` under IEEE arithmetic: an
      empty list gives -Infinity; a zero average gives NaN (and so false) as soon as one impression is
      zero, and +Infinity otherwise. */
  predicate Uneven(ms: seq<VariantMetrics>) {
    |ms| > 0 &&
    var avg := SumOf(ms, Impressions) / |ms| as real;
    if avg != 0.0 then exists i :: 0 <= i < |ms| && Abs(ms[i].impressions - avg) / avg > 0.2
    else forall i :: 0 <= i < |ms| ==> ms[i].impressions != 0.0
  }

  predicate PausedTooLong(test: AbTest, now: nat) {
    test.status == "paused" && (now - test.updatedAt) as real / DayMs > 14.0
  }

  datatype Health = Health(status: string, issues: seq<string>)

  const LongIssue := "Test is running longer than planned duration"
  const UnevenIssue := "Uneven traffic distribution detected"
  const StaleIssue := "Test has been paused for over 2 weeks"

  /** `getTestHealthStatus`, with `Date.now()` as `now`. */
  function TestHealthStatus(test: AbTest, now: nat): (r: Health)
    ensures LongIssue in r.issues <==> RunningTooLong(test, now)
    ensures UnevenIssue in r.issues <==> test.metrics.Some? && Uneven(test.metrics.value)
    ensures StaleIssue in r.issues <==> PausedTooLong(test, now)
    ensures r.status == (if |r.issues| == 0 then "healthy" else if |r.issues| == 1 then "warning" else "error")
  {
    var issues :=
      (if RunningTooLong(test, now) then [LongIssue] else [])
      + (if test.metrics.Some? && Uneven(test.metrics.value) then [UnevenIssue] else [])
      + (if PausedTooLong(test, now) then [StaleIssue] else []);
    if |issues| == 0 then Health("healthy", [])
    else if |issues| == 1 then Health("warning", issues)
    else Health("error", issues)
  }

  /** Running and paused exclude each other, so an "error" health always includes uneven traffic. */
  lemma {:induction false} ErrorHealthNeedsUnevenTraffic(test: AbTest, now: nat)
    ensures TestHealthStatus(test, now).status == "error" ==> test.metrics.Some? && Uneven(test.metrics.value)
  {
    var r := TestHealthStatus(test, now);
    if r.status == "error" {
      assert |r.issues| >= 2;
    }
  }

  /** Equal impressions are never uneven. */
  lemma {:induction false} EqualImpressionsBalanced(ms: seq<VariantMetrics>, x: real)
    requires x != 0.0 && forall i :: 0 <= i < |ms| ==> ms[i].impressions == x
    ensures !Uneven(ms)
  {
    if |ms| > 0 {
      SumOfConstant(ms, x);
      assert SumOf(ms, Impressions) / |ms| as real == x;
    }
  }

  lemma {:induction false} SumOfConstant(ms: seq<VariantMetrics>, x: real)
    requires forall i :: 0 <= i < |ms| ==> ms[i].impressions == x
    ensures SumOf(ms, Impressions) == |ms| as real * x
    decreases |ms|
  {
    if ms != [] { SumOfConstant(ms[1..], x); }
  }
}
