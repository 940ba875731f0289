/** `mockEstimateAudience` of apps/web/src/app/modules/campaigns/create/mocks/campaign-create.mock.ts:
    the audience size the mock API reports for the selected segments and custom filters, with its
    demographic and device breakdowns. */
module AudienceMock {

  datatype Segment = Segment(id: string, estimatedSize: int)

  /** The five mock segments and their sizes. */
  const MockSegments: seq<Segment> := [
    Segment("segment-1", 12450),
    Segment("segment-2", 45780),
    Segment("segment-3", 23670),
    Segment("segment-4", 67890),
    Segment("segment-5", 8934)
  ]

  /** The size used when no segment is selected. */
  const DefaultSize := 15000

  /** The reported size never falls below this. */
  const MinimumSize := 100

  /** Each filter removes this share of the audience, without limit. */
  const FilterCut: real := 0.7

  const AgeFactors: seq<real> := [0.15, 0.35, 0.25, 0.15, 0.1]      // 18-24, 25-34, 35-44, 45-54, 55+
  const GenderFactors: seq<real> := [0.52, 0.46, 0.02]              // male, female, other
  const LocationFactors: seq<real> := [0.6, 0.25, 0.15]             // France, Madagascar, Other
  const DeviceFactors: seq<real> := [0.7, 0.25, 0.05]               // mobile, desktop, tablet

  datatype Estimate = Estimate(
    estimatedSize: int,
    ageGroups: seq<int>,
    genders: seq<int>,
    locations: seq<int>,
    devices: seq<int>)

  /** The sizes of the catalogue segments whose id is selected, each segment once. */
  function SelectedSize(catalogue: seq<Segment>, segments: seq<string>): int {
    if catalogue == [] then 0
    else (if catalogue[0].id in segments then catalogue[0].estimatedSize else 0) + SelectedSize(catalogue[1..], segments)
  }

  function BaseSize(segments: seq<string>): int {
    if |segments| > 0 then SelectedSize(MockSegments, segments) else DefaultSize
  }

  /** `Math.floor(baseSize * (1 - filters.length * 0.7))`, before the minimum is applied. */
  function RawSize(base: int, filterCount: nat): int {
    (base as real * (1.0 - filterCount as real * FilterCut)).Floor
  }

  function Breakdown(raw: int, factors: seq<real>): (r: seq<int>)
    ensures |r| == |factors|
    ensures forall i :: 0 <= i < |factors| ==> r[i] == (raw as real * factors[i]).Floor
  {
    if factors == [] then [] else [(raw as real * factors[0]).Floor] + Breakdown(raw, factors[1..])
  }

  /** Only the number of filters matters, not what they say. */
  function EstimateAudience(segments: seq<string>, filterCount: nat): (r: Estimate)
    ensures r.estimatedSize >= MinimumSize
    ensures r.estimatedSize == if RawSize(BaseSize(segments), filterCount) > MinimumSize
      then RawSize(BaseSize(segments), filterCount) else MinimumSize
  {
    var raw := RawSize(BaseSize(segments), filterCount);
    Estimate(
      if raw > MinimumSize then raw else MinimumSize,
      Breakdown(raw, AgeFactors),
      Breakdown(raw, GenderFactors),
      Breakdown(raw, LocationFactors),
      Breakdown(raw, DeviceFactors))
  }

  // ---------------------------------------------------------------- the base size

  predicate Known(id: string) { exists k :: 0 <= k < |MockSegments| && MockSegments[k].id == id }

  lemma {:induction false} SelectedSizeSameIds(catalogue: seq<Segment>, a: seq<string>, b: seq<string>)
    requires forall x :: x in a <==> x in b
    ensures SelectedSize(catalogue, a) == SelectedSize(catalogue, b)
  {
    if catalogue != [] {
      SelectedSizeSameIds(catalogue[1..], a, b);
    }
  }

  /** The base depends only on which ids are selected: repeating or reordering them changes
      nothing. */
  lemma {:induction false} BaseSizeSameIds(a: seq<string>, b: seq<string>)
    requires |a| > 0 && |b| > 0 && forall x :: x in a <==> x in b
    ensures BaseSize(a) == BaseSize(b)
  {
    SelectedSizeSameIds(MockSegments, a, b);
  }

  lemma {:induction false} SelectedSizeNone(catalogue: seq<Segment>, segments: seq<string>)
    requires forall k :: 0 <= k < |catalogue| ==> catalogue[k].id !in segments
    ensures SelectedSize(catalogue, segments) == 0
  {
    if catalogue != [] {
      SelectedSizeNone(catalogue[1..], segments);
    }
  }

  /** Selected ids that are all unknown give a base of 0, not the default. */
  lemma {:induction false} UnknownSegmentsGiveZero(segments: seq<string>)
    requires |segments| > 0 && forall i :: 0 <= i < |segments| ==> !Known(segments[i])
    ensures BaseSize(segments) == 0
  {
    forall k | 0 <= k < |MockSegments| ensures MockSegments[k].id !in segments {
      assert Known(MockSegments[k].id);
    }
    SelectedSizeNone(MockSegments, segments);
  }

  lemma {:induction false} SelectedSizeBounds(catalogue: seq<Segment>, segments: seq<string>)
    requires forall k :: 0 <= k < |catalogue| ==> catalogue[k].estimatedSize >= 0
    ensures 0 <= SelectedSize(catalogue, segments) <= TotalSize(catalogue)
  {
    if catalogue != [] {
      SelectedSizeBounds(catalogue[1..], segments);
    }
  }

  function TotalSize(catalogue: seq<Segment>): int {
    if catalogue == [] then 0 else catalogue[0].estimatedSize + TotalSize(catalogue[1..])
  }

  /** The base lies between 0 and the size of all five segments together. */
  lemma {:induction false} BaseSizeBounds(segments: seq<string>)
    ensures 0 <= BaseSize(segments) <= 158724
  {
    SelectedSizeBounds(MockSegments, segments);
    assert TotalSize(MockSegments) == 158724;
  }

  lemma {:induction false} BaseSizeExamples()
    ensures BaseSize([]) == 15000
    ensures BaseSize(["segment-1", "segment-1", "segment-9"]) == 12450
    ensures BaseSize(["segment-2", "segment-4"]) == 113670
  {
  }

  // ---------------------------------------------------------------- the filters

  /** No filter keeps the base; one keeps three tenths of it; from two on, any positive base turns
      negative, so the reported size is the minimum. */
  lemma {:induction false} RawSizeByFilters(base: int, filterCount: nat)
    ensures filterCount == 0 ==> RawSize(base, filterCount) == base
    ensures filterCount == 1 ==> RawSize(base, filterCount) == (base as real * 0.3).Floor
    ensures filterCount >= 2 && base > 0 ==> RawSize(base, filterCount) < 0
  {
    var m := 1.0 - filterCount as real * FilterCut;
    if filterCount == 0 {
      assert m == 1.0;
    } else if filterCount == 1 {
      assert m == 0.3;
    } else if base > 0 {
      assert m <= -0.4;
      var b := base as real;
      NegativeProduct(b, m);
      assert RawSize(base, filterCount) == (b * m).Floor;
      NegativeFloor(b * m);
    }
  }

  lemma {:induction false} NegativeProduct(x: real, m: real)
    requires x > 0.0 && m < 0.0
    ensures x * m < 0.0
  {
  }

  lemma {:induction false} NegativeFloor(x: real)
    requires x < 0.0
    ensures x.Floor < 0
  {
  }

  /** With two filters or more and a positive base, every breakdown count is negative, because the
      breakdowns use the size before the minimum is applied. */
  lemma {:induction false} NegativeBreakdowns(segments: seq<string>, filterCount: nat)
    requires filterCount >= 2 && BaseSize(segments) > 0
    ensures var r := EstimateAudience(segments, filterCount);
      && r.estimatedSize == MinimumSize
      && (forall i :: 0 <= i < |r.ageGroups| ==> r.ageGroups[i] < 0)
      && (forall i :: 0 <= i < |r.devices| ==> r.devices[i] < 0)
      && (forall i :: 0 <= i < |r.genders| ==> r.genders[i] < 0)
      && (forall i :: 0 <= i < |r.locations| ==> r.locations[i] < 0)
  {
    var raw := RawSize(BaseSize(segments), filterCount);
    RawSizeByFilters(BaseSize(segments), filterCount);
    BreakdownNegative(raw, AgeFactors);
    BreakdownNegative(raw, DeviceFactors);
    BreakdownNegative(raw, GenderFactors);
    BreakdownNegative(raw, LocationFactors);
  }

  lemma {:induction false} BreakdownNegative(raw: int, factors: seq<real>)
    requires raw < 0 && forall i :: 0 <= i < |factors| ==> factors[i] > 0.0
    ensures forall i :: 0 <= i < |factors| ==> Breakdown(raw, factors)[i] < 0
  {
    forall i | 0 <= i < |factors| ensures Breakdown(raw, factors)[i] < 0 {
      assert raw as real * factors[i] < 0.0;
    }
  }

  // ---------------------------------------------------------------- the breakdowns

  function SumInts(s: seq<int>): int {
    if s == [] then 0 else s[0] + SumInts(s[1..])
  }

  function SumReals(s: seq<real>): real {
    if s == [] then 0.0 else s[0] + SumReals(s[1..])
  }

  /** The unrounded parts added up. */
  function ScaledSum(raw: int, factors: seq<real>): real {
    if factors == [] then 0.0 else raw as real * factors[0] + ScaledSum(raw, factors[1..])
  }

  lemma {:induction false} ScaledSumIsProduct(raw: int, factors: seq<real>)
    ensures ScaledSum(raw, factors) == raw as real * SumReals(factors)
  {
    if factors != [] {
      ScaledSumIsProduct(raw, factors[1..]);
      Distribute(raw as real, factors[0], SumReals(factors[1..]));
    }
  }

  lemma {:induction false} BreakdownSum(raw: int, factors: seq<real>)
    ensures ScaledSum(raw, factors) - |factors| as real <= SumInts(Breakdown(raw, factors)) as real
    ensures factors != [] ==> ScaledSum(raw, factors) - |factors| as real < SumInts(Breakdown(raw, factors)) as real
    ensures SumInts(Breakdown(raw, factors)) as real <= ScaledSum(raw, factors)
  {
    if factors != [] {
      BreakdownSum(raw, factors[1..]);
      assert Breakdown(raw, factors) == [(raw as real * factors[0]).Floor] + Breakdown(raw, factors[1..]);
    }
  }

  lemma {:induction false} Distribute(r: real, x: real, y: real)
    ensures r * (x + y) == r * x + r * y
  {
  }

  /** Each breakdown splits a non-negative size into parts that add up to at most the size and lose
      less than one unit per part to rounding down. */
  lemma {:induction false} BreakdownsSplitSize(raw: int)
    requires raw >= 0
    ensures raw - 5 < SumInts(Breakdown(raw, AgeFactors)) <= raw
    ensures raw - 3 < SumInts(Breakdown(raw, GenderFactors)) <= raw
    ensures raw - 3 < SumInts(Breakdown(raw, LocationFactors)) <= raw
    ensures raw - 3 < SumInts(Breakdown(raw, DeviceFactors)) <= raw
  {
    assert SumReals(AgeFactors) == 1.0;
    assert SumReals(GenderFactors) == 1.0;
    assert SumReals(LocationFactors) == 1.0;
    assert SumReals(DeviceFactors) == 1.0;
    BreakdownSum(raw, AgeFactors);
    BreakdownSum(raw, GenderFactors);
    BreakdownSum(raw, LocationFactors);
    BreakdownSum(raw, DeviceFactors);
    ScaledSumIsProduct(raw, AgeFactors);
    ScaledSumIsProduct(raw, GenderFactors);
    ScaledSumIsProduct(raw, LocationFactors);
    ScaledSumIsProduct(raw, DeviceFactors);
  }
}
