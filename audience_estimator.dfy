/** The `estimatedReach` memo and `getReachQuality` of
    apps/web/src/app/modules/campaigns/create/components/wizard/StepAudience/AudienceEstimator.tsx:
    the reach shown while the audience step is edited. */
module AudienceEstimator {
  import opened Wrappers
  import opened JsNumber

  /** The reach of each known segment. */
  const SegmentReach: seq<(string, nat)> := [
    ("young-adults", 25000),
    ("families", 18000),
    ("seniors", 12000),
    ("professionals", 22000),
    ("students", 8000),
    ("tech-enthusiasts", 15000),
    ("local-businesses", 5000)
  ]

  /** The reach listed for `segment`, or 0 for an id the table does not list. */
  function Lookup(table: seq<(string, nat)>, segment: string): nat {
    if table == [] then 0 else if table[0].0 == segment then table[0].1 else Lookup(table[1..], segment)
  }

  /** `SEGMENT_REACH[segment] || 0` */
  function ReachOf(segment: string): nat {
    Lookup(SegmentReach, segment)
  }

  /** The reach of the selected segments, once per occurrence, as the `forEach` adds it up. */
  function BaseReach(selected: seq<string>): nat {
    if selected == [] then 0 else BaseReach(selected[..|selected| - 1]) + ReachOf(selected[|selected| - 1])
  }

  /** The share the filters keep: 10% less per filter, at most 80% less. */
  function FilterFactor(filterCount: nat): (r: real)
    ensures 0.2 <= r <= 1.0
    ensures filterCount == 0 ==> r == 1.0
  {
    if filterCount > 0 then 1.0 - MinReal(filterCount as real * 0.1, 0.8) else 1.0
  }

  /** The share kept after removing duplicates, which applies only to several segments. */
  function DedupFactor(segmentCount: nat): real {
    if segmentCount > 1 then 0.85 else 1.0
  }

  /** The reach the memo returns: the valid rows of an imported CSV file when there is one,
      otherwise the rounded segment reach after filters and deduplication. */
  function EstimatedReach(selected: seq<string>, filterCount: nat, csvValidRows: Option<int>): int {
    if csvValidRows.Some? then csvValidRows.value
    else Scaled(BaseReach(selected), filterCount, |selected|)
  }

  /** `Math.round` of the base after the filter and deduplication factors. */
  function Scaled(base: nat, filterCount: nat, segmentCount: nat): int {
    Round(Unrounded(base, filterCount, segmentCount))
  }

  function Unrounded(base: nat, filterCount: nat, segmentCount: nat): real {
    base as real * FilterFactor(filterCount) * DedupFactor(segmentCount)
  }

  /** The memo's body, step by step. */
  method ComputeEstimatedReach(selected: seq<string>, filterCount: nat, csvValidRows: Option<int>) returns (result: int)
    ensures result == EstimatedReach(selected, filterCount, csvValidRows)
  {
    var reach: real := 0.0;
    if csvValidRows.Some? {
      return csvValidRows.value;
    }
    var i := 0;
    while i < |selected|
      invariant 0 <= i <= |selected|
      invariant reach == BaseReach(selected[..i]) as real
    {
      assert selected[..i + 1][..i] == selected[..i];
      reach := reach + ReachOf(selected[i]) as real;
      i := i + 1;
    }
    assert selected[..i] == selected;
    ghost var base := BaseReach(selected);
    assert reach == base as real;
    if filterCount > 0 {
      var filterReduction := filterCount as real * 0.1;
      reach := reach * (1.0 - MinReal(filterReduction, 0.8));
      assert reach == base as real * FilterFactor(filterCount);
    } else {
      assert FilterFactor(filterCount) == 1.0;
    }
    ghost var filtered := reach;
    assert filtered == base as real * FilterFactor(filterCount);
    if |selected| > 1 {
      reach := reach * 0.85;
    }
    assert reach == Unrounded(base, filterCount, |selected|);
    result := Round(reach);
  }

  /** Without a CSV file the reach lies between 0 and the base, and equals the base for a single
      segment without filters. */
  lemma {:induction false} ReachWithinBase(selected: seq<string>, filterCount: nat)
    ensures 0 <= EstimatedReach(selected, filterCount, None) <= BaseReach(selected)
    ensures |selected| == 1 && filterCount == 0 ==> EstimatedReach(selected, filterCount, None) == BaseReach(selected)
  {
    var b := BaseReach(selected);
    ScaledBounds(b, filterCount, |selected|);
  }

  lemma {:induction false} ScaledBounds(b: nat, filterCount: nat, segmentCount: nat)
    ensures 0 <= Scaled(b, filterCount, segmentCount) <= b
    ensures segmentCount == 1 && filterCount == 0 ==> Scaled(b, filterCount, segmentCount) == b
  {
    var f, d := FilterFactor(filterCount), DedupFactor(segmentCount);
    assert 0.0 <= b as real * f <= b as real;
    assert 0.0 <= (b as real * f) * d <= b as real * f;
  }

  /** With a CSV file, neither the segments nor the filters matter. */
  lemma {:induction false} CsvWins(selected: seq<string>, filterCount: nat, rows: int)
    ensures EstimatedReach(selected, filterCount, Some(rows)) == rows
  {
  }

  /** Extra filters past eight cut no further. */
  lemma {:induction false} FilterCutCapped(n: nat, m: nat)
    requires 8 <= n && 8 <= m
    ensures FilterFactor(n) == FilterFactor(m)
  {
  }

  lemma {:induction false} ReachExamples()
    ensures EstimatedReach(["families"], 0, None) == 18000
    ensures EstimatedReach(["families", "students"], 2, None) == 17680
    ensures EstimatedReach(["unknown"], 0, None) == 0
  {
    assert ["families", "students"][..1] == ["families"];
    assert BaseReach(["families", "students"]) == 26000;
  }

  datatype ReachQuality = VeryTargeted | Targeted | Broad | VeryBroad {
    /** The badge text. */
    function Title(): string {
      match this
      case VeryTargeted => "Très ciblée"
      case Targeted => "Ciblée"
      case Broad => "Large"
      case VeryBroad => "Très large"
    }

    /** The badge colour. */
    function Color(): string {
      match this
      case VeryTargeted => "text-orange-600"
      case Targeted => "text-blue-600"
      case Broad => "text-green-600"
      case VeryBroad => "text-purple-600"
    }

    function Rank(): nat {
      match this
      case VeryTargeted => 0
      case Targeted => 1
      case Broad => 2
      case VeryBroad => 3
    }
  }

  function GetReachQuality(reach: int): (r: ReachQuality)
    ensures r == VeryTargeted <==> reach < 1000
    ensures r == Targeted <==> 1000 <= reach < 10000
    ensures r == Broad <==> 10000 <= reach < 50000
    ensures r == VeryBroad <==> 50000 <= reach
  {
    if reach < 1000 then VeryTargeted
    else if reach < 10000 then Targeted
    else if reach < 50000 then Broad
    else VeryBroad
  }
  /** Each quality has its own colour, so the colour changes exactly where the label does: orange
      below 1000, then blue, green, and purple from 50000. */
  lemma {:induction false} ColorFollowsQuality(reach: int, other: int)
    ensures GetReachQuality(reach).Color() == GetReachQuality(other).Color()
        <==> GetReachQuality(reach) == GetReachQuality(other)
    ensures GetReachQuality(reach).Color() == "text-orange-600" <==> reach < 1000
    ensures GetReachQuality(reach).Color() == "text-purple-600" <==> reach >= 50000
  {
  }


  /** A larger reach never gets a narrower label. */
  lemma {:induction false} QualityMonotone(a: int, b: int)
    requires a <= b
    ensures GetReachQuality(a).Rank() <= GetReachQuality(b).Rank()
  {
  }
}
