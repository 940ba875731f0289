/** The traffic splitter of the A/B test editor
    (apps/web/src/app/modules/campaigns/ab-tests/components/TrafficSplitter.tsx). The component keeps
    the variants in `localVariants`; a percentage change copies the list but writes into the same
    variant objects, so the model keeps one `array<real>` of their `trafficPercentage` fields and
    updates it in place, while an equal split builds new variants and so a fresh array. */
module TrafficSplitter {
  import opened Wrappers

  function Abs(x: real): real { if x < 0.0 then -x else x }

  /** `reduce((sum, v) => sum + v.trafficPercentage, 0)` */
  function Sum(s: seq<real>): real
    decreases |s|
  {
    if s == [] then 0.0 else s[0] + Sum(s[1..])
  }

  lemma {:induction false} SumConcat(a: seq<real>, b: seq<real>)
    ensures Sum(a + b) == Sum(a) + Sum(b)
    decreases |a|
  {
    if a != [] {
      assert (a + b)[1..] == a[1..] + b;
      SumConcat(a[1..], b);
    } else {
      assert a + b == b;
    }
  }

  /** The variants other than `index`: `filter((_, i) => i !== index)`. */
  function Others(s: seq<real>, index: nat): seq<real>
    requires index < |s|
  {
    s[..index] + s[index + 1..]
  }

  lemma {:induction false} SumAround(s: seq<real>, index: nat)
    requires index < |s|
    ensures Sum(s) == Sum(s[..index]) + s[index] + Sum(s[index + 1..])
    ensures Sum(Others(s, index)) == Sum(s[..index]) + Sum(s[index + 1..])
  {
    var before, x, after := s[..index], s[index], s[index + 1..];
    assert s == before + ([x] + after);
    SumConcat(before, [x] + after);
    assert Sum([x] + after) == x + Sum(after) by {
      assert ([x] + after)[1..] == after;
    }
    assert Others(s, index) == before + after;
    SumConcat(before, after);
  }

  /** `Math.max(0, Math.min(100, x))` */
  function Clamp(x: real): (r: real)
    ensures 0.0 <= r <= 100.0
    ensures 0.0 <= x <= 100.0 ==> r == x
  {
    if x > 100.0 then 100.0 else if x < 0.0 then 0.0 else x
  }

  /** A variant's share of the change: `tp + (-delta * (tp / otherTotal))` before clamping. */
  function Shift(x: real, delta: real, otherTotal: real): real
    requires otherTotal > 0.0
  {
    x + -delta * (x / otherTotal)
  }

  predicate Redistributes(s: seq<real>, index: nat, value: real)
    requires index < |s|
  {
    Sum(Others(s, index)) > 0.0 && Abs(value - s[index]) > 0.01
  }

  /** The percentages after `handlePercentageChange(index, value)`. */
  function Rebalanced(s: seq<real>, index: nat, value: real): (r: seq<real>)
    requires index < |s|
    ensures |r| == |s| && r[index] == value
  {
    if Redistributes(s, index, value) then
      seq(|s|, i requires 0 <= i < |s| =>
        if i == index then value else Clamp(Shift(s[i], value - s[index], Sum(Others(s, index)))))
    else s[index := value]
  }

  /** Nothing but the chosen percentage moves unless the others have a positive total and the change
      exceeds 0.01; when they move, each stays within [0, 100]. */
  lemma {:induction false} RebalancedOthers(s: seq<real>, index: nat, value: real, i: nat)
    requires index < |s| && i < |s| && i != index
    ensures !Redistributes(s, index, value) ==> Rebalanced(s, index, value)[i] == s[i]
    ensures Redistributes(s, index, value) ==>
      Rebalanced(s, index, value)[i] == Clamp(Shift(s[i], value - s[index], Sum(Others(s, index))))
      && 0.0 <= Rebalanced(s, index, value)[i] <= 100.0
  {
  }

  /** Every element shifted by its share of `delta`. */
  function ShiftAll(o: seq<real>, delta: real, otherTotal: real): (r: seq<real>)
    requires otherTotal > 0.0
    ensures |r| == |o|
  {
    seq(|o|, i requires 0 <= i < |o| => Shift(o[i], delta, otherTotal))
  }

  lemma {:induction false} SumShiftAll(o: seq<real>, delta: real, t: real)
    requires t > 0.0
    ensures Sum(ShiftAll(o, delta, t)) == Sum(o) - delta * (Sum(o) / t)
    decreases |o|
  {
    if o != [] {
      SumShiftAll(o[1..], delta, t);
      assert ShiftAll(o, delta, t)[1..] == ShiftAll(o[1..], delta, t);
      var a, b := o[0], Sum(o[1..]);
      assert (a + b) / t == a / t + b / t;
      assert delta * ((a + b) / t) == delta * (a / t) + delta * (b / t);
    }
  }

  /** When no percentage is clamped, a change keeps the total: the others absorb exactly `-delta`. */
  lemma {:induction false} RebalancedKeepsTotal(s: seq<real>, index: nat, value: real)
    requires index < |s| && Redistributes(s, index, value)
    requires forall i :: 0 <= i < |s| && i != index ==>
      0.0 <= Shift(s[i], value - s[index], Sum(Others(s, index))) <= 100.0
    ensures Sum(Rebalanced(s, index, value)) == Sum(s)
  {
    var r := Rebalanced(s, index, value);
    var delta, t := value - s[index], Sum(Others(s, index));
    SumAround(s, index);
    SumAround(r, index);
    assert r[..index] == ShiftAll(s[..index], delta, t);
    assert r[index + 1..] == ShiftAll(s[index + 1..], delta, t);
    ShiftedSides(s[..index], s[index + 1..], delta, t);
  }

  /** Shifting both sides of the changed percentage takes `delta` off their total. */
  lemma {:induction false} ShiftedSides(left: seq<real>, right: seq<real>, delta: real, t: real)
    requires t > 0.0 && Sum(left) + Sum(right) == t
    ensures Sum(ShiftAll(left, delta, t)) + Sum(ShiftAll(right, delta, t)) == Sum(left) + Sum(right) - delta
  {
    var o := left + right;
    assert ShiftAll(o, delta, t) == ShiftAll(left, delta, t) + ShiftAll(right, delta, t);
    SumConcat(ShiftAll(left, delta, t), ShiftAll(right, delta, t));
    SumConcat(left, right);
    SumShiftAll(o, delta, t);
    WholeShare(Sum(o), t, delta);
  }

  lemma {:induction false} WholeShare(x: real, t: real, delta: real)
    requires t > 0.0 && x == t
    ensures delta * (x / t) == delta
  {
    assert x / t == 1.0;
  }

  /** `handleEqualSplit`: every variant at `100 / n`. */
  function EqualSplit(n: nat): (r: seq<real>)
    ensures |r| == n
  {
    seq(n, i requires 0 <= i < n => 100.0 / n as real)
  }

  lemma {:induction false} SumConstant(s: seq<real>, c: real)
    requires forall i :: 0 <= i < |s| ==> s[i] == c
    ensures Sum(s) == |s| as real * c
    decreases |s|
  {
    if s != [] { SumConstant(s[1..], c); }
  }

  /** An equal split of a non-empty list totals exactly 100. */
  lemma {:induction false} EqualSplitTotals100(n: nat)
    requires n > 0
    ensures Sum(EqualSplit(n)) == 100.0
  {
    SumConstant(EqualSplit(n), 100.0 / n as real);
  }

  /** `Math.abs(total - 100) < 0.01` */
  predicate SplitValid(s: seq<real>) { Abs(Sum(s) - 100.0) < 0.01 }

  class Splitter {
    /** The `trafficPercentage` of each variant in `localVariants`. */
    var local: array<real>

    constructor(variants: seq<real>)
      ensures fresh(local) && local[..] == variants
    {
      local := new real[|variants|](i requires 0 <= i < |variants| => variants[i]);
    }

    predicate IsValid()
      reads this, local
    {
      SplitValid(local[..])
    }

    /** `handlePercentageChange(index, value)`: the same variant objects are updated in place. */
    method HandlePercentageChange(index: nat, value: real)
      requires index < local.Length
      modifies local
      ensures local[..] == Rebalanced(old(local[..]), index, value)
    {
      ghost var s := local[..];
      var a := local;
      var oldValue := a[index];
      var delta := value - oldValue;
      a[index] := value;
      assert Others(a[..], index) == Others(s, index);
      var otherTotal := Sum(Others(a[..], index));
      if otherTotal > 0.0 && Abs(delta) > 0.01 {
        var i := 0;
        while i < a.Length
          invariant 0 <= i <= a.Length
          invariant forall j :: 0 <= j < i ==> a[j] == Rebalanced(s, index, value)[j]
          invariant forall j :: i <= j < a.Length ==> a[j] == s[index := value][j]
        {
          if i != index {
            a[i] := Clamp(Shift(a[i], delta, otherTotal));
          }
          i := i + 1;
        }
      }
    }

    /** `handleInputChange(index, text)`, with `parseFloat(text)` as `parsed` (None for NaN). */
    method HandleInputChange(index: nat, parsed: Option<real>)
      requires index < local.Length
      modifies local
      ensures if parsed.Some? && 0.0 <= parsed.value <= 100.0
        then local[..] == Rebalanced(old(local[..]), index, parsed.value)
        else local[..] == old(local[..])
    {
      if parsed.Some? && parsed.value >= 0.0 && parsed.value <= 100.0 {
        HandlePercentageChange(index, parsed.value);
      }
    }

    /** `handleEqualSplit`: new variant objects, so the old array is left as it was. */
    method HandleEqualSplit()
      modifies this
      ensures fresh(local) && local[..] == EqualSplit(old(local).Length)
      ensures old(local)[..] == old(local[..])
    {
      var n := local.Length;
      local := new real[n](i requires 0 <= i < n => 100.0 / n as real);
    }
  }

  /** Moving one of two 70/30 variants to 50 gives 50/50, which is a valid split. */
  method RebalanceScenario() returns (result: seq<real>, valid: bool)
    ensures result == [50.0, 50.0] && valid
  {
    var splitter := new Splitter([70.0, 30.0]);
    splitter.HandlePercentageChange(0, 50.0);
    result := splitter.local[..];
    assert Others([70.0, 30.0], 0) == [30.0];
    assert Rebalanced([70.0, 30.0], 0, 50.0)[1] == 50.0;
    assert result == [50.0, 50.0];
    valid := splitter.IsValid();
  }
}
