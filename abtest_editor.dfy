/** The form state of the A/B test editor dialog
    (apps/web/src/app/modules/campaigns/ab-tests/components/AbTestEditorModal.tsx). The variant list
    operations are functions; the dialog is a class whose fields are the form's state hooks. */
module AbTestEditor {
  import opened Wrappers
  import opened Seqs
  import opened AbTestTypes
  import opened SanityChecks

  const BlankText := Creative("text", None, Some(""))

  function EmptyVariant(name: string, pct: real): VariantInput {
    VariantInput(name, pct, BlankText, "", "", None)
  }

  /** The two variants a new or reset form starts with. */
  const InitialVariants := [EmptyVariant("Contrôle", 50.0), EmptyVariant("Variante A", 50.0)]

  lemma {:induction false} InitialVariantsSplitEvenly()
    ensures |InitialVariants| == 2 && TotalTraffic(InitialVariants) == 100.0
    ensures forall i :: 0 <= i < 2 ==> InitialVariants[i].trafficPercentage == 50.0
  {
    assert InitialVariants[1..][1..] == [];
  }

  function WithPct(v: VariantInput, pct: real): VariantInput { v.(trafficPercentage := pct) }

  /** Every variant at `100 / n`, other fields kept. */
  function EqualShares(vs: seq<VariantInput>): (r: seq<VariantInput>)
    ensures |r| == |vs|
    ensures forall i :: 0 <= i < |vs| ==> r[i] == WithPct(vs[i], 100.0 / |vs| as real)
  {
    seq(|vs|, i requires 0 <= i < |vs| => WithPct(vs[i], 100.0 / |vs| as real))
  }

  lemma {:induction false} SumOfEqualPct(vs: seq<VariantInput>, c: real)
    requires forall i :: 0 <= i < |vs| ==> vs[i].trafficPercentage == c
    ensures TotalTraffic(vs) == |vs| as real * c
    decreases |vs|
  {
    if vs != [] { SumOfEqualPct(vs[1..], c); }
  }

  /** Equal shares of a non-empty list total 100. */
  lemma {:induction false} EqualSharesTotal100(vs: seq<VariantInput>)
    requires |vs| > 0
    ensures TotalTraffic(EqualShares(vs)) == 100.0
  {
    SumOfEqualPct(EqualShares(vs), 100.0 / |vs| as real);
  }

  /** The variant `handleAddVariant` appends: `Variante ${String.fromCharCode(65 + n - 1)}`. */
  function NewVariant(n: nat, pct: real): VariantInput
    requires n < 10
  {
    EmptyVariant("Variante " + [(64 + n) as char], pct)
  }

  /** `handleAddVariant` (offered only while there are fewer than 10 variants). */
  function AddVariant(vs: seq<VariantInput>): (r: seq<VariantInput>)
    requires |vs| < 10
    ensures |r| == |vs| + 1
    ensures forall i :: 0 <= i < |r| ==> r[i].trafficPercentage == 100.0 / (|vs| + 1) as real
    ensures forall i :: 0 <= i < |vs| ==> r[i] == WithPct(vs[i], 100.0 / (|vs| + 1) as real)
    ensures r[|vs|].name == "Variante " + [(64 + |vs|) as char]
  {
    var pct := 100.0 / (|vs| + 1) as real;
    seq(|vs|, i requires 0 <= i < |vs| => WithPct(vs[i], pct)) + [NewVariant(|vs|, pct)]
  }

  /** `variants.filter((_, i) => i !== index)` */
  function RemoveAt(vs: seq<VariantInput>, index: nat): (r: seq<VariantInput>)
    ensures index < |vs| ==> |r| == |vs| - 1
    ensures index >= |vs| ==> r == vs
  {
    if index < |vs| then vs[..index] + vs[index + 1..] else vs
  }

  /** `handleRemoveVariant(index)` */
  function RemoveVariant(vs: seq<VariantInput>, index: nat): (r: seq<VariantInput>)
    ensures |vs| <= 2 ==> r == vs
    ensures |vs| > 2 ==> r == EqualShares(RemoveAt(vs, index)) && |r| >= 2
  {
    if |vs| <= 2 then vs else EqualShares(RemoveAt(vs, index))
  }

  /** Removing the variant just added gives back the original variants, evenly split. */
  lemma {:induction false} AddThenRemoveLast(vs: seq<VariantInput>)
    requires 2 <= |vs| < 10
    ensures RemoveVariant(AddVariant(vs), |vs|) == EqualShares(vs)
  {
    var added := AddVariant(vs);
    assert RemoveAt(added, |vs|) == added[..|vs|];
    var r := RemoveVariant(added, |vs|);
    forall i | 0 <= i < |vs| ensures r[i] == EqualShares(vs)[i] {
      assert WithPct(WithPct(vs[i], 100.0 / (|vs| + 1) as real), 100.0 / |vs| as real) == WithPct(vs[i], 100.0 / |vs| as real);
    }
  }

  /** `handleVariantChange(index, variant)` on a copy of the list. */
  function ChangeVariant(vs: seq<VariantInput>, index: nat, v: VariantInput): (r: seq<VariantInput>)
    requires index < |vs|
    ensures |r| == |vs| && r[index] == v
    ensures forall i :: 0 <= i < |vs| && i != index ==> r[i] == vs[i]
  {
    vs[index := v]
  }

  /** `x || d` for a number. */
  function OrNumber(x: Option<real>, d: real): real {
    if x.Some? && x.value != 0.0 then x.value else d
  }

  /** How the awaited `onSave` ends: it resolves or throws (an `Error` with a message, or another value). */
  datatype SaveOutcome = Saved | Threw(message: Option<string>)

  /** `errors.map(e => e.message)` */
  function Messages(es: seq<ValidationError>): (r: seq<string>)
    ensures |r| == |es|
  {
    seq(|es|, i requires 0 <= i < |es| => es[i].message)
  }

  /** What `handleSave` leads to: the input passed to `onSave` (if it is called), whether `onClose`
      runs, and the error messages shown afterwards. */
  datatype SaveResult = SaveResult(submitted: Option<CreateAbTestInput>, closed: bool, errors: seq<string>)

  const SaveFailed := "Échec de la sauvegarde"

  function Save(input: CreateAbTestInput, outcome: SaveOutcome): SaveResult {
    var validationErrors := AbTestErrors(input);
    if |validationErrors| > 0 then SaveResult(None, false, Messages(validationErrors))
    else if outcome.Saved? then SaveResult(Some(input), true, [])
    else SaveResult(Some(input), false, [outcome.message.GetOr(SaveFailed)])
  }

  /** `onSave` is reached exactly when validation finds nothing, and then with the form's input; the
      dialog closes exactly when it resolves. A rejected form shows every validation message. */
  lemma {:induction false} SaveGatedByValidation(input: CreateAbTestInput, outcome: SaveOutcome)
    ensures Save(input, outcome).submitted.Some? <==> AbTestErrors(input) == []
    ensures Save(input, outcome).submitted.Some? ==> Save(input, outcome).submitted.value == input
    ensures Save(input, outcome).closed <==> AbTestErrors(input) == [] && outcome.Saved?
    ensures AbTestErrors(input) != [] ==>
      Save(input, outcome).errors == Messages(AbTestErrors(input)) && |Save(input, outcome).errors| > 0
    ensures AbTestErrors(input) == [] ==>
      Save(input, outcome).errors == (if outcome.Saved? then [] else [outcome.message.GetOr(SaveFailed)])
  {
  }

  /** The steps of `handleSave` once the input is built: validate, then await `onSave` and close, or
      show the failure. */
  method SaveSteps(input: CreateAbTestInput, outcome: SaveOutcome) returns (r: SaveResult)
    ensures r == Save(input, outcome)
  {
    var validationErrors := ValidateAbTest(input);
    if |validationErrors| > 0 {
      return SaveResult(None, false, Messages(validationErrors));
    }
    var errors := [];
    if outcome.Saved? {
      r := SaveResult(Some(input), true, errors);
    } else {
      errors := [outcome.message.GetOr(SaveFailed)];
      r := SaveResult(Some(input), false, errors);
    }
  }

  class Dialog {
    var currentTab: string
    var isSaving: bool
    var errors: seq<string>
    var name: string
    var description: string
    var campaignId: string
    var channel: string
    var variants: seq<VariantInput>
    var targetMetric: string
    var duration: real
    var sampleSize: real

    predicate IsReset()
      reads this
    {
      name == "" && description == "" && campaignId == "" && channel == "email"
      && variants == InitialVariants && targetMetric == "ctr" && duration == 14.0 && sampleSize == 10000.0
      && currentTab == "basic" && errors == []
    }

    constructor()
      ensures IsReset() && !isSaving
    {
      currentTab, isSaving, errors := "basic", false, [];
      name, description, campaignId, channel := "", "", "", "email";
      variants, targetMetric, duration, sampleSize := InitialVariants, "ctr", 14.0, 10000.0;
    }

    /** The effect that runs when the dialog opens or `editingTest` changes. */
    method Initialize(editingTest: Option<AbTest>)
      modifies this
      ensures editingTest.None? ==> IsReset()
      ensures editingTest.Some? ==>
        var t := editingTest.value;
        name == t.name && description == t.description.GetOr("") && campaignId == t.campaignId
        && channel == t.channel && variants == Map(t.variants, Strip) && targetMetric == t.targetMetric
        && duration == OrNumber(t.duration, 14.0) && sampleSize == OrNumber(t.sampleSize, 10000.0)
        && currentTab == "basic" && errors == []
      ensures isSaving == old(isSaving)
    {
      if editingTest.Some? {
        var t := editingTest.value;
        name, description, campaignId, channel := t.name, t.description.GetOr(""), t.campaignId, t.channel;
        variants, targetMetric := Map(t.variants, Strip), t.targetMetric;
        duration, sampleSize := OrNumber(t.duration, 14.0), OrNumber(t.sampleSize, 10000.0);
      } else {
        name, description, campaignId, channel := "", "", "", "email";
        variants, targetMetric, duration, sampleSize := InitialVariants, "ctr", 14.0, 10000.0;
      }
      currentTab := "basic";
      errors := [];
    }

    method HandleAddVariant()
      requires |variants| < 10
      modifies this`variants
      ensures variants == AddVariant(old(variants))
    {
      variants := AddVariant(variants);
    }

    method HandleRemoveVariant(index: nat)
      modifies this`variants
      ensures variants == RemoveVariant(old(variants), index)
    {
      if |variants| <= 2 {
        return;
      }
      variants := EqualShares(RemoveAt(variants, index));
    }

    method HandleVariantChange(index: nat, v: VariantInput)
      requires index < |variants|
      modifies this`variants
      ensures variants == ChangeVariant(old(variants), index, v)
    {
      var newVariants := variants;
      newVariants := newVariants[index := v];
      variants := newVariants;
    }

    /** The input `handleSave` builds; an empty description is left out. */
    function Input(): CreateAbTestInput
      reads this
    {
      CreateAbTestInput(name, if description == "" then None else Some(description), campaignId, channel,
        variants, targetMetric, Some(duration), Some(sampleSize), None)
    }

    /** `handleSave`: `onSave` is called, with the returned input, only when validation finds nothing;
        `closed` says whether `onClose` ran. */
    method HandleSave(outcome: SaveOutcome) returns (submitted: Option<CreateAbTestInput>, closed: bool)
      modifies this`errors, this`isSaving
      ensures SaveResult(submitted, closed, errors) == Save(old(Input()), outcome) && !isSaving
    {
      var r := SaveSteps(Input(), outcome);
      submitted, closed, errors, isSaving := r.submitted, r.closed, r.errors, false;
    }
  }

  /** A form without a name never reaches `onSave`. */
  lemma {:induction false} BlankNameRejected(input: CreateAbTestInput, outcome: SaveOutcome)
    requires Blank(input.name)
    ensures Save(input, outcome).submitted.None? && !Save(input, outcome).closed
    ensures "Test name is required" in Save(input, outcome).errors
  {
    var b := BasicErrors(input);
    assert b[0] == ValidationError("name", "Test name is required");
    assert AbTestErrors(input)[0] == b[0];
    assert Messages(AbTestErrors(input))[0] == "Test name is required";
  }

  /** Saving a fresh dialog shows the errors and leaves it open. */
  method SaveScenario() returns (submitted: Option<CreateAbTestInput>, closed: bool, shown: seq<string>)
    ensures submitted.None? && !closed && "Test name is required" in shown
  {
    var dialog := new Dialog();
    assert Blank(dialog.Input().name);
    BlankNameRejected(dialog.Input(), Saved);
    submitted, closed := dialog.HandleSave(Saved);
    shown := dialog.errors;
  }

  /** Adding a variant to a fresh dialog gives three equal shares totalling 100, the new one named
      "Variante B"; removing it brings back two halves. */
  method AddRemoveScenario() returns (count: nat, third: string, total: real, after: seq<real>)
    ensures count == 3 && third == "Variante B" && total == 100.0
    ensures after == [50.0, 50.0]
  {
    var dialog := new Dialog();
    dialog.HandleAddVariant();
    count := |dialog.variants|;
    third := dialog.variants[2].name;
    assert (64 + 2) as char == 'B';
    EqualSharesTotal100(dialog.variants);
    assert EqualShares(dialog.variants) == dialog.variants;
    total := TotalTraffic(dialog.variants);
    AddThenRemoveLast(InitialVariants);
    dialog.HandleRemoveVariant(2);
    after := [dialog.variants[0].trafficPercentage, dialog.variants[1].trafficPercentage];
  }
}
