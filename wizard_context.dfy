/** The wizard context of apps/web/src/app/modules/campaigns/create/context/WizardContext.tsx: the
    reducer, the navigation rule and the progress formula, and the provider that dispatches actions
    and keeps a draft under one storage key. `new Date().toISOString()` is the `now` argument of the
    save action; the storage is a field holding the last draft written; the JSON round trip through
    it keeps the state as it is. */
module WizardContext {
  import opened Wrappers
  import opened Seqs
  import opened JsNumber
  import opened CreateTypes
  import opened WizardValidators

  /** `Partial<WizardData>`: an absent key is `None`. */
  datatype WizardPatch = WizardPatch(
    template: Option<Option<TemplateData>>, basicInfo: Option<BasicInfoStep>, creatives: Option<CreativesStep>,
    audience: Option<AudienceStep>, planning: Option<PlanningStep>, tracking: Option<TrackingStep>,
    validation: Option<ValidationStep>)

  const EmptyPatch := WizardPatch(None, None, None, None, None, None, None)

  /** The value of `b` when present, else that of `a`. */
  function Over<T>(a: Option<T>, b: Option<T>): Option<T> {
    if b.Some? then b else a
  }

  /** `{ ...data, ...stepData }` */
  function Merge(data: WizardPatch, stepData: WizardPatch): WizardPatch {
    WizardPatch(Over(data.template, stepData.template), Over(data.basicInfo, stepData.basicInfo),
                Over(data.creatives, stepData.creatives), Over(data.audience, stepData.audience),
                Over(data.planning, stepData.planning), Over(data.tracking, stepData.tracking),
                Over(data.validation, stepData.validation))
  }

  /** The keys of the new data win, the other keys keep their value; merging is associative, the
      empty object is neutral on both sides, and merging the same data twice is merging it once. */
  lemma {:induction false} MergeLaws(a: WizardPatch, b: WizardPatch, c: WizardPatch)
    ensures var m := Merge(a, b);
      && (b.basicInfo.Some? ==> m.basicInfo == b.basicInfo) && (b.basicInfo.None? ==> m.basicInfo == a.basicInfo)
      && (b.planning.Some? ==> m.planning == b.planning) && (b.planning.None? ==> m.planning == a.planning)
      && (b.tracking.Some? ==> m.tracking == b.tracking) && (b.tracking.None? ==> m.tracking == a.tracking)
    ensures Merge(Merge(a, b), c) == Merge(a, Merge(b, c))
    ensures Merge(a, EmptyPatch) == a && Merge(EmptyPatch, a) == a
    ensures Merge(Merge(a, b), b) == Merge(a, b)
  {
  }

  datatype State = State(
    currentStep: WizardStep, data: WizardPatch, completedSteps: seq<WizardStep>, isValid: bool,
    isDirty: bool, lastSaved: Option<string>)

  const InitialState := State(TemplateStep, EmptyPatch, [], false, false, None)

  /** `WizardAction`; `Unknown` is any other action type. */
  datatype Action =
    | SetStep(step: WizardStep)
    | UpdateData(stepData: WizardPatch)
    | CompleteStep(completed: WizardStep)
    | SetValidity(isValid: bool)
    | SaveDraft(now: string)
    | LoadDraft(loaded: State)
    | Unknown(actionType: string)

  /** `wizardReducer` */
  function Reduce(st: State, a: Action): State {
    match a
    case SetStep(s) => st.(currentStep := s)
    case UpdateData(d) => st.(data := Merge(st.data, d), isDirty := true)
    case CompleteStep(s) => st.(completedSteps := AddUnique(st.completedSteps, s))
    case SetValidity(v) => st.(isValid := v)
    case SaveDraft(now) => st.(isDirty := false, lastSaved := Some(now))
    case LoadDraft(loaded) => loaded
    case Unknown(_) => st
  }

  /** What each action changes, and that it changes nothing else. */
  lemma {:induction false} ReduceEffect(st: State, a: Action)
    ensures a.SetStep? ==> Reduce(st, a) == st.(currentStep := a.step)
    ensures a.SetValidity? ==> Reduce(st, a) == st.(isValid := a.isValid)
    ensures a.UpdateData? ==> var r := Reduce(st, a);
      && r.isDirty && r.data == Merge(st.data, a.stepData)
      && r == st.(data := r.data, isDirty := true)
    ensures a.CompleteStep? ==> var r := Reduce(st, a);
      && a.completed in r.completedSteps
      && (forall s :: s in r.completedSteps <==> s in st.completedSteps || s == a.completed)
      && r == st.(completedSteps := r.completedSteps)
    ensures a.SaveDraft? ==> var r := Reduce(st, a);
      !r.isDirty && r.lastSaved == Some(a.now) && r == st.(isDirty := false, lastSaved := r.lastSaved)
    ensures a.LoadDraft? ==> Reduce(st, a) == a.loaded
    ensures a.Unknown? ==> Reduce(st, a) == st
  {
  }

  /** Completing a step twice is completing it once, and completing steps never duplicates one. */
  lemma {:induction false} CompleteStepIdempotent(st: State, s: WizardStep)
    ensures Reduce(Reduce(st, CompleteStep(s)), CompleteStep(s)) == Reduce(st, CompleteStep(s))
    ensures NoDuplicates(st.completedSteps) ==> NoDuplicates(Reduce(st, CompleteStep(s)).completedSteps)
  {
    if NoDuplicates(st.completedSteps) {
      AddUniqueKeepsNoDuplicates(st.completedSteps, s);
    }
  }

  /** The reducer applied to a sequence of actions, first to last. */
  function ReduceAll(st: State, actions: seq<Action>): State
    decreases |actions|
  {
    if actions == [] then st else ReduceAll(Reduce(st, actions[0]), actions[1..])
  }

  predicate LoadsDuplicateFree(actions: seq<Action>) {
    forall a :: a in actions && a.LoadDraft? ==> NoDuplicates(a.loaded.completedSteps)
  }

  /** The completed steps stay free of duplicates through any run of actions, as long as every
      loaded draft is. */
  lemma {:induction false} ReduceAllNoDuplicates(st: State, actions: seq<Action>)
    requires NoDuplicates(st.completedSteps) && LoadsDuplicateFree(actions)
    ensures NoDuplicates(ReduceAll(st, actions).completedSteps)
    decreases |actions|
  {
    if actions != [] {
      var a := actions[0];
      assert a in actions;
      if a.CompleteStep? {
        CompleteStepIdempotent(st, a.completed);
      }
      assert forall b :: b in actions[1..] ==> b in actions;
      ReduceAllNoDuplicates(Reduce(st, a), actions[1..]);
    }
  }

  /** The order `canNavigateToStep` uses; `template` is not in it. */
  const StepOrder: seq<WizardStep> := [BasicInfo, Creative, Audience, ScheduleBudget, Tracking, Review]

  /** `stepOrder.indexOf(step)`: -1 when absent. */
  function IndexOf(s: WizardStep): (r: int)
    ensures -1 <= r < |StepOrder|
    ensures r == -1 <==> s !in StepOrder
    ensures r >= 0 ==> StepOrder[r] == s
  {
    match s
    case TemplateStep => -1
    case BasicInfo => 0
    case Creative => 1
    case Audience => 2
    case ScheduleBudget => 3
    case Tracking => 4
    case Review => 5
  }

  /** `canNavigateToStep`: back to any earlier step, or forward by exactly one. */
  function CanNavigateToStep(current: WizardStep, target: WizardStep): bool {
    IndexOf(target) <= IndexOf(current) + 1
  }

  /** The navigation rule: going back or staying is always allowed, one step forward is allowed,
      two or more are not; `template` can always be reached, and from it only `basic_info`
      lies ahead. */
  lemma {:induction false} NavigationRule(current: WizardStep, target: WizardStep)
    ensures CanNavigateToStep(current, TemplateStep)
    ensures CanNavigateToStep(current, current)
    ensures current == TemplateStep ==> (CanNavigateToStep(current, target) <==> target in {TemplateStep, BasicInfo})
    ensures forall i, j :: 0 <= i < |StepOrder| && 0 <= j < |StepOrder| ==>
      (CanNavigateToStep(StepOrder[i], StepOrder[j]) <==> j <= i + 1)
  {
  }

  /** `isStepCompleted` */
  predicate IsStepCompleted(st: State, s: WizardStep) {
    s in st.completedSteps
  }

  /** After completing a step it is completed, and so is every step completed before; no other step
      becomes completed. */
  lemma {:induction false} CompletedAfterCompleteStep(st: State, s: WizardStep, t: WizardStep)
    ensures IsStepCompleted(Reduce(st, CompleteStep(s)), t) <==> t == s || IsStepCompleted(st, t)
  {
    ReduceEffect(st, CompleteStep(s));
  }

  /** `getStepProgress`: completed steps out of six, as a rounded percentage. */
  function GetStepProgress(completedSteps: seq<WizardStep>): (r: int)
    ensures r >= 0
    ensures (r as real - 0.5) * 6.0 <= |completedSteps| as real * 100.0 < (r as real + 0.5) * 6.0
  {
    Round(|completedSteps| as real / 6.0 * 100.0)
  }

  /** A step list without duplicates has at most seven entries, the size of the step union. */
  lemma {:induction false} AtMostSevenSteps(s: seq<WizardStep>)
    requires NoDuplicates(s)
    ensures |s| <= 7
  {
    var all := {TemplateStep, BasicInfo, Creative, Audience, ScheduleBudget, Tracking, Review};
    forall x: WizardStep ensures x in all {
      match x
      case TemplateStep =>
      case BasicInfo =>
      case Creative =>
      case Audience =>
      case ScheduleBudget =>
      case Tracking =>
      case Review =>
    }
    DistinctCardinality(s, all);
  }

  /** A duplicate-free list whose elements all lie in `u` is no longer than `u` is large. */
  lemma {:induction false} DistinctCardinality<T>(s: seq<T>, u: set<T>)
    requires NoDuplicates(s) && forall x :: x in s ==> x in u
    ensures |s| <= |u|
    decreases |s|
  {
    if s != [] {
      var x := s[|s| - 1];
      var init := s[..|s| - 1];
      assert forall y :: y in init ==> y in s && y != x;
      DistinctCardinality(init, u - {x});
    }
  }

  /** The progress of the six numbered steps is 100; with `template` completed as well it passes
      100, since the formula divides by six while seven steps can be completed. Duplicate-free
      completions never give more than 117. */
  lemma {:induction false} StepProgressRange(completedSteps: seq<WizardStep>)
    requires NoDuplicates(completedSteps)
    ensures 0 <= GetStepProgress(completedSteps) <= 117
    ensures GetStepProgress(StepOrder) == 100
    ensures GetStepProgress([TemplateStep] + StepOrder) == 117
  {
    AtMostSevenSteps(completedSteps);
  }

  /** `WizardProvider`: the reducer's state and the stored draft. */
  class Provider {
    var state: State
    var storage: Option<State>

    /** The provider starts from the initial state and loads the stored draft, if any. */
    constructor (stored: Option<State>)
      ensures storage == stored
      ensures state == if stored.Some? then stored.value else InitialState
    {
      storage := stored;
      state := InitialState;
      new;
      LoadDraftAction();
    }

    method Dispatch(a: Action)
      modifies this`state
      ensures state == Reduce(old(state), a)
    {
      state := Reduce(state, a);
    }

    method SetCurrentStep(s: WizardStep)
      modifies this`state
      ensures state == Reduce(old(state), SetStep(s))
    {
      Dispatch(SetStep(s));
    }

    method UpdateStepData(stepData: WizardPatch)
      modifies this`state
      ensures state == Reduce(old(state), UpdateData(stepData))
    {
      Dispatch(UpdateData(stepData));
    }

    method CompleteStepAction(s: WizardStep)
      modifies this`state
      ensures state == Reduce(old(state), CompleteStep(s))
    {
      Dispatch(CompleteStep(s));
    }

    method SetStepValidity(isValid: bool)
      modifies this`state
      ensures state == Reduce(old(state), SetValidity(isValid))
    {
      Dispatch(SetValidity(isValid));
    }

    /** `saveDraft` and `saveProgress`: the state as it was before the save is stored, then the
        save is dispatched. */
    method SaveDraftAction(now: string)
      modifies this
      ensures storage == Some(old(state))
      ensures state == Reduce(old(state), SaveDraft(now))
    {
      storage := Some(state);
      Dispatch(SaveDraft(now));
    }

    /** `loadDraft`: a stored draft replaces the state; without one nothing changes. */
    method LoadDraftAction()
      modifies this`state
      ensures storage.Some? ==> state == storage.value
      ensures storage.None? ==> state == old(state)
    {
      if storage.Some? {
        Dispatch(LoadDraft(storage.value));
      }
    }
  }

  /** A draft is saved at `basic_info`, the wizard moves on, and the draft is loaded back: the step
      returns, and since the stored copy was taken before the save action, the loaded state is
      dirty again and carries no save time. */
  method SaveLoadScenario(patch: WizardPatch) returns (step: WizardStep, dirty: bool, saved: Option<string>, progress: int)
    ensures step == BasicInfo && dirty && saved == None && progress == 17
  {
    var p := new Provider(None);
    p.SetCurrentStep(BasicInfo);
    p.UpdateStepData(patch);
    p.CompleteStepAction(BasicInfo);
    p.SaveDraftAction("2024-01-01T00:00:00.000Z");
    p.SetCurrentStep(Creative);
    p.CompleteStepAction(BasicInfo);
    p.LoadDraftAction();
    step, dirty, saved := p.state.currentStep, p.state.isDirty, p.state.lastSaved;
    progress := GetStepProgress(p.state.completedSteps);
  }
}
