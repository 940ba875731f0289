/** The campaign creation store of apps/web/src/app/modules/campaigns/create/stores/campaignStore.ts.
    The store's fields are one state record held by a class; each action is a method that replaces
    it with the value of a pure function of the old state. `new Date()` is the `now` argument of
    `saveProgress`; the untyped template is a JSON value. */
module CampaignStore {
  import opened Wrappers
  import opened Seqs
  import opened JsNumber
  import opened CreateTypes
  import opened WizardValidators

  datatype CampaignState = CampaignState(
    template: Option<Json>, basicInfo: Option<BasicInfoStep>, creatives: Option<CreativesStep>,
    audience: Option<AudienceStep>, planning: Option<PlanningStep>, tracking: Option<TrackingStep>,
    stepValidation: map<string, bool>, currentStep: int, completedSteps: seq<string>,
    aiCredits: real, isGenerating: bool, generationError: Option<string>,
    lastSaved: Option<nat>, isPublishing: bool, publishingProgress: real)

  const InitialState :=
    CampaignState(None, None, None, None, None, None, map[], 0, [], 10.0, false, None, None, false, 0.0)

  /** The initial store holds ten credits, starts at step 0 with nothing completed or validated,
      and is neither generating nor publishing. */
  lemma {:induction false} InitialStateFacts()
    ensures InitialState.aiCredits == 10.0 && InitialState.currentStep == 0
    ensures InitialState.completedSteps == [] && InitialState.stepValidation == map[]
    ensures !InitialState.isGenerating && !InitialState.isPublishing && InitialState.publishingProgress == 0.0
  {
  }

  /** `completeStep`: append unless present. */
  function CompleteStep(st: CampaignState, stepId: string): CampaignState {
    st.(completedSteps := AddUnique(st.completedSteps, stepId))
  }

  lemma {:induction false} CompleteStepEffect(st: CampaignState, stepId: string)
    ensures var r := CompleteStep(st, stepId);
      && (forall s :: s in r.completedSteps <==> s in st.completedSteps || s == stepId)
      && (stepId in st.completedSteps ==> r == st)
      && (stepId !in st.completedSteps ==> r.completedSteps == st.completedSteps + [stepId])
      && r == st.(completedSteps := r.completedSteps)
    ensures CompleteStep(CompleteStep(st, stepId), stepId) == CompleteStep(st, stepId)
    ensures NoDuplicates(st.completedSteps) ==> NoDuplicates(CompleteStep(st, stepId).completedSteps)
  {
    if NoDuplicates(st.completedSteps) {
      AddUniqueKeepsNoDuplicates(st.completedSteps, stepId);
    }
  }

  /** `setStepValidation`: `{ ...stepValidation, [step]: isValid }`. */
  function SetStepValidation(st: CampaignState, step: string, isValid: bool): CampaignState {
    st.(stepValidation := st.stepValidation[step := isValid])
  }

  /** Only the given key changes: it now holds the new flag, every other key keeps its flag, and no
      key appears or disappears except the given one. */
  lemma {:induction false} SetStepValidationEffect(st: CampaignState, step: string, isValid: bool)
    ensures var r := SetStepValidation(st, step, isValid);
      && r.stepValidation[step] == isValid
      && r.stepValidation.Keys == st.stepValidation.Keys + {step}
      && (forall k :: k in st.stepValidation && k != step ==> r.stepValidation[k] == st.stepValidation[k])
      && r == st.(stepValidation := r.stepValidation)
  {
  }

  /** `useAiCredits`: `Math.max(0, aiCredits - amount)`. */
  function UseAiCredits(st: CampaignState, amount: real): CampaignState {
    st.(aiCredits := MaxReal(0.0, st.aiCredits - amount))
  }

  /** Spending never leaves the credits negative: an affordable amount is subtracted, a larger one
      empties the credits. Two non-negative spends are one spend of their sum. */
  lemma {:induction false} UseAiCreditsEffect(st: CampaignState, amount: real, more: real)
    ensures var r := UseAiCredits(st, amount);
      && r.aiCredits >= 0.0
      && (amount <= st.aiCredits ==> r.aiCredits == st.aiCredits - amount)
      && (amount >= st.aiCredits ==> r.aiCredits == 0.0)
      && r == st.(aiCredits := r.aiCredits)
    ensures amount >= 0.0 && more >= 0.0 ==>
      UseAiCredits(UseAiCredits(st, amount), more) == UseAiCredits(st, amount + more)
  {
  }

  /** `resetCampaign`: the step data, validation, navigation, publication, save time and error are
      cleared; the credits and the generating flag are kept. */
  function ResetCampaign(st: CampaignState): CampaignState {
    st.(template := None, basicInfo := None, creatives := None, audience := None, planning := None,
        tracking := None, stepValidation := map[], currentStep := 0, completedSteps := [],
        isPublishing := false, publishingProgress := 0.0, lastSaved := None, generationError := None)
  }

  /** A reset store is the initial store with the old credits and generating flag; resetting twice
      is resetting once. */
  lemma {:induction false} ResetCampaignEffect(st: CampaignState)
    ensures ResetCampaign(st) == InitialState.(aiCredits := st.aiCredits, isGenerating := st.isGenerating)
    ensures ResetCampaign(ResetCampaign(st)) == ResetCampaign(st)
    ensures ResetCampaign(UseAiCredits(st, 1.0)).aiCredits == MaxReal(0.0, st.aiCredits - 1.0)
  {
  }

  /** `Partial<CampaignState>`: an absent key is `None`. */
  datatype CampaignPatch = CampaignPatch(
    template: Option<Json>, basicInfo: Option<BasicInfoStep>, creatives: Option<CreativesStep>,
    audience: Option<AudienceStep>, planning: Option<PlanningStep>, tracking: Option<TrackingStep>,
    stepValidation: Option<map<string, bool>>, currentStep: Option<int>, completedSteps: Option<seq<string>>,
    aiCredits: Option<real>, isGenerating: Option<bool>, generationError: Option<Option<string>>,
    lastSaved: Option<nat>, isPublishing: Option<bool>, publishingProgress: Option<real>)

  function Over<T>(a: Option<T>, b: Option<T>): Option<T> {
    if b.Some? then b else a
  }

  function GetOr<T>(a: T, b: Option<T>): T {
    if b.Some? then b.value else a
  }

  /** `updateStepData`: `{ ...state, ...stepData }`. */
  function UpdateStepData(st: CampaignState, p: CampaignPatch): CampaignState {
    CampaignState(
      Over(st.template, p.template), Over(st.basicInfo, p.basicInfo), Over(st.creatives, p.creatives),
      Over(st.audience, p.audience), Over(st.planning, p.planning), Over(st.tracking, p.tracking),
      GetOr(st.stepValidation, p.stepValidation), GetOr(st.currentStep, p.currentStep),
      GetOr(st.completedSteps, p.completedSteps), GetOr(st.aiCredits, p.aiCredits),
      GetOr(st.isGenerating, p.isGenerating), GetOr(st.generationError, p.generationError),
      Over(st.lastSaved, p.lastSaved), GetOr(st.isPublishing, p.isPublishing),
      GetOr(st.publishingProgress, p.publishingProgress))
  }

  const EmptyCampaignPatch :=
    CampaignPatch(None, None, None, None, None, None, None, None, None, None, None, None, None, None, None)

  /** An empty update changes nothing; a present key wins; applying the same update twice is
      applying it once. */
  lemma {:induction false} UpdateStepDataEffect(st: CampaignState, p: CampaignPatch)
    ensures UpdateStepData(st, EmptyCampaignPatch) == st
    ensures var r := UpdateStepData(st, p);
      && (p.basicInfo.Some? ==> r.basicInfo == p.basicInfo) && (p.basicInfo.None? ==> r.basicInfo == st.basicInfo)
      && (p.aiCredits.Some? ==> r.aiCredits == p.aiCredits.value) && (p.aiCredits.None? ==> r.aiCredits == st.aiCredits)
      && (p.currentStep.Some? ==> r.currentStep == p.currentStep.value) && (p.currentStep.None? ==> r.currentStep == st.currentStep)
    ensures UpdateStepData(UpdateStepData(st, p), p) == UpdateStepData(st, p)
  {
  }

  /** The object `getCampaignSummary` returns. */
  datatype CampaignSummary = CampaignSummary(
    template: Option<Json>, basicInfo: Option<BasicInfoStep>, creatives: Option<CreativesStep>,
    audience: Option<AudienceStep>, planning: Option<PlanningStep>, tracking: Option<TrackingStep>,
    validation: map<string, bool>, currentStep: int, completedSteps: seq<string>)

  function GetCampaignSummary(st: CampaignState): CampaignSummary {
    CampaignSummary(st.template, st.basicInfo, st.creatives, st.audience, st.planning, st.tracking,
                    st.stepValidation, st.currentStep, st.completedSteps)
  }

  /** Two stores have the same summary exactly when their step data, validation, current step and
      completed steps agree: the credits, flags, progress, error and save time are not part of it. */
  lemma {:induction false} SummaryExactly(a: CampaignState, b: CampaignState)
    ensures GetCampaignSummary(a) == GetCampaignSummary(b) <==>
      (&& a.template == b.template && a.basicInfo == b.basicInfo && a.creatives == b.creatives
       && a.audience == b.audience && a.planning == b.planning && a.tracking == b.tracking
       && a.stepValidation == b.stepValidation && a.currentStep == b.currentStep
       && a.completedSteps == b.completedSteps)
    ensures GetCampaignSummary(UseAiCredits(a, 1.0)) == GetCampaignSummary(a)
    ensures GetCampaignSummary(ResetCampaign(a)) == GetCampaignSummary(InitialState)
  {
  }

  class Store {
    var state: CampaignState

    constructor ()
      ensures state == InitialState
    {
      state := InitialState;
    }

    method SetTemplate(data: Json)
      modifies this
      ensures state == old(state).(template := Some(data))
    {
      state := state.(template := Some(data));
    }

    method SetBasicInfo(data: BasicInfoStep)
      modifies this
      ensures state == old(state).(basicInfo := Some(data))
    {
      state := state.(basicInfo := Some(data));
    }

    method SetCreatives(data: CreativesStep)
      modifies this
      ensures state == old(state).(creatives := Some(data))
    {
      state := state.(creatives := Some(data));
    }

    method SetAudience(data: AudienceStep)
      modifies this
      ensures state == old(state).(audience := Some(data))
    {
      state := state.(audience := Some(data));
    }

    method SetPlanning(data: PlanningStep)
      modifies this
      ensures state == old(state).(planning := Some(data))
    {
      state := state.(planning := Some(data));
    }

    method SetTracking(data: TrackingStep)
      modifies this
      ensures state == old(state).(tracking := Some(data))
    {
      state := state.(tracking := Some(data));
    }

    /** `setCurrentStep` and `goToStep` */
    method SetCurrentStep(step: int)
      modifies this
      ensures state == old(state).(currentStep := step)
    {
      state := state.(currentStep := step);
    }

    method CompleteStepAction(stepId: string)
      modifies this
      ensures state == CompleteStep(old(state), stepId)
    {
      state := CompleteStep(state, stepId);
    }

    method SetStepValidationAction(step: string, isValid: bool)
      modifies this
      ensures state == SetStepValidation(old(state), step, isValid)
    {
      state := SetStepValidation(state, step, isValid);
    }

    method SetAiCredits(credits: real)
      modifies this
      ensures state == old(state).(aiCredits := credits)
    {
      state := state.(aiCredits := credits);
    }

    method UseAiCreditsAction(amount: real)
      modifies this
      ensures state == UseAiCredits(old(state), amount)
    {
      state := UseAiCredits(state, amount);
    }

    method SetGenerating(isGenerating: bool)
      modifies this
      ensures state == old(state).(isGenerating := isGenerating)
    {
      state := state.(isGenerating := isGenerating);
    }

    method SetGenerationError(error: Option<string>)
      modifies this
      ensures state == old(state).(generationError := error)
    {
      state := state.(generationError := error);
    }

    method SetPublishing(isPublishing: bool)
      modifies this
      ensures state == old(state).(isPublishing := isPublishing)
    {
      state := state.(isPublishing := isPublishing);
    }

    method SetPublishingProgress(progress: real)
      modifies this
      ensures state == old(state).(publishingProgress := progress)
    {
      state := state.(publishingProgress := progress);
    }

    method SaveProgress(now: nat)
      modifies this
      ensures state == old(state).(lastSaved := Some(now))
    {
      state := state.(lastSaved := Some(now));
    }

    method ResetCampaignAction()
      modifies this
      ensures state == ResetCampaign(old(state))
    {
      state := ResetCampaign(state);
    }

    method UpdateStepDataAction(p: CampaignPatch)
      modifies this
      ensures state == UpdateStepData(old(state), p)
    {
      state := UpdateStepData(state, p);
    }

    method GetCampaignSummaryAction() returns (s: CampaignSummary)
      ensures s == GetCampaignSummary(state)
    {
      s := GetCampaignSummary(state);
    }
  }

  /** A session spends three credits, completes `basic_info` twice and validates it, then resets:
      seven credits remain, and the summary is that of a fresh store. Spending twenty more leaves
      zero credits. */
  method ResetScenario(info: BasicInfoStep) returns (credits: real, completed: seq<string>, summary: CampaignSummary, after: real)
    ensures credits == 7.0 && completed == [] && summary == GetCampaignSummary(InitialState) && after == 0.0
  {
    var store := new Store();
    store.SetBasicInfo(info);
    store.UseAiCreditsAction(3.0);
    store.CompleteStepAction("basic_info");
    store.CompleteStepAction("basic_info");
    assert store.state.completedSteps == ["basic_info"];
    store.SetStepValidationAction("basic_info", true);
    store.SetCurrentStep(1);
    store.ResetCampaignAction();
    credits, completed := store.state.aiCredits, store.state.completedSteps;
    summary := store.GetCampaignSummaryAction();
    store.UseAiCreditsAction(20.0);
    after := store.state.aiCredits;
  }
}
