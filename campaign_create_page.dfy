/** The navigation and draft state of the campaign creation page
    (apps/web/src/app/modules/campaigns/create/components/CampaignCreatePage.tsx). The page's state
    hooks are the fields of a class and each callback is a method; the draft is a map from the
    campaign's field names to their JSON values, and `JSON.stringify(a) !== JSON.stringify(b)` is
    modelled as inequality of those values, which ignores key order and cannot hold `undefined`.
    The `isInitialRender` reference is a field that the first render clears. */
module CampaignCreatePage {
  import opened Wrappers
  import opened Seqs
  import opened JsNumber
  import opened CreateTypes

  /** The identifier and the optional flag of one entry of `WIZARD_STEPS`. */
  datatype StepConfig = StepConfig(id: WizardStep, optional: bool)

  const WizardSteps: seq<StepConfig> := [
    StepConfig(TemplateStep, true), StepConfig(BasicInfo, false), StepConfig(Creative, false),
    StepConfig(Audience, false), StepConfig(ScheduleBudget, false), StepConfig(Tracking, true),
    StepConfig(Review, false)]

  /** `WIZARD_STEPS.findIndex((step) => step.id === s)`: every step is listed. */
  function StepIndex(s: WizardStep): (r: nat)
    ensures r < |WizardSteps| && WizardSteps[r].id == s
    ensures forall i :: 0 <= i < |WizardSteps| && WizardSteps[i].id == s ==> i == r
  {
    match s
    case TemplateStep => 0
    case BasicInfo => 1
    case Creative => 2
    case Audience => 3
    case ScheduleBudget => 4
    case Tracking => 5
    case Review => 6
  }

  /** `templateId ? ... : ...`: an empty identifier counts as absent. */
  predicate HasTemplateId(templateId: Option<string>) {
    templateId.Some? && templateId.value != ""
  }

  /** The initial `wizardState`. */
  function InitialWizardState(templateId: Option<string>): WizardState {
    var first := if HasTemplateId(templateId) then BasicInfo else TemplateStep;
    WizardState(first, [], [first], false, false)
  }

  lemma {:induction false} InitialWizardStateFacts(templateId: Option<string>)
    ensures var ws := InitialWizardState(templateId);
      && ws.currentStep == (if HasTemplateId(templateId) then BasicInfo else TemplateStep)
      && ws.visitedSteps == [ws.currentStep] && ws.completedSteps == []
      && !ws.isValid && !ws.hasUnsavedChanges
      && Consistent(ws)
  {
  }

  /** What every reachable wizard state satisfies: the current step has been visited, and the
      visited and completed lists hold no duplicates. */
  predicate Consistent(ws: WizardState) {
    ws.currentStep in ws.visitedSteps && NoDuplicates(ws.visitedSteps) && NoDuplicates(ws.completedSteps)
  }

  /** `navigateToStep` */
  function NavigateToStep(ws: WizardState, step: WizardStep): WizardState {
    ws.(currentStep := step, visitedSteps := AddUnique(ws.visitedSteps, step))
  }

  /** Navigating sets the current step and adds it to the visited steps once; nothing else changes,
      and navigating to the same step again changes nothing more. */
  lemma {:induction false} NavigateToStepEffect(ws: WizardState, step: WizardStep)
    ensures var r := NavigateToStep(ws, step);
      && r.currentStep == step
      && (forall s :: s in r.visitedSteps <==> s in ws.visitedSteps || s == step)
      && (step in ws.visitedSteps ==> r.visitedSteps == ws.visitedSteps)
      && r.completedSteps == ws.completedSteps && r.isValid == ws.isValid
      && r.hasUnsavedChanges == ws.hasUnsavedChanges
    ensures NavigateToStep(NavigateToStep(ws, step), step) == NavigateToStep(ws, step)
    ensures Consistent(ws) ==> Consistent(NavigateToStep(ws, step))
  {
    if Consistent(ws) {
      AddUniqueKeepsNoDuplicates(ws.visitedSteps, step);
    }
  }

  /** `nextStep` */
  function NextStep(ws: WizardState): WizardState {
    var i := StepIndex(ws.currentStep);
    if i < |WizardSteps| - 1 then NavigateToStep(ws, WizardSteps[i + 1].id) else ws
  }

  /** `previousStep` */
  function PreviousStep(ws: WizardState): WizardState {
    var i := StepIndex(ws.currentStep);
    if i > 0 then NavigateToStep(ws, WizardSteps[i - 1].id) else ws
  }

  /** At the last step `nextStep` does nothing, at the first `previousStep` does nothing; elsewhere
      each moves exactly one place, and going forward then back returns to the same step. */
  lemma {:induction false} NextPreviousEffect(ws: WizardState)
    ensures ws.currentStep == Review ==> NextStep(ws) == ws
    ensures ws.currentStep == TemplateStep ==> PreviousStep(ws) == ws
    ensures ws.currentStep != Review ==> StepIndex(NextStep(ws).currentStep) == StepIndex(ws.currentStep) + 1
    ensures ws.currentStep != TemplateStep ==> StepIndex(PreviousStep(ws).currentStep) == StepIndex(ws.currentStep) - 1
    ensures ws.currentStep != Review ==> PreviousStep(NextStep(ws)).currentStep == ws.currentStep
    ensures Consistent(ws) ==> Consistent(NextStep(ws)) && Consistent(PreviousStep(ws))
  {
    var i := StepIndex(ws.currentStep);
    if i < |WizardSteps| - 1 {
      NavigateToStepEffect(ws, WizardSteps[i + 1].id);
      NavigateToStepEffect(NextStep(ws), ws.currentStep);
    }
    if i > 0 {
      NavigateToStepEffect(ws, WizardSteps[i - 1].id);
    }
  }

  /** `markStepCompleted` */
  function MarkStepCompleted(ws: WizardState, step: WizardStep): WizardState {
    ws.(completedSteps := AddUnique(ws.completedSteps, step))
  }

  lemma {:induction false} MarkStepCompletedEffect(ws: WizardState, step: WizardStep)
    ensures MarkStepCompleted(MarkStepCompleted(ws, step), step) == MarkStepCompleted(ws, step)
    ensures forall s :: s in MarkStepCompleted(ws, step).completedSteps <==> s in ws.completedSteps || s == step
    ensures MarkStepCompleted(ws, step) == ws.(completedSteps := MarkStepCompleted(ws, step).completedSteps)
    ensures Consistent(ws) ==> Consistent(MarkStepCompleted(ws, step))
  {
    if Consistent(ws) {
      AddUniqueKeepsNoDuplicates(ws.completedSteps, step);
    }
  }

  /** `handleValidationChange`: the same state when the flag does not change. */
  function ValidationChange(ws: WizardState, isValid: bool): WizardState {
    if ws.isValid == isValid then ws else ws.(isValid := isValid)
  }

  lemma {:induction false} ValidationChangeEffect(ws: WizardState, isValid: bool)
    ensures ValidationChange(ws, isValid) == ws.(isValid := isValid)
  {
  }

  function IsRequired(c: StepConfig): bool { !c.optional }

  /** The steps that are not optional. */
  function RequiredSteps(): (r: seq<StepConfig>)
    ensures r == [WizardSteps[1], WizardSteps[2], WizardSteps[3], WizardSteps[4], WizardSteps[6]]
  {
    Filter(WizardSteps, IsRequired)
  }

  function CompletedRequired(completedSteps: seq<WizardStep>): nat {
    |Filter(RequiredSteps(), (c: StepConfig) => c.id in completedSteps)|
  }

  /** The required steps that are completed, counted one by one. */
  function RequiredCount(completedSteps: seq<WizardStep>): (n: nat)
    ensures n == CompletedRequired(completedSteps)
  {
    (if BasicInfo in completedSteps then 1 else 0) + (if Creative in completedSteps then 1 else 0)
    + (if Audience in completedSteps then 1 else 0) + (if ScheduleBudget in completedSteps then 1 else 0)
    + (if Review in completedSteps then 1 else 0)
  }

  /** `calculateProgress`: completed required steps out of the five required ones, rounded. */
  function CalculateProgress(completedSteps: seq<WizardStep>): int {
    Round(RequiredCount(completedSteps) as real / |RequiredSteps()| as real * 100.0)
  }

  /** The progress lies in [0, 100]: it is 0 with no required step done and 100 with all five done. */
  lemma {:induction false} ProgressRange(a: seq<WizardStep>)
    ensures 0 <= CalculateProgress(a) <= 100
    ensures (forall s :: s in a ==> s in {TemplateStep, Tracking}) ==> CalculateProgress(a) == 0
    ensures (forall s :: s !in {TemplateStep, Tracking} ==> s in a) ==> CalculateProgress(a) == 100
  {
    ProgressTimesTwenty(a);
    assert BasicInfo !in {TemplateStep, Tracking} && Creative !in {TemplateStep, Tracking};
    assert Audience !in {TemplateStep, Tracking} && ScheduleBudget !in {TemplateStep, Tracking};
    assert Review !in {TemplateStep, Tracking};
  }

  /** The progress depends only on which required steps are completed, so `template` and
      `tracking` never move it. */
  lemma {:induction false} ProgressOnlyRequired(a: seq<WizardStep>, b: seq<WizardStep>)
    requires forall s :: s !in {TemplateStep, Tracking} ==> (s in a <==> s in b)
    ensures CalculateProgress(a) == CalculateProgress(b)
  {
    assert BasicInfo in a <==> BasicInfo in b;
    assert Creative in a <==> Creative in b;
    assert Audience in a <==> Audience in b;
    assert ScheduleBudget in a <==> ScheduleBudget in b;
    assert Review in a <==> Review in b;
    assert RequiredCount(a) == RequiredCount(b);
  }

  lemma {:induction false} ProgressIgnoresOptional(a: seq<WizardStep>)
    ensures CalculateProgress(a + [TemplateStep, Tracking]) == CalculateProgress(a)
  {
    var c := a + [TemplateStep, Tracking];
    assert forall s :: s in c <==> s in a || s == TemplateStep || s == Tracking;
    ProgressOnlyRequired(a, c);
  }

  lemma {:induction false} ProgressTimesTwenty(c: seq<WizardStep>)
    ensures CalculateProgress(c) == 20 * RequiredCount(c)
  {
    var n := RequiredCount(c);
    assert |RequiredSteps()| == 5;
    assert n as real / 5.0 * 100.0 == (20 * n) as real;
  }

  /** The step button: disabled when the step is neither visited nor current. */
  predicate IsStepDisabled(ws: WizardState, step: WizardStep) {
    step !in ws.visitedSteps && step != ws.currentStep
  }

  /** In a consistent state the current step is visited, so a button is disabled exactly when its
      step has not been visited; in any state the current step's button is enabled. */
  lemma {:induction false} DisabledRule(ws: WizardState, step: WizardStep)
    ensures !IsStepDisabled(ws, ws.currentStep)
    ensures Consistent(ws) ==> (IsStepDisabled(ws, step) <==> step !in ws.visitedSteps)
    ensures IsStepDisabled(ws, step) ==> !IsStepDisabled(NavigateToStep(ws, step), step)
  {
  }

  /** `Object.keys(data).some(key => JSON.stringify(prev[key]) !== JSON.stringify(data[key]))`: an
      absent key of `prev` differs from every value. */
  predicate HasRealChanges(prev: map<string, Json>, data: map<string, Json>) {
    exists k :: k in data && (k !in prev || prev[k] != data[k])
  }

  /** The draft `handleDataChange` keeps: `prev` itself without a real change, else `{ ...prev, ...data }`. */
  function DataChange(prev: map<string, Json>, data: map<string, Json>): map<string, Json> {
    if HasRealChanges(prev, data) then prev + data else prev
  }

  /** Without a real change the draft is returned as it was; otherwise every key of the update holds
      its new value and every other key its old one. Either way every key of the update ends with
      the update's value, so a repeated update is never a real change. */
  lemma {:induction false} DataChangeEffect(prev: map<string, Json>, data: map<string, Json>)
    ensures !HasRealChanges(prev, data) ==> DataChange(prev, data) == prev
    ensures var r := DataChange(prev, data);
      && r.Keys == prev.Keys + data.Keys
      && (forall k :: k in data ==> r[k] == data[k])
      && (forall k :: k in prev && k !in data ==> r[k] == prev[k])
    ensures !HasRealChanges(DataChange(prev, data), data)
    ensures DataChange(DataChange(prev, data), data) == DataChange(prev, data)
  {
    if !HasRealChanges(prev, data) {
      assert forall k :: k in data ==> k in prev && prev[k] == data[k];
      assert prev + data == prev;
    }
  }

  /** The template the selector hands to `handleTemplateSelect`. */
  datatype CampaignTemplate = CampaignTemplate(
    id: string, name: string, objective: string, channels: seq<string>, creatives: seq<Json>)

  function Str(s: string): Json { JString(s) }

  /** The draft fields a template fills. */
  function TemplateData(t: CampaignTemplate): map<string, Json> {
    map["name" := JString(t.name), "objective" := JString(t.objective),
        "channels" := JArray(Map(t.channels, Str)), "creatives" := JArray(t.creatives)]
  }

  /** `handleCancel` leaves the page when nothing is unsaved, or when the user confirms. */
  predicate LeavesOnCancel(ws: WizardState, confirmed: bool) {
    !ws.hasUnsavedChanges || confirmed
  }

  /** The draft button is disabled while saving or when nothing is unsaved. */
  predicate SaveDraftDisabled(ws: WizardState, isSaving: bool) {
    isSaving || !ws.hasUnsavedChanges
  }

  class Page {
    var wizardState: WizardState
    var campaignDraft: map<string, Json>
    var isSaving: bool
    var showTemplateSelector: bool
    var isInitialRender: bool

    constructor (templateId: Option<string>, initialData: Option<map<string, Json>>)
      ensures wizardState == InitialWizardState(templateId)
      ensures campaignDraft == (if initialData.Some? then initialData.value else map[])
      ensures showTemplateSelector == (!HasTemplateId(templateId) && initialData.None?)
      ensures !isSaving && isInitialRender
    {
      wizardState := InitialWizardState(templateId);
      campaignDraft := if initialData.Some? then initialData.value else map[];
      isSaving := false;
      showTemplateSelector := !HasTemplateId(templateId) && initialData.None?;
      isInitialRender := true;
    }

    /** The effect that runs after the first render. */
    method FirstRenderDone()
      modifies this`isInitialRender
      ensures !isInitialRender
    {
      isInitialRender := false;
    }

    /** `handleDataChange`: a real change updates the draft and, after the first render, marks the
        wizard as having unsaved changes. */
    method HandleDataChange(data: map<string, Json>)
      modifies this`campaignDraft, this`wizardState
      ensures campaignDraft == DataChange(old(campaignDraft), data)
      ensures wizardState == if HasRealChanges(old(campaignDraft), data) && !isInitialRender
                             then old(wizardState).(hasUnsavedChanges := true) else old(wizardState)
    {
      if HasRealChanges(campaignDraft, data) {
        if !isInitialRender {
          wizardState := wizardState.(hasUnsavedChanges := true);
        }
        campaignDraft := campaignDraft + data;
      }
    }

    method HandleValidationChange(isValid: bool)
      modifies this`wizardState
      ensures wizardState == ValidationChange(old(wizardState), isValid)
    {
      wizardState := ValidationChange(wizardState, isValid);
    }

    method NavigateToStepAction(step: WizardStep)
      modifies this`wizardState
      ensures wizardState == NavigateToStep(old(wizardState), step)
    {
      wizardState := NavigateToStep(wizardState, step);
    }

    method NextStepAction()
      modifies this`wizardState
      ensures wizardState == NextStep(old(wizardState))
    {
      var i := StepIndex(wizardState.currentStep);
      if i < |WizardSteps| - 1 {
        NavigateToStepAction(WizardSteps[i + 1].id);
      }
    }

    method PreviousStepAction()
      modifies this`wizardState
      ensures wizardState == PreviousStep(old(wizardState))
    {
      var i := StepIndex(wizardState.currentStep);
      if i > 0 {
        NavigateToStepAction(WizardSteps[i - 1].id);
      }
    }

    method MarkStepCompletedAction(step: WizardStep)
      modifies this`wizardState
      ensures wizardState == MarkStepCompleted(old(wizardState), step)
    {
      wizardState := MarkStepCompleted(wizardState, step);
    }

    /** `handleTemplateSelect`: the template fills the draft, the selector closes, the wizard moves
        to `basic_info` and `template` is completed. */
    method HandleTemplateSelect(t: CampaignTemplate)
      modifies this`campaignDraft, this`wizardState, this`showTemplateSelector
      ensures campaignDraft == DataChange(old(campaignDraft), TemplateData(t))
      ensures !showTemplateSelector
      ensures var ws := if HasRealChanges(old(campaignDraft), TemplateData(t)) && !isInitialRender
                        then old(wizardState).(hasUnsavedChanges := true) else old(wizardState);
              wizardState == MarkStepCompleted(NavigateToStep(ws, BasicInfo), TemplateStep)
    {
      HandleDataChange(TemplateData(t));
      showTemplateSelector := false;
      NavigateToStepAction(BasicInfo);
      MarkStepCompletedAction(TemplateStep);
    }

    method HandleSkipTemplate()
      modifies this`wizardState, this`showTemplateSelector
      ensures !showTemplateSelector
      ensures wizardState == NavigateToStep(old(wizardState), BasicInfo)
    {
      showTemplateSelector := false;
      NavigateToStepAction(BasicInfo);
    }

    /** `handleSaveDraft`: the simulated save always succeeds. */
    method HandleSaveDraft()
      modifies this`wizardState, this`isSaving
      ensures wizardState == old(wizardState).(hasUnsavedChanges := false)
      ensures !isSaving
    {
      isSaving := true;
      wizardState := wizardState.(hasUnsavedChanges := false);
      isSaving := false;
    }
  }

  /** Without a template identifier the page opens on the selector; picking a template after the
      first render completes `template`, opens `basic_info` and marks the draft unsaved, without
      moving the progress. */
  method TemplateScenario(t: CampaignTemplate) returns (first: WizardStep, selector: bool, afterSelect: WizardStep,
                                                        unsaved: bool, progress: int)
    ensures first == TemplateStep && selector && afterSelect == BasicInfo && unsaved && progress == 0
  {
    var page := new Page(None, None);
    first, selector := page.wizardState.currentStep, page.showTemplateSelector;
    page.FirstRenderDone();
    assert "name" in TemplateData(t);
    page.HandleTemplateSelect(t);
    afterSelect, unsaved := page.wizardState.currentStep, page.wizardState.hasUnsavedChanges;
    var completed := page.wizardState.completedSteps;
    assert completed == [TemplateStep];
    ProgressRange(completed);
    progress := CalculateProgress(completed);
  }

  /** With a template identifier the page opens on `basic_info`, where `previousStep` goes back to
      `template` and `nextStep` returns; from `tracking`, one `nextStep` reaches `review` and a
      second stays there. */
  method NavigationScenario() returns (first: WizardStep, back: WizardStep, again: WizardStep, last: WizardStep)
    ensures first == BasicInfo && back == TemplateStep && again == BasicInfo && last == Review
  {
    var page := new Page(Some("template-1"), None);
    first := page.wizardState.currentStep;
    page.PreviousStepAction();
    back := page.wizardState.currentStep;
    page.NextStepAction();
    again := page.wizardState.currentStep;
    page.NavigateToStepAction(Tracking);
    page.NextStepAction();
    page.NextStepAction();
    last := page.wizardState.currentStep;
  }
}
