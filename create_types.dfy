/** The wizard records of apps/web/src/app/modules/campaigns/create/types.ts that the wizard context
    and the creation page share: the step union and the page's navigation state. A JSON value
    stands for the untyped parts (`z.any()`, the draft's field values). */
module CreateTypes {

  /** `WizardStep`, in the order of the union. */
  datatype WizardStep = TemplateStep | BasicInfo | Creative | Audience | ScheduleBudget | Tracking | Review

  /** The step's identifier as the source writes it. */
  function StepId(s: WizardStep): string {
    match s
    case TemplateStep => "template"
    case BasicInfo => "basic_info"
    case Creative => "creative"
    case Audience => "audience"
    case ScheduleBudget => "schedule_budget"
    case Tracking => "tracking"
    case Review => "review"
  }

  lemma {:induction false} StepIdInjective(a: WizardStep, b: WizardStep)
    ensures StepId(a) == StepId(b) <==> a == b
  {
  }

  /** The page-level `WizardState`. */
  datatype WizardState = WizardState(
    currentStep: WizardStep, completedSteps: seq<WizardStep>, visitedSteps: seq<WizardStep>,
    isValid: bool, hasUnsavedChanges: bool)

  /** A JSON value; an object is a map from keys to values, so its key order is not kept and no key
      holds `undefined`. */
  datatype Json =
    | JNull
    | JBool(b: bool)
    | JNumber(n: real)
    | JString(s: string)
    | JArray(items: seq<Json>)
    | JObject(fields: map<string, Json>)
}
