/** The step schemas of the campaign wizard
    (apps/web/src/app/modules/campaigns/create/components/wizard/validators.ts), each written as the
    predicate the schema checks on a typed value. zod's URL recogniser and `new Date(...)` are
    parameters: `parseDate` gives the timestamp of a date string, or `None` for an invalid date,
    against which every comparison is false. For the schemas with `.default(...)` values, a parse
    function turns an input with absent fields into the parsed record, or `None` when the schema
    rejects the input. */
module WizardValidators {
  import opened Wrappers
  import opened Seqs
  import opened CreateTypes

  const Objectives: seq<string> :=
    ["awareness", "traffic", "engagement", "leads", "conversions", "sales", "app_installs", "video_views"]
  const CampaignTypes: seq<string> :=
    ["promotion", "newsletter", "lead_generation", "retention", "event", "product_launch", "seasonal"]
  const Channels: seq<string> :=
    ["email", "sms", "whatsapp", "facebook", "instagram", "google_ads", "linkedin", "twitter", "youtube", "tiktok"]
  const MediaTypes: seq<string> := ["image", "video"]
  const FilterTypes: seq<string> := ["age", "location", "interests", "behavior", "custom"]
  const Operators: seq<string> := ["equals", "contains", "in", "between", "greater_than", "less_than"]
  const Currencies: seq<string> := ["EUR", "USD", "MGA"]
  const ElementTypes: seq<string> := ["headline", "description", "cta_button", "image", "video", "price", "offer"]
  const PublishModes: seq<string> := ["draft", "schedule", "publish"]

  const DefaultTimezone := "Europe/Paris"
  const DefaultCurrency := "EUR"
  const DefaultPublishMode := "draft"

  /** `TemplateDataSchema` without its `.nullable()`; a null template is `None` where it is used. */
  datatype TemplateData = TemplateData(
    id: string, name: string, category: string, objective: string, channels: seq<string>,
    creatives: Option<seq<Json>>)

  predicate TemplateValid(t: Option<TemplateData>) {
    t.Some? ==> t.value.objective in Objectives && forall c :: c in t.value.channels ==> c in Channels
  }

  datatype BasicInfoStep = BasicInfoStep(
    name: string, description: Option<string>, objective: string, campaignType: string, channels: seq<string>)

  /** At most `n` characters when present. */
  predicate AtMost(s: Option<string>, n: nat) {
    s.Some? ==> |s.value| <= n
  }

  predicate BasicInfoValid(b: BasicInfoStep) {
    && 1 <= |b.name| <= 100
    && AtMost(b.description, 500)
    && b.objective in Objectives
    && b.campaignType in CampaignTypes
    && |b.channels| >= 1
    && forall c :: c in b.channels ==> c in Channels
  }

  datatype MediaFile = MediaFile(id: string, mediaType: string, url: string, name: string, size: real, preview: Option<string>)

  predicate MediaFileValid(m: MediaFile, isUrl: string -> bool) {
    m.mediaType in MediaTypes && isUrl(m.url) && m.size > 0.0
  }

  datatype CreativesStep = CreativesStep(
    headline: string, caption: Option<string>, mediaFiles: seq<MediaFile>, callToAction: Option<string>,
    aiPrompt: Option<string>)

  predicate CreativesValid(c: CreativesStep, isUrl: string -> bool) {
    && 1 <= |c.headline| <= 100
    && AtMost(c.caption, 500)
    && |c.mediaFiles| >= 1
    && forall m :: m in c.mediaFiles ==> MediaFileValid(m, isUrl)
  }

  /** The value union of an audience filter. */
  datatype FilterValue = Text(text: string) | Number(number: real) | Texts(texts: seq<string>) | Numbers(numbers: seq<real>)

  datatype AudienceFilter = AudienceFilter(id: string, filterType: string, field: string, operator: string, value: FilterValue)

  predicate AudienceFilterValid(f: AudienceFilter) {
    f.filterType in FilterTypes && f.operator in Operators
  }

  datatype CsvImport = CsvImport(fileName: string, headers: seq<string>, rowCount: real, validRows: real)

  datatype AudienceStep = AudienceStep(
    selectedSegments: seq<string>, customFilters: Option<seq<AudienceFilter>>, csvImport: Option<CsvImport>,
    estimatedReach: Option<real>)

  predicate AudienceValid(a: AudienceStep) {
    && |a.selectedSegments| >= 1
    && (a.customFilters.Some? ==> forall f :: f in a.customFilters.value ==> AudienceFilterValid(f))
  }

  datatype PlanningStep = PlanningStep(
    startDate: string, endDate: string, timezone: string, budget: real, currency: string,
    isDailyBudget: bool, estimatedReach: Option<real>)

  /** `new Date(start) < new Date(end)`: false when either date is invalid. */
  predicate DateBefore(start: string, end: string, parseDate: string -> Option<int>) {
    parseDate(start).Some? && parseDate(end).Some? && parseDate(start).value < parseDate(end).value
  }

  predicate PlanningValid(p: PlanningStep, parseDate: string -> Option<int>) {
    && |p.startDate| >= 1
    && |p.endDate| >= 1
    && p.budget > 0.0
    && p.currency in Currencies
    && DateBefore(p.startDate, p.endDate, parseDate)
  }

  /** The planning input before zod fills the defaults. */
  datatype PlanningInput = PlanningInput(
    startDate: string, endDate: string, timezone: Option<string>, budget: real, currency: Option<string>,
    isDailyBudget: Option<bool>, estimatedReach: Option<real>)

  function PlanningWithDefaults(i: PlanningInput): PlanningStep {
    PlanningStep(i.startDate, i.endDate, i.timezone.GetOr(DefaultTimezone), i.budget,
                 i.currency.GetOr(DefaultCurrency), i.isDailyBudget.GetOr(false), i.estimatedReach)
  }

  /** `PlanningStepSchema.safeParse`: the parsed planning when the schema accepts the input. */
  function ParsePlanning(i: PlanningInput, parseDate: string -> Option<int>): (r: Option<PlanningStep>)
    ensures r.Some? <==> (&& |i.startDate| >= 1 && |i.endDate| >= 1 && i.budget > 0.0
                          && (i.currency.None? || i.currency.value in Currencies)
                          && DateBefore(i.startDate, i.endDate, parseDate))
    ensures r.Some? ==> r.value.timezone == (if i.timezone.Some? then i.timezone.value else "Europe/Paris")
                        && r.value.currency == (if i.currency.Some? then i.currency.value else "EUR")
                        && r.value.isDailyBudget == (i.isDailyBudget == Some(true))
                        && r.value.budget == i.budget && r.value.startDate == i.startDate && r.value.endDate == i.endDate
  {
    var p := PlanningWithDefaults(i);
    if PlanningValid(p, parseDate) then Some(p) else None
  }

  /** A parsed planning, given back to the schema with every field present, parses to itself. */
  lemma {:induction false} ParsePlanningRoundTrip(p: PlanningStep, parseDate: string -> Option<int>)
    requires PlanningValid(p, parseDate)
    ensures ParsePlanning(PlanningInput(p.startDate, p.endDate, Some(p.timezone), p.budget, Some(p.currency),
                                        Some(p.isDailyBudget), p.estimatedReach), parseDate) == Some(p)
  {
  }

  /** The planning refinement is strict, and a date the parser rejects fails it. */
  lemma {:induction false} PlanningDateRule(p: PlanningStep, parseDate: string -> Option<int>)
    ensures parseDate(p.startDate).None? || parseDate(p.endDate).None? ==> !PlanningValid(p, parseDate)
    ensures parseDate(p.startDate) == parseDate(p.endDate) ==> !PlanningValid(p, parseDate)
    ensures PlanningValid(p, parseDate) ==> parseDate(p.startDate).value < parseDate(p.endDate).value
  {
  }

  datatype UtmParameters = UtmParameters(
    source: string, medium: string, campaign: string, term: Option<string>, content: Option<string>)

  predicate UtmValid(u: UtmParameters) {
    |u.source| >= 1 && |u.medium| >= 1 && |u.campaign| >= 1
  }

  datatype AbTestElement = AbTestElement(elementType: string, value: string, description: Option<string>)

  predicate ElementValid(e: AbTestElement) {
    e.elementType in ElementTypes && |e.value| >= 1
  }

  datatype AbTestVariant = AbTestVariant(
    id: string, name: string, percentage: real, isControl: bool, description: Option<string>,
    elements: seq<AbTestElement>, expectedOutcome: Option<string>)

  predicate VariantValid(v: AbTestVariant) {
    && |v.name| >= 1
    && 0.0 <= v.percentage <= 100.0
    && |v.elements| >= 1
    && forall e :: e in v.elements ==> ElementValid(e)
  }

  function Percentage(v: AbTestVariant): real { v.percentage }

  /** `abTestVariants.reduce((sum, variant) => sum + variant.percentage, 0)` */
  function TotalPercentage(vs: seq<AbTestVariant>): real {
    SumOf(vs, Percentage)
  }

  datatype TrackingStep = TrackingStep(
    utmParameters: UtmParameters, generatedUrl: Option<string>, abTestEnabled: bool,
    abTestVariants: Option<seq<AbTestVariant>>)

  /** The object part of the tracking schema, before its refinement. */
  predicate TrackingFieldsValid(t: TrackingStep) {
    UtmValid(t.utmParameters) && (t.abTestVariants.Some? ==> forall v :: v in t.abTestVariants.value ==> VariantValid(v))
  }

  /** The refinement: the percentages are summed only when A/B testing is on and variants exist. */
  predicate VariantsSumRule(t: TrackingStep) {
    t.abTestEnabled && t.abTestVariants.Some? ==> TotalPercentage(t.abTestVariants.value) == 100.0
  }

  predicate TrackingValid(t: TrackingStep) {
    TrackingFieldsValid(t) && VariantsSumRule(t)
  }

  /** Turning A/B testing off, or dropping the variants, never makes a valid tracking step invalid;
      with A/B testing off the percentages are not looked at, and with it on they must total 100. */
  lemma {:induction false} TrackingSumRule(t: TrackingStep, vs: seq<AbTestVariant>)
    ensures TrackingValid(t) ==> TrackingValid(t.(abTestEnabled := false))
    ensures TrackingValid(t) ==> TrackingValid(t.(abTestVariants := None))
    ensures !t.abTestEnabled ==> (TrackingValid(t) <==> TrackingFieldsValid(t))
    ensures t.abTestEnabled && t.abTestVariants == Some(vs) ==>
      (TrackingValid(t) <==> TrackingFieldsValid(t) && TotalPercentage(vs) == 100.0)
    ensures t.abTestEnabled && t.abTestVariants == Some([]) ==> !TrackingValid(t)
  {
    assert TotalPercentage([]) == 0.0;
  }

  /** Every valid variant adds between 0 and 100, so `n` valid variants total at most `100·n`;
      a single valid variant must carry all of the traffic. */
  lemma {:induction false} TotalPercentageBounds(vs: seq<AbTestVariant>)
    requires forall v :: v in vs ==> VariantValid(v)
    ensures 0.0 <= TotalPercentage(vs) <= 100.0 * |vs| as real
    decreases |vs|
  {
    if vs != [] {
      assert vs[0] in vs;
      assert forall v :: v in vs[1..] ==> v in vs;
      TotalPercentageBounds(vs[1..]);
    }
  }

  /** The tracking input before zod fills `abTestEnabled`. */
  datatype TrackingInput = TrackingInput(
    utmParameters: UtmParameters, generatedUrl: Option<string>, abTestEnabled: Option<bool>,
    abTestVariants: Option<seq<AbTestVariant>>)

  function ParseTracking(i: TrackingInput): (r: Option<TrackingStep>)
    ensures i.abTestEnabled.None? ==>
      (r.Some? <==> UtmValid(i.utmParameters)
                    && (i.abTestVariants.Some? ==> forall v :: v in i.abTestVariants.value ==> VariantValid(v)))
    ensures r.Some? ==> r.value.abTestEnabled == (i.abTestEnabled == Some(true))
                        && r.value.abTestVariants == i.abTestVariants && r.value.utmParameters == i.utmParameters
  {
    var t := TrackingStep(i.utmParameters, i.generatedUrl, i.abTestEnabled.GetOr(false), i.abTestVariants);
    if TrackingValid(t) then Some(t) else None
  }

  datatype Checklist = Checklist(
    visualsApproved: bool, budgetValidated: bool, audienceConfirmed: bool, trackingSetup: bool, legalCompliance: bool)

  datatype ValidationStep = ValidationStep(
    checklist: Checklist, notes: Option<string>, publishMode: string, scheduledAt: Option<string>)

  /** `!!scheduledAt`: present and not the empty string. */
  predicate Truthy(s: Option<string>) {
    s.Some? && s.value != ""
  }

  predicate ValidationValid(v: ValidationStep) {
    v.publishMode in PublishModes && (v.publishMode == "schedule" ==> Truthy(v.scheduledAt))
  }

  datatype ValidationInput = ValidationInput(
    checklist: Checklist, notes: Option<string>, publishMode: Option<string>, scheduledAt: Option<string>)

  function ParseValidation(i: ValidationInput): (r: Option<ValidationStep>)
    ensures r.Some? ==> r.value.publishMode == (if i.publishMode.Some? then i.publishMode.value else "draft")
                        && r.value.scheduledAt == i.scheduledAt && r.value.checklist == i.checklist
  {
    var v := ValidationStep(i.checklist, i.notes, i.publishMode.GetOr(DefaultPublishMode), i.scheduledAt);
    if ValidationValid(v) then Some(v) else None
  }

  /** Only a scheduled publication needs its date, and an empty date does not count; without a
      mode the step is a draft and is accepted with any checklist. */
  lemma {:induction false} ValidationScheduleRule(i: ValidationInput)
    ensures i.publishMode == Some("schedule") ==>
      (ParseValidation(i).Some? <==> i.scheduledAt.Some? && i.scheduledAt.value != "")
    ensures i.publishMode == None ==> ParseValidation(i).Some? && ParseValidation(i).value.publishMode == "draft"
    ensures i.publishMode.Some? && i.publishMode.value != "schedule" ==>
      (ParseValidation(i).Some? <==> i.publishMode.value in ["draft", "publish"])
  {
  }

  /** `WizardData`: the template is optional and nullable, every other step is required. */
  datatype WizardData = WizardData(
    template: Option<Option<TemplateData>>, basicInfo: BasicInfoStep, creatives: CreativesStep,
    audience: AudienceStep, planning: PlanningStep, tracking: TrackingStep, validation: ValidationStep)

  predicate WizardDataValid(d: WizardData, isUrl: string -> bool, parseDate: string -> Option<int>) {
    && (d.template.Some? ==> TemplateValid(d.template.value))
    && BasicInfoValid(d.basicInfo)
    && CreativesValid(d.creatives, isUrl)
    && AudienceValid(d.audience)
    && PlanningValid(d.planning, parseDate)
    && TrackingValid(d.tracking)
    && ValidationValid(d.validation)
  }

  /** What a complete valid wizard guarantees downstream: a named campaign on at least one known
      channel, with media, an audience segment, a positive budget over a non-empty period, and UTM
      source, medium and campaign. */
  lemma {:induction false} WizardDataGuarantees(d: WizardData, isUrl: string -> bool, parseDate: string -> Option<int>)
    requires WizardDataValid(d, isUrl, parseDate)
    ensures 1 <= |d.basicInfo.name| <= 100 && d.basicInfo.channels[0] in Channels
    ensures |d.creatives.mediaFiles| >= 1 && isUrl(d.creatives.mediaFiles[0].url)
    ensures |d.audience.selectedSegments| >= 1
    ensures d.planning.budget > 0.0 && parseDate(d.planning.startDate).value < parseDate(d.planning.endDate).value
    ensures d.tracking.utmParameters.source != "" && d.tracking.utmParameters.medium != ""
            && d.tracking.utmParameters.campaign != ""
  {
    assert d.basicInfo.channels[0] in d.basicInfo.channels;
    assert d.creatives.mediaFiles[0] in d.creatives.mediaFiles;
  }
}
