/** The campaign form schemas of apps/web/src/app/modules/campaigns/create/utils/validators.ts, each
    written as the predicate the schema checks on a typed value, and `validateStep`, which picks a
    step's fields out of the full schema. zod's URL and date-time recognisers and `new Date(...)`
    are parameters. The CSV import's `File` instance, preview rows and column mapping are only
    type-checked by the schema and are left out of its record. */
module CreateValidators {
  import opened Wrappers
  import opened Strings
  import opened Seqs

  const Channels: seq<string> :=
    ["email", "sms", "whatsapp", "facebook", "instagram", "google_ads", "linkedin", "twitter", "youtube", "tiktok"]
  const Objectives: seq<string> :=
    ["awareness", "traffic", "engagement", "leads", "conversions", "sales", "app_installs", "video_views"]
  const CampaignTypes: seq<string> :=
    ["promotion", "newsletter", "lead_generation", "retention", "event", "product_launch", "seasonal"]
  const BudgetTypes: seq<string> := ["daily", "lifetime"]
  const PacingStrategies: seq<string> := ["standard", "accelerated"]
  const Currencies: seq<string> := ["EUR", "USD", "MGA"]
  const Timezones: seq<string> := ["Europe/Paris", "Indian/Antananarivo", "UTC"]
  const CreativeTypes: seq<string> := ["image", "video", "carousel", "text"]
  const FilterTypes: seq<string> := ["location", "age", "gender", "interests", "behavior", "custom"]
  const Operators: seq<string> := ["equals", "contains", "in", "between", "greater_than", "less_than"]
  const Frequencies: seq<string> := ["daily", "weekly", "monthly"]
  const WinningMetrics: seq<string> := ["ctr", "conversions", "cost_per_conversion", "roas"]
  const Statuses: seq<string> := ["draft", "review", "scheduled", "published"]

  const UnknownStepError := "Étape inconnue"

  /** zod's `.url()` and `.datetime()` recognisers, and the timestamp `new Date(s)` gives, `None`
      for an invalid date. */
  datatype Recognisers = Recognisers(isUrl: string -> bool, isDatetime: string -> bool, parseDate: string -> Option<int>)

  predicate AtMost(s: Option<string>, n: nat) { s.Some? ==> |s.value| <= n }
  predicate PositiveIfPresent(x: Option<real>) { x.Some? ==> x.value > 0.0 }
  predicate UrlIfPresent(s: Option<string>, rec: Recognisers) { s.Some? ==> rec.isUrl(s.value) }

  /** A number's truthiness: present and not zero. */
  predicate TruthyNum(x: Option<real>) { x.Some? && x.value != 0.0 }

  /** A string's truthiness: present and not empty. */
  predicate TruthyStr(s: Option<string>) { s.Some? && s.value != "" }

  datatype Dimensions = Dimensions(width: real, height: real)

  datatype Creative = Creative(
    id: string, creativeType: string, url: Option<string>, thumbnail: Option<string>, title: string,
    description: Option<string>, callToAction: Option<string>, alt: Option<string>,
    dimensions: Option<Dimensions>, fileSize: Option<real>, duration: Option<real>)

  predicate CreativeValid(c: Creative, rec: Recognisers) {
    && |c.id| >= 1
    && c.creativeType in CreativeTypes
    && UrlIfPresent(c.url, rec) && UrlIfPresent(c.thumbnail, rec)
    && 1 <= |c.title| <= 100
    && AtMost(c.description, 500) && AtMost(c.callToAction, 30) && AtMost(c.alt, 200)
    && (c.dimensions.Some? ==> c.dimensions.value.width > 0.0 && c.dimensions.value.height > 0.0)
    && PositiveIfPresent(c.fileSize) && PositiveIfPresent(c.duration)
  }

  datatype FilterValue = Text(text: string) | Number(number: real) | Texts(texts: seq<string>) | Numbers(numbers: seq<real>)

  datatype AudienceFilter = AudienceFilter(filterType: string, field: string, operator: string, value: FilterValue)

  predicate AudienceFilterValid(f: AudienceFilter) {
    f.filterType in FilterTypes && |f.field| >= 1 && f.operator in Operators
  }

  datatype CsvImport = CsvImport(headers: seq<string>, validRows: real, invalidRows: real)

  predicate CsvImportValid(c: CsvImport) {
    |c.headers| >= 1 && c.validRows >= 0.0 && c.invalidRows >= 0.0
  }

  datatype Budget = Budget(
    budgetType: string, amount: real, dailyAmount: Option<real>, currency: string, pacingStrategy: string,
    spendCap: Option<real>)

  /** The budget refinement: a daily budget needs its daily amount, and a cap may not be below the
      amount. */
  predicate BudgetRefinement(b: Budget) {
    !(b.budgetType == "daily" && !TruthyNum(b.dailyAmount)) && !(TruthyNum(b.spendCap) && b.spendCap.value < b.amount)
  }

  predicate BudgetValid(b: Budget) {
    && b.budgetType in BudgetTypes
    && b.amount > 0.0 && b.amount >= 1.0
    && PositiveIfPresent(b.dailyAmount)
    && b.currency in Currencies
    && b.pacingStrategy in PacingStrategies
    && PositiveIfPresent(b.spendCap)
    && BudgetRefinement(b)
  }

  /** A budget is rejected when it is daily without a daily amount, when its cap is below its
      amount, or when the amount is below 1; a valid one has all three the right way round. */
  lemma {:induction false} BudgetRule(b: Budget)
    ensures b.budgetType == "daily" && b.dailyAmount.None? ==> !BudgetValid(b)
    ensures b.spendCap.Some? && b.spendCap.value > 0.0 && b.spendCap.value < b.amount ==> !BudgetValid(b)
    ensures b.amount < 1.0 ==> !BudgetValid(b)
    ensures BudgetValid(b) ==> (&& b.amount >= 1.0
                                && (b.budgetType == "daily" ==> b.dailyAmount.Some? && b.dailyAmount.value > 0.0)
                                && (b.spendCap.Some? ==> b.spendCap.value >= b.amount))
  {
  }

  datatype Recurring = Recurring(enabled: bool, frequency: string, endDate: Option<string>)

  datatype Schedule = Schedule(startAt: string, endAt: Option<string>, timezone: string, recurring: Option<Recurring>)

  /** `new Date(end) > new Date(start)`: false when either date is invalid. */
  predicate After(endAt: string, startAt: string, rec: Recognisers) {
    rec.parseDate(endAt).Some? && rec.parseDate(startAt).Some? && rec.parseDate(endAt).value > rec.parseDate(startAt).value
  }

  predicate ScheduleValid(s: Schedule, rec: Recognisers) {
    && rec.isDatetime(s.startAt)
    && (s.endAt.Some? ==> rec.isDatetime(s.endAt.value))
    && s.timezone in Timezones
    && (s.recurring.Some? ==> s.recurring.value.frequency in Frequencies
                              && (s.recurring.value.endDate.Some? ==> rec.isDatetime(s.recurring.value.endDate.value)))
    && (TruthyStr(s.endAt) ==> After(s.endAt.value, s.startAt, rec))
  }

  /** A schedule with an end is rejected unless the end comes strictly after the start; without an
      end the dates are not compared. */
  lemma {:induction false} ScheduleRule(s: Schedule, rec: Recognisers)
    ensures s.endAt.Some? && s.endAt.value != "" && !After(s.endAt.value, s.startAt, rec) ==> !ScheduleValid(s, rec)
    ensures s.endAt.Some? && rec.parseDate(s.endAt.value) == rec.parseDate(s.startAt) && s.endAt.value != "" ==> !ScheduleValid(s, rec)
    ensures s.endAt.None? ==> (ScheduleValid(s, rec) <==> ScheduleValid(s.(endAt := None), rec.(parseDate := NoDate)))
  {
  }

  function NoDate(s: string): Option<int> { None }

  datatype UtmParameters = UtmParameters(
    source: string, medium: string, campaign: string, term: Option<string>, content: Option<string>)

  predicate UtmValid(u: UtmParameters) {
    && 1 <= |u.source| <= 50 && 1 <= |u.medium| <= 50 && 1 <= |u.campaign| <= 50
    && AtMost(u.term, 50) && AtMost(u.content, 50)
  }

  datatype TrackingConfig = TrackingConfig(utm: UtmParameters, pixelTracking: bool, conversionTracking: bool, customEvents: seq<string>)

  predicate TrackingValid(t: TrackingConfig) {
    UtmValid(t.utm) && |t.customEvents| <= 10
  }

  datatype AbTestVariant = AbTestVariant(id: string, name: string, creative: Creative, trafficPercentage: real, isControl: bool)

  predicate VariantValid(v: AbTestVariant, rec: Recognisers) {
    |v.id| >= 1 && 1 <= |v.name| <= 50 && CreativeValid(v.creative, rec) && 1.0 <= v.trafficPercentage <= 100.0
  }

  function Traffic(v: AbTestVariant): real { v.trafficPercentage }

  datatype AbTestConfig = AbTestConfig(
    enabled: bool, variants: seq<AbTestVariant>, winningMetric: string, duration: real, confidenceLevel: int)

  predicate AbTestValid(a: AbTestConfig, rec: Recognisers) {
    && 2 <= |a.variants| <= 5
    && (forall v :: v in a.variants ==> VariantValid(v, rec))
    && a.winningMetric in WinningMetrics
    && 1.0 <= a.duration <= 30.0
    && a.confidenceLevel in {90, 95, 99}
    && (a.enabled ==> SumOf(a.variants, Traffic) == 100.0)
  }

  /** A valid A/B configuration has two to five variants of 1% to 100% each, totalling 100% when it
      is enabled; since every other variant takes at least 1%, no variant of an enabled test can
      take more than 99%. */
  lemma {:induction false} AbTestRule(a: AbTestConfig, rec: Recognisers)
    requires AbTestValid(a, rec)
    ensures 2 <= |a.variants| <= 5
    ensures forall i :: 0 <= i < |a.variants| ==> 1.0 <= a.variants[i].trafficPercentage <= 100.0
    ensures a.enabled ==> forall i :: 0 <= i < |a.variants| ==> a.variants[i].trafficPercentage <= 99.0
  {
    assert forall i :: 0 <= i < |a.variants| ==> a.variants[i] in a.variants;
    if a.enabled {
      forall i | 0 <= i < |a.variants| ensures a.variants[i].trafficPercentage <= 99.0 {
        var j := if i == 0 then 1 else 0;
        assert a.variants[j] in a.variants;
        SumAtLeastTwo(a.variants, i, j);
      }
    }
  }

  /** Two different entries of a list of percentages of at least 1% each add up to no more than
      the total. */
  lemma {:induction false} SumAtLeastTwo(vs: seq<AbTestVariant>, i: nat, j: nat)
    requires i < |vs| && j < |vs| && i != j
    requires forall k :: 0 <= k < |vs| ==> vs[k].trafficPercentage >= 1.0
    ensures SumOf(vs, Traffic) >= vs[i].trafficPercentage + 1.0
    decreases |vs|
  {
    if i == 0 {
      SumAtLeastOne(vs[1..], j - 1);
    } else if j == 0 {
      SumOfNonNegativeTraffic(vs[1..]);
      SumAtLeastOne(vs[1..], i - 1);
    } else {
      SumAtLeastTwo(vs[1..], i - 1, j - 1);
    }
  }

  lemma {:induction false} SumAtLeastOne(vs: seq<AbTestVariant>, i: nat)
    requires i < |vs|
    requires forall k :: 0 <= k < |vs| ==> vs[k].trafficPercentage >= 1.0
    ensures SumOf(vs, Traffic) >= vs[i].trafficPercentage
    decreases |vs|
  {
    if i == 0 {
      SumOfNonNegativeTraffic(vs[1..]);
    } else {
      SumAtLeastOne(vs[1..], i - 1);
    }
  }

  lemma {:induction false} SumOfNonNegativeTraffic(vs: seq<AbTestVariant>)
    requires forall k :: 0 <= k < |vs| ==> vs[k].trafficPercentage >= 1.0
    ensures SumOf(vs, Traffic) >= 0.0
  {
    SumOfNonNegative(vs, Traffic);
  }

  /** `/^[a-zA-Z0-9\s\-_]+$/` */
  predicate NameChar(c: char) {
    IsAlnum(c) || IsSpace(c) || c == '-' || c == '_'
  }

  predicate NameValid(name: string) {
    1 <= |name| <= 100 && forall i :: 0 <= i < |name| ==> NameChar(name[i])
  }

  /** The name rule: letters, digits, white space, `-` and `_` only; accented letters are refused. */
  lemma {:induction false} NameRule()
    ensures NameValid("Promo-2024_A b")
    ensures !NameValid("Promo été")
    ensures !NameValid("")
  {
    assert !NameChar("Promo été"[6]);
  }

  /** The campaign form: every field of `createCampaignSchema`. */
  datatype CampaignForm = CampaignForm(
    name: string, description: Option<string>, objective: string, campaignType: string, channels: seq<string>,
    creatives: seq<Creative>, audienceSegments: seq<string>, customAudience: Option<seq<AudienceFilter>>,
    csvImport: Option<CsvImport>, budget: Budget, schedule: Schedule, tracking: TrackingConfig,
    abTest: Option<AbTestConfig>, tags: seq<string>, status: string, createdAt: string, updatedAt: string)

  /** `basicInfoSchema` */
  predicate BasicInfoValid(d: CampaignForm) {
    && NameValid(d.name)
    && AtMost(d.description, 500)
    && d.objective in Objectives
    && d.campaignType in CampaignTypes
    && 1 <= |d.channels| <= 5
    && forall c :: c in d.channels ==> c in Channels
  }

  /** `creativeSchema_step` */
  predicate CreativesValid(d: CampaignForm, rec: Recognisers) {
    1 <= |d.creatives| <= 10 && forall c :: c in d.creatives ==> CreativeValid(c, rec)
  }

  /** `audienceSchema` */
  predicate AudienceValid(d: CampaignForm) {
    && |d.audienceSegments| >= 1
    && (d.customAudience.Some? ==> forall f :: f in d.customAudience.value ==> AudienceFilterValid(f))
    && (d.csvImport.Some? ==> CsvImportValid(d.csvImport.value))
  }

  /** `scheduleBudgetSchema` */
  predicate ScheduleBudgetValid(d: CampaignForm, rec: Recognisers) {
    BudgetValid(d.budget) && ScheduleValid(d.schedule, rec)
  }

  /** `trackingSchema` */
  predicate TrackingStepValid(d: CampaignForm, rec: Recognisers) {
    TrackingValid(d.tracking) && (d.abTest.Some? ==> AbTestValid(d.abTest.value, rec))
  }

  /** `reviewSchema` */
  predicate ReviewValid(d: CampaignForm) {
    |d.tags| <= 10 && (forall t :: t in d.tags ==> |t| <= 30) && d.status in Statuses
  }

  /** `createCampaignSchema` */
  predicate CampaignValid(d: CampaignForm, rec: Recognisers) {
    && BasicInfoValid(d) && CreativesValid(d, rec) && AudienceValid(d) && ScheduleBudgetValid(d, rec)
    && TrackingStepValid(d, rec) && ReviewValid(d)
    && rec.isDatetime(d.createdAt) && rec.isDatetime(d.updatedAt)
  }

  /** What `validateStep` returns: the outcome of `safeParse`, or the unknown-step error. */
  datatype StepOutcome = Parsed(success: bool) | UnknownStep(error: string)

  const StepNames: seq<string> := ["basic_info", "creative", "audience", "schedule_budget", "tracking", "review"]

  function ValidateStep(step: string, d: CampaignForm, rec: Recognisers): (r: StepOutcome)
    ensures r.UnknownStep? <==> step !in StepNames
    ensures r.UnknownStep? ==> r.error == "Étape inconnue"
  {
    if step == "basic_info" then Parsed(BasicInfoValid(d))
    else if step == "creative" then Parsed(CreativesValid(d, rec))
    else if step == "audience" then Parsed(AudienceValid(d))
    else if step == "schedule_budget" then Parsed(ScheduleBudgetValid(d, rec))
    else if step == "tracking" then Parsed(TrackingStepValid(d, rec))
    else if step == "review" then Parsed(ReviewValid(d))
    else UnknownStep(UnknownStepError)
  }

  /** The six step schemas pick every field of the full schema except the two time stamps: a form is
      valid exactly when every step accepts it and both time stamps are date-times. The wizard's
      `template` step has no schema. */
  lemma {:induction false} StepsCoverCampaign(d: CampaignForm, rec: Recognisers)
    ensures CampaignValid(d, rec) <==>
      (&& ValidateStep("basic_info", d, rec) == Parsed(true)
       && ValidateStep("creative", d, rec) == Parsed(true)
       && ValidateStep("audience", d, rec) == Parsed(true)
       && ValidateStep("schedule_budget", d, rec) == Parsed(true)
       && ValidateStep("tracking", d, rec) == Parsed(true)
       && ValidateStep("review", d, rec) == Parsed(true)
       && rec.isDatetime(d.createdAt) && rec.isDatetime(d.updatedAt))
    ensures ValidateStep("template", d, rec) == UnknownStep("Étape inconnue")
  {
  }

  /** The channel, creative and tag limits of the full schema. */
  lemma {:induction false} CampaignLimits(d: CampaignForm, rec: Recognisers)
    requires CampaignValid(d, rec)
    ensures 1 <= |d.channels| <= 5 && 1 <= |d.creatives| <= 10 && |d.tags| <= 10
    ensures forall i :: 0 <= i < |d.tags| ==> |d.tags[i]| <= 30
    ensures forall i :: 0 <= i < |d.name| ==> NameChar(d.name[i])
  {
    assert forall i :: 0 <= i < |d.tags| ==> d.tags[i] in d.tags;
  }
}
