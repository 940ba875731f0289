/** The A/B test records of apps/web/src/app/modules/campaigns/ab-tests/types.ts. Dates are
    millisecond timestamps, numbers are reals, string unions stay strings. */
module AbTestTypes {
  import opened Wrappers

  datatype Creative = Creative(creativeType: string, url: Option<string>, content: Option<string>)

  /** `Omit<Variant, 'id'>`: a variant as the editor and the creation input hold it. */
  datatype VariantInput = VariantInput(
    name: string, trafficPercentage: real, creative: Creative, headline: string, cta: string,
    description: Option<string>)

  datatype Variant = Variant(
    id: string, name: string, trafficPercentage: real, creative: Creative, headline: string, cta: string,
    description: Option<string>)

  function WithId(v: VariantInput, id: string): (r: Variant)
    ensures r.id == id && Strip(r) == v
  {
    Variant(id, v.name, v.trafficPercentage, v.creative, v.headline, v.cta, v.description)
  }

  /** `({ id, ...rest }) => rest` */
  function Strip(v: Variant): VariantInput {
    VariantInput(v.name, v.trafficPercentage, v.creative, v.headline, v.cta, v.description)
  }

  datatype VariantMetrics = VariantMetrics(
    variantId: string, impressions: real, clicks: real, conversions: real, ctr: real, conversionRate: real,
    cpa: Option<real>, ltv: Option<real>, engagement: Option<real>, confidence: Option<real>)

  datatype AbTest = AbTest(
    id: string, name: string, description: Option<string>, campaignId: string, campaignName: string,
    channel: string, status: string, variants: seq<Variant>, targetMetric: string,
    startDate: Option<nat>, endDate: Option<nat>, duration: Option<real>, sampleSize: Option<real>,
    winner: Option<string>, createdBy: string, createdAt: nat, updatedAt: nat,
    metrics: Option<seq<VariantMetrics>>, tags: Option<seq<string>>)

  datatype CreateAbTestInput = CreateAbTestInput(
    name: string, description: Option<string>, campaignId: string, channel: string,
    variants: seq<VariantInput>, targetMetric: string, duration: Option<real>, sampleSize: Option<real>,
    tags: Option<seq<string>>)

  /** `UpdateAbTestInput`: the id and a `Partial<CreateAbTestInput>`. */
  datatype UpdateAbTestInput = UpdateAbTestInput(
    id: string, name: Option<string>, description: Option<string>, campaignId: Option<string>,
    channel: Option<string>, variants: Option<seq<VariantInput>>, targetMetric: Option<string>,
    duration: Option<real>, sampleSize: Option<real>, tags: Option<seq<string>>)

  /** A `Partial<AbTest>`, as the store keeps the test being edited. */
  datatype AbTestPatch = AbTestPatch(
    id: Option<string>, name: Option<string>, description: Option<string>, campaignId: Option<string>,
    channel: Option<string>, status: Option<string>, variants: Option<seq<Variant>>,
    targetMetric: Option<string>, duration: Option<real>, sampleSize: Option<real>, tags: Option<seq<string>>)
}
