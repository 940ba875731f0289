/** The campaign records of the campaigns list (apps/web/src/app/modules/campaigns/welcome/types.ts).
    ISO date strings are modelled by their millisecond timestamps; string unions stay strings, as at
    run time. The audience, creative, A/B test and metadata parts of a campaign are not used by the
    modelled operations and are left out. */
module CampaignTypes {
  import opened Wrappers

  datatype Schedule = Schedule(startAt: nat, endAt: Option<nat>, timezone: string)

  datatype Budget = Budget(total: real, daily: Option<real>, spent: real, currency: string, bidStrategy: string)

  datatype Metrics = Metrics(
    impressions: real, reach: real, clicks: real, ctr: real, conversions: real,
    conversionRate: real, costPerClick: real, costPerConversion: real, returnOnAdSpend: real, frequency: real)

  const ZeroMetrics := Metrics(0.0, 0.0, 0.0, 0.0, 0.0, 0.0, 0.0, 0.0, 0.0, 0.0)

  datatype Campaign = Campaign(
    id: string, name: string, description: Option<string>,
    channel: string, status: string, campaignType: string, objective: string,
    owner: string, ownerId: string,
    createdAt: nat, updatedAt: nat,
    schedule: Schedule, budget: Budget, metrics: Metrics,
    tags: seq<string>, isArchived: bool)

  /** A `Partial<Campaign>`: the fields an update or a creation request supplies. */
  datatype CampaignPatch = CampaignPatch(
    id: Option<string>, name: Option<string>, description: Option<string>,
    channel: Option<string>, status: Option<string>, campaignType: Option<string>, objective: Option<string>,
    owner: Option<string>, ownerId: Option<string>, createdAt: Option<nat>,
    schedule: Option<Schedule>, budget: Option<Budget>, metrics: Option<Metrics>,
    tags: Option<seq<string>>, isArchived: Option<bool>)

  const EmptyPatch := CampaignPatch(None, None, None, None, None, None, None, None, None, None, None, None, None, None, None)

  function Pick<T>(o: Option<T>, d: T): T { o.GetOr(d) }

  /** `{ ...c, ...p }`: every supplied field replaces the campaign's (an update's `updatedAt` is
      always overwritten by its caller, so the patch does not carry one). */
  function ApplyPatch(c: Campaign, p: CampaignPatch): (r: Campaign)
    ensures p == EmptyPatch ==> r == c
  {
    Campaign(
      Pick(p.id, c.id), Pick(p.name, c.name),
      if p.description.Some? then p.description else c.description,
      Pick(p.channel, c.channel), Pick(p.status, c.status), Pick(p.campaignType, c.campaignType),
      Pick(p.objective, c.objective), Pick(p.owner, c.owner), Pick(p.ownerId, c.ownerId),
      Pick(p.createdAt, c.createdAt), c.updatedAt,
      Pick(p.schedule, c.schedule), Pick(p.budget, c.budget), Pick(p.metrics, c.metrics),
      Pick(p.tags, c.tags), Pick(p.isArchived, c.isArchived))
  }

  /** A patch that only sets the status. */
  function StatusPatch(status: string): CampaignPatch {
    EmptyPatch.(status := Some(status))
  }

  /** A status patch changes the status and nothing else. */
  lemma {:induction false} StatusPatchOnlyStatus(c: Campaign, status: string)
    ensures ApplyPatch(c, StatusPatch(status)) == c.(status := status)
  {
  }

  /** The patch `archiveCampaign` and bulk archive apply. */
  const ArchivePatch := EmptyPatch.(status := Some("completed"), isArchived := Some(true))
}
