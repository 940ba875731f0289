/** The draft records of apps/web/src/app/modules/campaigns/drafts/types/draft.types.ts. Creation, update
    and edit times are millisecond timestamps; `scheduledFor` stays the ISO string the validators check.
    An optional field is `None` when the key is absent. */
module DraftTypes {
  import opened Wrappers

  datatype DraftMedia = DraftMedia(
    id: string, mediaType: string, url: string, thumbnail: Option<string>, name: string,
    size: Option<real>, mimeType: Option<string>)

  datatype DraftOwner = DraftOwner(id: string, name: string)
  datatype DraftCampaign = DraftCampaign(id: string, name: string)

  datatype Draft = Draft(
    id: string, title: string, body: string, channel: string,
    objective: Option<string>, tone: Option<string>, headline: Option<string>, cta: Option<string>,
    targetAudience: Option<string>, keyMessage: Option<string>,
    status: string, tags: seq<string>, media: seq<DraftMedia>, owner: DraftOwner,
    campaign: Option<DraftCampaign>, scheduledFor: Option<string>,
    createdAt: nat, updatedAt: nat, lastEditedAt: nat, lastEditedBy: string, autoSavedAt: Option<nat>,
    version: int)

  /** A `Partial<Draft>`: every key may be absent. */
  datatype DraftPatch = DraftPatch(
    id: Option<string>, title: Option<string>, body: Option<string>, channel: Option<string>,
    objective: Option<string>, tone: Option<string>, headline: Option<string>, cta: Option<string>,
    targetAudience: Option<string>, keyMessage: Option<string>,
    status: Option<string>, tags: Option<seq<string>>, media: Option<seq<DraftMedia>>, owner: Option<DraftOwner>,
    campaign: Option<DraftCampaign>, scheduledFor: Option<string>,
    createdAt: Option<nat>, updatedAt: Option<nat>, lastEditedAt: Option<nat>, lastEditedBy: Option<string>,
    autoSavedAt: Option<nat>, version: Option<int>)

  const EmptyPatch := DraftPatch(
    None, None, None, None, None, None, None, None, None, None, None,
    None, None, None, None, None, None, None, None, None, None, None)

  function Or<T>(p: Option<T>, d: Option<T>): Option<T> {
    if p.Some? then p else d
  }

  /** `{ ...d, ...p }` on a full draft. */
  function MergeInto(d: Draft, p: DraftPatch): (r: Draft)
    ensures p == EmptyPatch ==> r == d
  {
    Draft(
      p.id.GetOr(d.id), p.title.GetOr(d.title), p.body.GetOr(d.body), p.channel.GetOr(d.channel),
      Or(p.objective, d.objective), Or(p.tone, d.tone), Or(p.headline, d.headline), Or(p.cta, d.cta),
      Or(p.targetAudience, d.targetAudience), Or(p.keyMessage, d.keyMessage),
      p.status.GetOr(d.status), p.tags.GetOr(d.tags), p.media.GetOr(d.media), p.owner.GetOr(d.owner),
      Or(p.campaign, d.campaign), Or(p.scheduledFor, d.scheduledFor),
      p.createdAt.GetOr(d.createdAt), p.updatedAt.GetOr(d.updatedAt), p.lastEditedAt.GetOr(d.lastEditedAt),
      p.lastEditedBy.GetOr(d.lastEditedBy), Or(p.autoSavedAt, d.autoSavedAt), p.version.GetOr(d.version))
  }

  /** `{ ...p, ...q }` on two partial records. */
  function Overlay(p: DraftPatch, q: DraftPatch): (r: DraftPatch)
    ensures q == EmptyPatch ==> r == p
    ensures p == EmptyPatch ==> r == q
  {
    DraftPatch(
      Or(q.id, p.id), Or(q.title, p.title), Or(q.body, p.body), Or(q.channel, p.channel),
      Or(q.objective, p.objective), Or(q.tone, p.tone), Or(q.headline, p.headline), Or(q.cta, p.cta),
      Or(q.targetAudience, p.targetAudience), Or(q.keyMessage, p.keyMessage),
      Or(q.status, p.status), Or(q.tags, p.tags), Or(q.media, p.media), Or(q.owner, p.owner),
      Or(q.campaign, p.campaign), Or(q.scheduledFor, p.scheduledFor),
      Or(q.createdAt, p.createdAt), Or(q.updatedAt, p.updatedAt), Or(q.lastEditedAt, p.lastEditedAt),
      Or(q.lastEditedBy, p.lastEditedBy), Or(q.autoSavedAt, p.autoSavedAt), Or(q.version, p.version))
  }

  /** `{ ...d }`: a full draft seen as a partial record. */
  function ToPatch(d: Draft): DraftPatch {
    DraftPatch(
      Some(d.id), Some(d.title), Some(d.body), Some(d.channel),
      d.objective, d.tone, d.headline, d.cta, d.targetAudience, d.keyMessage,
      Some(d.status), Some(d.tags), Some(d.media), Some(d.owner), d.campaign, d.scheduledFor,
      Some(d.createdAt), Some(d.updatedAt), Some(d.lastEditedAt), Some(d.lastEditedBy), d.autoSavedAt,
      Some(d.version))
  }

  /** Merging a full draft's own record into any draft yields it back, up to the optional keys it lacks. */
  lemma {:induction false} MergeToPatch(base: Draft, d: Draft)
    ensures MergeInto(base, ToPatch(d)) == d.(
      objective := Or(d.objective, base.objective), tone := Or(d.tone, base.tone),
      headline := Or(d.headline, base.headline), cta := Or(d.cta, base.cta),
      targetAudience := Or(d.targetAudience, base.targetAudience), keyMessage := Or(d.keyMessage, base.keyMessage),
      campaign := Or(d.campaign, base.campaign), scheduledFor := Or(d.scheduledFor, base.scheduledFor),
      autoSavedAt := Or(d.autoSavedAt, base.autoSavedAt))
    ensures MergeInto(d, ToPatch(d)) == d
  {
  }
}
