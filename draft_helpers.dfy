/** The draft helpers of apps/web/src/app/modules/campaigns/drafts/utils/draftHelpers.ts. `new Date()` is
    the `now` parameter and `toLocaleDateString` is a formatting function parameter. */
module DraftHelpers {
  import opened Wrappers
  import opened Strings
  import opened Seqs
  import opened DraftTypes

  /** `mergeDraft`: the updates over the draft, both edit times set to now, and the version bumped
      from the draft's own version whatever the updates say. */
  function MergeDraft(existing: Draft, updates: DraftPatch, now: nat): (r: Draft)
    ensures r.version == existing.version + 1
    ensures r.updatedAt == now && r.lastEditedAt == now
    ensures r.title == updates.title.GetOr(existing.title) && r.body == updates.body.GetOr(existing.body)
    ensures r.tags == updates.tags.GetOr(existing.tags) && r.status == updates.status.GetOr(existing.status)
    ensures updates == EmptyPatch ==> r == existing.(updatedAt := now, lastEditedAt := now, version := existing.version + 1)
  {
    MergeInto(existing, updates).(updatedAt := now, lastEditedAt := now, version := existing.version + 1)
  }

  /** `hasUnsavedChanges`: only title, body, channel, tags (compared structurally) and `scheduledFor`
      count; a key missing from the edited record counts as changed, except an absent schedule. */
  predicate HasUnsavedChanges(original: Draft, modified: DraftPatch) {
    modified.title != Some(original.title) || modified.body != Some(original.body)
    || modified.channel != Some(original.channel) || modified.tags != Some(original.tags)
    || modified.scheduledFor != original.scheduledFor
  }

  /** A draft compared with its own record, or with edits to fields that are not checked, is saved. */
  lemma {:induction false} UnsavedOnlyForCheckedFields(d: Draft, p: DraftPatch)
    requires p.title.None? && p.body.None? && p.channel.None? && p.tags.None? && p.scheduledFor.None?
    ensures !HasUnsavedChanges(d, ToPatch(d))
    ensures !HasUnsavedChanges(d, ToPatch(MergeInto(d, p)))
    ensures HasUnsavedChanges(d, ToPatch(d).(title := Some(d.title + "x")))
  {
    assert |d.title + "x"| != |d.title|;
  }

  function DiffOpt<T(==)>(o: Option<T>, u: Option<T>): Option<T> {
    if u.Some? && o != u then u else None
  }

  function DiffReq<T(==)>(o: T, u: T): Option<T> {
    if o != u then Some(u) else None
  }

  /** `diffDrafts`: the keys of `updated` whose value differs from the original's, with the updated values. */
  function DiffDrafts(original: Draft, updated: Draft): DraftPatch {
    DraftPatch(
      DiffReq(original.id, updated.id), DiffReq(original.title, updated.title), DiffReq(original.body, updated.body),
      DiffReq(original.channel, updated.channel),
      DiffOpt(original.objective, updated.objective), DiffOpt(original.tone, updated.tone),
      DiffOpt(original.headline, updated.headline), DiffOpt(original.cta, updated.cta),
      DiffOpt(original.targetAudience, updated.targetAudience), DiffOpt(original.keyMessage, updated.keyMessage),
      DiffReq(original.status, updated.status), DiffReq(original.tags, updated.tags),
      DiffReq(original.media, updated.media), DiffReq(original.owner, updated.owner),
      DiffOpt(original.campaign, updated.campaign), DiffOpt(original.scheduledFor, updated.scheduledFor),
      DiffReq(original.createdAt, updated.createdAt), DiffReq(original.updatedAt, updated.updatedAt),
      DiffReq(original.lastEditedAt, updated.lastEditedAt), DiffReq(original.lastEditedBy, updated.lastEditedBy),
      DiffOpt(original.autoSavedAt, updated.autoSavedAt), DiffReq(original.version, updated.version))
  }

  /** A draft has no difference with itself. */
  lemma {:induction false} DiffSelfEmpty(d: Draft)
    ensures DiffDrafts(d, d) == EmptyPatch
  {
  }

  /** No optional key is present in the original and absent from the updated draft. */
  predicate KeepsOptionalKeys(original: Draft, updated: Draft) {
    (original.objective.Some? ==> updated.objective.Some?) && (original.tone.Some? ==> updated.tone.Some?)
    && (original.headline.Some? ==> updated.headline.Some?) && (original.cta.Some? ==> updated.cta.Some?)
    && (original.targetAudience.Some? ==> updated.targetAudience.Some?)
    && (original.keyMessage.Some? ==> updated.keyMessage.Some?)
    && (original.campaign.Some? ==> updated.campaign.Some?)
    && (original.scheduledFor.Some? ==> updated.scheduledFor.Some?)
    && (original.autoSavedAt.Some? ==> updated.autoSavedAt.Some?)
  }

  /** Applying the diff to the original rebuilds the updated draft. A key the updated draft dropped is
      not in the diff (only the updated draft's keys are compared), so that case is excluded. */
  lemma {:induction false} DiffThenMerge(original: Draft, updated: Draft)
    requires KeepsOptionalKeys(original, updated)
    ensures MergeInto(original, DiffDrafts(original, updated)) == updated
  {
  }

  /** A dropped optional key is the one change the diff misses. */
  lemma {:induction false} DiffMissesDroppedKey(original: Draft)
    requires original.scheduledFor.Some?
    ensures DiffDrafts(original, original.(scheduledFor := None)) == EmptyPatch
  {
  }

  /** `getTotalMediaSize`; a media item without a size makes the sum `NaN`, here `None`. */
  function TotalMediaSize(media: seq<DraftMedia>): (r: Option<real>)
    ensures media == [] ==> r == Some(0.0)
    ensures r.Some? <==> forall i :: 0 <= i < |media| ==> media[i].size.Some?
    decreases |media|
  {
    if media == [] then Some(0.0)
    else
      var rest := TotalMediaSize(media[1..]);
      if media[0].size.Some? && rest.Some? then Some(media[0].size.value + rest.value) else None
  }

  lemma {:induction false} TotalMediaSizeConcat(a: seq<DraftMedia>, b: seq<DraftMedia>)
    requires TotalMediaSize(a).Some? && TotalMediaSize(b).Some?
    ensures TotalMediaSize(a + b) == Some(TotalMediaSize(a).value + TotalMediaSize(b).value)
    decreases |a|
  {
    if a == [] {
      assert a + b == b;
    } else {
      assert (a + b)[0] == a[0] && (a + b)[1..] == a[1..] + b;
      TotalMediaSizeConcat(a[1..], b);
    }
  }

  /** `canPublishDraft` */
  predicate CanPublishDraft(d: Draft) {
    |Trim(d.title)| > 0 && |Trim(d.body)| >= 10 && d.status != "scheduled"
  }

  /** A publishable draft has a non-empty title and a body of at least ten characters. */
  lemma {:induction false} CanPublishBounds(d: Draft)
    requires CanPublishDraft(d)
    ensures |d.title| >= 1 && |d.body| >= 10 && d.status != "scheduled"
  {
  }

  /** A title of spaces is not publishable, however long. */
  lemma {:induction false} BlankTitleNotPublishable(d: Draft)
    requires d.title == "   "
    ensures !CanPublishDraft(d)
  {
    assert TrimStart(d.title) == "";
  }

  predicate NoTag(s: string) {
    forall i, j :: 0 <= i < j < |s| && s[i] == '<' ==> s[j] != '>'
  }

  function IndexOfChar(s: string, c: char): (k: nat)
    requires c in s
    ensures k < |s| && s[k] == c && c !in s[..k]
  {
    if s[0] == c then 0 else 1 + IndexOfChar(s[1..], c)
  }

  /** `s.replace(/<[^>]*>/g, '')`: each `<` that has a later `>` is removed with everything up to that `>`. */
  function StripTags(s: string): (r: string)
    ensures |r| <= |s|
    ensures forall c :: c in r ==> c in s
    decreases |s|
  {
    if s == [] then []
    else if s[0] == '<' && '>' in s[1..] then
      StripTags(s[1..][IndexOfChar(s[1..], '>') + 1..])
    else [s[0]] + StripTags(s[1..])
  }

  lemma {:induction false} StripTagsNoTag(s: string)
    ensures NoTag(StripTags(s))
    decreases |s|
  {
    if s != [] {
      if s[0] == '<' && '>' in s[1..] {
        StripTagsNoTag(s[1..][IndexOfChar(s[1..], '>') + 1..]);
      } else {
        StripTagsNoTag(s[1..]);
        var r := StripTags(s);
        var t := StripTags(s[1..]);
        forall i, j | 0 <= i < j < |r| && r[i] == '<' ensures r[j] != '>' {
          if i == 0 {
            assert r[j] == t[j - 1];
            assert t[j - 1] in t;
          } else {
            assert r[i] == t[i - 1] && r[j] == t[j - 1];
          }
        }
      }
    }
  }

  lemma {:induction false} NoTagSlice(s: string, a: nat, b: nat)
    requires NoTag(s) && a <= b <= |s|
    ensures NoTag(s[a..b])
  {
    var t := s[a..b];
    forall i, j | 0 <= i < j < |t| && t[i] == '<' ensures t[j] != '>' {
      assert t[i] == s[a + i] && t[j] == s[a + j];
    }
  }

  /** `sanitizeDraftContent`: tags removed, trimmed, and cut to `maxLength` characters plus "..." when longer. */
  function SanitizeDraftContent(content: string, maxLength: int): (r: string)
    ensures var s := Trim(StripTags(content));
      (|s| <= maxLength && r == s)
      || (|s| > maxLength && r == s[..if maxLength < 0 then 0 else maxLength] + "...")
    ensures |r| <= (if maxLength < 0 then 0 else maxLength) + 3 || |r| <= |content|
  {
    var s := Trim(StripTags(content));
    if |s| > maxLength then s[..if maxLength < 0 then 0 else maxLength] + "..." else s
  }

  /** Appending the ellipsis cannot create a tag. */
  lemma {:induction false} NoTagWithEllipsis(s: string)
    requires NoTag(s)
    ensures NoTag(s + "...")
  {
    var r := s + "...";
    forall i, j | 0 <= i < j < |r| && r[i] == '<' ensures r[j] != '>' {
      if j >= |s| { assert r[j] == '.'; }
      else { assert r[i] == s[i] && r[j] == s[j]; }
    }
  }

  /** Sanitised content never holds a tag. */
  lemma {:induction false} SanitizedHasNoTag(content: string, maxLength: int)
    ensures NoTag(SanitizeDraftContent(content, maxLength))
  {
    var u := StripTags(content);
    StripTagsNoTag(content);
    var a := TrimStart(u);
    NoTagSlice(u, |u| - |a|, |u|);
    var s := TrimEnd(a);
    NoTagSlice(a, 0, |s|);
    if |s| > maxLength {
      var m := if maxLength < 0 then 0 else maxLength;
      NoTagSlice(s, 0, m);
      NoTagWithEllipsis(s[..m]);
    }
  }
  /** The default `maxLength` of `sanitizeDraftContent`, used by the draft list. */
  const DefaultMaxLength: int := 150

  /** With the default length, sanitised content holds no tag and at most 153 characters. */
  lemma {:induction false} SanitizeDefaultLength(content: string)
    ensures var r := SanitizeDraftContent(content, DefaultMaxLength); NoTag(r) && |r| <= 153
  {
    SanitizedHasNoTag(content, DefaultMaxLength);
  }

  /** `getDraftSummary`: "<channel> post", then the campaign, media count and schedule parts. */
  function DraftSummary(d: Draft, formatDate: string -> string): (r: string)
    ensures IsPrefix(d.channel + " post", r)
    ensures d.campaign.None? && d.media == [] && d.scheduledFor.None? ==> r == d.channel + " post"
  {
    var head := d.channel + " post";
    var withCampaign := if d.campaign.Some? then head + " for " + d.campaign.value.name else head;
    var withMedia := if |d.media| > 0 then withCampaign + " with " + NatToString(|d.media|) + " media" else withCampaign;
    var r := if d.scheduledFor.Some? && d.scheduledFor.value != "" then withMedia + " scheduled for " + formatDate(d.scheduledFor.value) else withMedia;
    assert r[..|head|] == head;
    r
  }

  /** `getRelativeTime`, for a date and a current time in milliseconds; `localeDate` is the
      "MMM d" rendering used past a week. */
  function RelativeTime(date: int, now: int, localeDate: string): (r: string)
    ensures now - date < 60000 ==> r == "Just now"
    ensures 60000 <= now - date < 3600000 ==> r == NatToString((now - date) / 60000) + "m ago"
    ensures 3600000 <= now - date < 86400000 ==> r == NatToString((now - date) / 3600000) + "h ago"
    ensures 86400000 <= now - date < 604800000 ==> r == NatToString((now - date) / 86400000) + "d ago"
    ensures 604800000 <= now - date ==> r == localeDate
  {
    var diff := now - date;
    var mins, hours, days := diff / 60000, diff / 3600000, diff / 86400000;
    if mins < 1 then "Just now"
    else if mins < 60 then NatToString(mins) + "m ago"
    else if hours < 24 then NatToString(hours) + "h ago"
    else if days < 7 then NatToString(days) + "d ago"
    else localeDate
  }
}
