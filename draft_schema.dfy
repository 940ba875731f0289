/** The zod schemas and validators of apps/web/src/app/modules/campaigns/drafts/validators/draft.schema.ts.
    A schema is modelled by the list of issues zod reports for an input, in schema key order; the
    messages are the schema's own, or zod's default wording where the schema gives none. zod's URL,
    UUID and date-time recognisers are parameters. Inputs are typed records: zod's type-mismatch
    issues are not modelled. */
module DraftSchema {
  import opened Wrappers
  import opened Strings
  import opened Seqs

  const Channels: seq<string> := ["facebook", "instagram", "linkedin", "twitter", "google-ads", "email"]
  const MediaTypes: seq<string> := ["image", "video", "document"]
  const UpdateStatuses: seq<string> := ["draft", "auto-saved", "scheduled"]

  /** One zod issue: the path to the offending value and its message. */
  datatype Issue = Issue(path: seq<string>, message: string)

  /** `DraftValidationError` */
  datatype ValidationError = ValidationError(field: string, message: string)

  /** `DraftValidationResult` */
  datatype ValidationResult = ValidationResult(isValid: bool, errors: seq<ValidationError>)

  /** The recognisers zod uses for `.url()`, `.uuid()` and `.datetime()`. */
  datatype Recognisers = Recognisers(isUrl: string -> bool, isUuid: string -> bool, isDatetime: string -> bool)

  datatype MediaInput = MediaInput(
    id: string, mediaType: string, url: string, thumbnail: Option<string>, size: Option<real>, name: string)

  datatype PublishInput = PublishInput(title: string, body: string, channel: string, media: Option<seq<MediaInput>>)

  datatype CreateInput = CreateInput(
    title: string, body: string, channel: string,
    campaignId: Option<string>, tags: Option<seq<string>>, scheduledFor: Option<string>)

  datatype UpdateInput = UpdateInput(
    title: Option<string>, body: Option<string>, channel: Option<string>, media: Option<seq<MediaInput>>,
    tags: Option<seq<string>>, scheduledFor: Option<string>, status: Option<string>)

  const EmptyUpdate := UpdateInput(None, None, None, None, None, None, None)

  /** `err.path.join('.')` */
  function JoinPath(path: seq<string>): string
    decreases |path|
  {
    if path == [] then "" else if |path| == 1 then path[0] else path[0] + "." + JoinPath(path[1..])
  }

  function Quoted(s: seq<string>): string
    decreases |s|
  {
    if s == [] then "" else if |s| == 1 then "'" + s[0] + "'" else "'" + s[0] + "' | " + Quoted(s[1..])
  }

  function Check(ok: bool, field: string, message: string): seq<Issue> {
    if ok then [] else [Issue([field], message)]
  }

  function MinMessage(n: nat): string { "String must contain at least " + NatToString(n) + " character(s)" }
  function MaxMessage(n: nat): string { "String must contain at most " + NatToString(n) + " character(s)" }

  function EnumIssues(field: string, options: seq<string>, v: string): seq<Issue> {
    Check(v in options, field, "Invalid enum value. Expected " + Quoted(options) + ", received '" + v + "'")
  }

  /** `z.string().min(lo, minMsg).max(hi, maxMsg)`: both checks run. */
  function LengthIssues(field: string, s: string, lo: nat, minMsg: string, hi: Option<nat>, maxMsg: string): seq<Issue> {
    Check(|s| >= lo, field, minMsg) + (if hi.Some? then Check(|s| <= hi.value, field, maxMsg) else [])
  }

  function Prefixed(prefix: seq<string>, issues: seq<Issue>): (r: seq<Issue>)
    ensures |r| == |issues|
  {
    Map(issues, (i: Issue) => Issue(prefix + i.path, i.message))
  }

  /** `draftMediaSchema` for one media item. */
  function MediaIssues(m: MediaInput, rec: Recognisers): seq<Issue> {
    EnumIssues("type", MediaTypes, m.mediaType)
    + Check(rec.isUrl(m.url), "url", "Invalid url")
    + (if m.thumbnail.Some? then Check(rec.isUrl(m.thumbnail.value), "thumbnail", "Invalid url") else [])
    + (if m.size.None? then [Issue(["size"], "Required")]
       else Check(m.size.value > 0.0, "size", "Number must be greater than 0"))
    + Check(|m.name| >= 1, "name", MinMessage(1))
  }

  predicate MediaValid(m: MediaInput, rec: Recognisers) {
    m.mediaType in MediaTypes && rec.isUrl(m.url) && (m.thumbnail.Some? ==> rec.isUrl(m.thumbnail.value))
    && m.size.Some? && m.size.value > 0.0 && |m.name| >= 1
  }

  lemma {:induction false} MediaIssuesEmptyIff(m: MediaInput, rec: Recognisers)
    ensures MediaIssues(m, rec) == [] <==> MediaValid(m, rec)
  {
  }

  /** `z.array(draftMediaSchema)`: each item's issues under `<index>`. */
  function ArrayIssues(items: seq<MediaInput>, from: nat, rec: Recognisers): seq<Issue>
    decreases |items|
  {
    if items == [] then []
    else Prefixed([NatToString(from)], MediaIssues(items[0], rec)) + ArrayIssues(items[1..], from + 1, rec)
  }

  lemma {:induction false} ArrayIssuesEmptyIff(items: seq<MediaInput>, from: nat, rec: Recognisers)
    ensures ArrayIssues(items, from, rec) == [] <==> forall i :: 0 <= i < |items| ==> MediaValid(items[i], rec)
    decreases |items|
  {
    if items != [] {
      ArrayIssuesEmptyIff(items[1..], from + 1, rec);
      MediaIssuesEmptyIff(items[0], rec);
      if forall i :: 0 <= i < |items[1..]| ==> MediaValid(items[1..][i], rec) {
        assert forall i :: 1 <= i < |items| ==> MediaValid(items[i], rec) by {
          forall i | 1 <= i < |items| ensures MediaValid(items[i], rec) { assert items[i] == items[1..][i - 1]; }
        }
      }
    }
  }

  function MediaFieldIssues(media: Option<seq<MediaInput>>, required: bool, rec: Recognisers): seq<Issue> {
    if media.None? then (if required then [Issue(["media"], "Required")] else [])
    else Prefixed(["media"], ArrayIssues(media.value, 0, rec))
  }

  lemma {:induction false} MediaFieldIssuesEmptyIff(media: Option<seq<MediaInput>>, required: bool, rec: Recognisers)
    ensures MediaFieldIssues(media, required, rec) == [] <==>
      (media.None? ==> !required) && (media.Some? ==> forall i :: 0 <= i < |media.value| ==> MediaValid(media.value[i], rec))
  {
    if media.Some? { ArrayIssuesEmptyIff(media.value, 0, rec); }
  }

  /** `publishDraftSchema`; the media array is required, though it may be empty. */
  function PublishIssues(d: PublishInput, rec: Recognisers): seq<Issue> {
    LengthIssues("title", d.title, 1, "Title required for publishing", None, "")
    + LengthIssues("body", d.body, 10, "Body must have at least 10 characters", None, "")
    + EnumIssues("channel", Channels, d.channel)
    + MediaFieldIssues(d.media, true, rec)
  }

  /** `createDraftSchema` */
  function CreateIssues(p: CreateInput, rec: Recognisers): seq<Issue> {
    LengthIssues("title", p.title, 1, "Title is required", Some(200), "Title too long")
    + LengthIssues("body", p.body, 1, "Body content is required", Some(5000), "Content too long")
    + EnumIssues("channel", Channels, p.channel)
    + (if p.campaignId.Some? then Check(rec.isUuid(p.campaignId.value), "campaignId", "Invalid uuid") else [])
    + (if p.scheduledFor.Some? then Check(rec.isDatetime(p.scheduledFor.value), "scheduledFor", "Invalid datetime") else [])
  }

  /** `updateDraftSchema`: every key optional, each checked when present. */
  function UpdateIssues(p: UpdateInput, rec: Recognisers): seq<Issue> {
    (if p.title.Some? then LengthIssues("title", p.title.value, 1, MinMessage(1), Some(200), MaxMessage(200)) else [])
    + (if p.body.Some? then LengthIssues("body", p.body.value, 1, MinMessage(1), Some(5000), MaxMessage(5000)) else [])
    + (if p.channel.Some? then EnumIssues("channel", Channels, p.channel.value) else [])
    + MediaFieldIssues(p.media, false, rec)
    + (if p.scheduledFor.Some? then Check(rec.isDatetime(p.scheduledFor.value), "scheduledFor", "Invalid datetime") else [])
    + (if p.status.Some? then EnumIssues("status", UpdateStatuses, p.status.value) else [])
  }

  function ToError(i: Issue): ValidationError {
    ValidationError(JoinPath(i.path), i.message)
  }

  /** The shared body of the three `validate*` functions: the parse either succeeds, or each issue
      is pushed as an error in order. */
  method Report(issues: seq<Issue>) returns (result: ValidationResult)
    ensures result.isValid <==> issues == []
    ensures result.errors == Map(issues, ToError)
  {
    if issues == [] {
      return ValidationResult(true, []);
    }
    var errors: seq<ValidationError> := [];
    var k := 0;
    while k < |issues|
      invariant 0 <= k <= |issues|
      invariant errors == Map(issues[..k], ToError)
    {
      assert issues[..k + 1] == issues[..k] + [issues[k]];
      MapConcat(issues[..k], [issues[k]], ToError);
      errors := errors + [ToError(issues[k])];
      k := k + 1;
    }
    assert issues[..k] == issues;
    return ValidationResult(false, errors);
  }

  lemma {:induction false} MapConcat<A, B>(a: seq<A>, b: seq<A>, f: A -> B)
    ensures Map(a + b, f) == Map(a, f) + Map(b, f)
  {
    assert |Map(a + b, f)| == |Map(a, f) + Map(b, f)|;
    forall i | 0 <= i < |a + b| ensures Map(a + b, f)[i] == (Map(a, f) + Map(b, f))[i] {
      if i < |a| { assert (a + b)[i] == a[i]; } else { assert (a + b)[i] == b[i - |a|]; }
    }
  }

  /** `validateDraftForPublish` */
  method ValidateDraftForPublish(d: PublishInput, rec: Recognisers) returns (result: ValidationResult)
    ensures result.isValid <==>
      |d.title| >= 1 && |d.body| >= 10 && d.channel in Channels
      && d.media.Some? && forall i :: 0 <= i < |d.media.value| ==> MediaValid(d.media.value[i], rec)
    ensures result.isValid <==> result.errors == []
    ensures result.errors == Map(PublishIssues(d, rec), ToError)
  {
    MediaFieldIssuesEmptyIff(d.media, true, rec);
    result := Report(PublishIssues(d, rec));
  }

  /** The publish issues are the title, body, channel and media checks, in that order. */
  lemma {:induction false} PublishIssuesParts(d: PublishInput, rec: Recognisers)
    ensures PublishIssues(d, rec)
      == Check(|d.title| >= 1, "title", "Title required for publishing")
      + Check(|d.body| >= 10, "body", "Body must have at least 10 characters")
      + EnumIssues("channel", Channels, d.channel)
      + MediaFieldIssues(d.media, true, rec)
  {
  }

  /** The title issue is reported exactly when the title is empty. */
  lemma {:induction false} PublishTitleRule(d: PublishInput, rec: Recognisers)
    ensures Issue(["title"], "Title required for publishing") in PublishIssues(d, rec) <==> |d.title| == 0
  {
    var t := Check(|d.title| >= 1, "title", "Title required for publishing");
    var b := Check(|d.body| >= 10, "body", "Body must have at least 10 characters");
    var c := EnumIssues("channel", Channels, d.channel);
    var m := MediaFieldIssues(d.media, true, rec);
    PublishIssuesParts(d, rec);
    var ti := Issue(["title"], "Title required for publishing");
    assert ti !in m by {
      MediaPathsUnderMedia(d.media, rec);
    }
    assert ti !in c && ti !in b;
    OutsideParts(t, b, c, m, ti);
  }

  /** The body issue is reported exactly when the body has fewer than ten characters. */
  lemma {:induction false} PublishBodyRule(d: PublishInput, rec: Recognisers)
    ensures Issue(["body"], "Body must have at least 10 characters") in PublishIssues(d, rec) <==> |d.body| < 10
  {
    var t := Check(|d.title| >= 1, "title", "Title required for publishing");
    var b := Check(|d.body| >= 10, "body", "Body must have at least 10 characters");
    var c := EnumIssues("channel", Channels, d.channel);
    var m := MediaFieldIssues(d.media, true, rec);
    PublishIssuesParts(d, rec);
    var bi := Issue(["body"], "Body must have at least 10 characters");
    assert bi !in m by {
      MediaPathsUnderMedia(d.media, rec);
    }
    assert bi !in c && bi !in t;
    OutsideParts(b, t, c, m, bi);
  }

  /** A missing media array is reported as required. */
  lemma {:induction false} PublishMediaRequired(d: PublishInput, rec: Recognisers)
    requires d.media.None?
    ensures Issue(["media"], "Required") in PublishIssues(d, rec)
  {
    var m := MediaFieldIssues(d.media, true, rec);
    assert m[0] == Issue(["media"], "Required");
    assert PublishIssues(d, rec)[|PublishIssues(d, rec)| - 1] == m[0];
  }

  /** A value missing from three of four parts is in their concatenation exactly when it is in the other. */
  lemma {:induction false} OutsideParts<T>(a: seq<T>, b: seq<T>, c: seq<T>, m: seq<T>, x: T)
    requires x !in b && x !in c && x !in m
    ensures x in a + b + c + m <==> x in a
    ensures x in b + a + c + m <==> x in a
  {
  }

  /** Every media issue's path begins with "media". */
  lemma {:induction false} MediaPathsUnderMedia(media: Option<seq<MediaInput>>, rec: Recognisers)
    ensures forall i :: i in MediaFieldIssues(media, true, rec) ==> |i.path| >= 1 && i.path[0] == "media"
  {
    var issues := MediaFieldIssues(media, true, rec);
    forall i | i in issues ensures |i.path| >= 1 && i.path[0] == "media" {
      var k :| 0 <= k < |issues| && issues[k] == i;
      if media.Some? {
        var inner := ArrayIssues(media.value, 0, rec);
        assert issues[k].path == ["media"] + inner[k].path;
      }
    }
  }

  /** `validateCreateDraft` */
  method ValidateCreateDraft(p: CreateInput, rec: Recognisers) returns (result: ValidationResult)
    ensures result.isValid ==> 1 <= |p.title| <= 200 && 1 <= |p.body| <= 5000 && p.channel in Channels
    ensures result.isValid <==>
      1 <= |p.title| <= 200 && 1 <= |p.body| <= 5000 && p.channel in Channels
      && (p.campaignId.Some? ==> rec.isUuid(p.campaignId.value))
      && (p.scheduledFor.Some? ==> rec.isDatetime(p.scheduledFor.value))
    ensures |result.errors| == |CreateIssues(p, rec)|
  {
    result := Report(CreateIssues(p, rec));
  }

  /** `validateUpdateDraft` */
  method ValidateUpdateDraft(p: UpdateInput, rec: Recognisers) returns (result: ValidationResult)
    ensures p == EmptyUpdate ==> result == ValidationResult(true, [])
    ensures result.isValid <==>
      (p.title.Some? ==> 1 <= |p.title.value| <= 200) && (p.body.Some? ==> 1 <= |p.body.value| <= 5000)
      && (p.channel.Some? ==> p.channel.value in Channels)
      && (p.media.Some? ==> forall i :: 0 <= i < |p.media.value| ==> MediaValid(p.media.value[i], rec))
      && (p.scheduledFor.Some? ==> rec.isDatetime(p.scheduledFor.value))
      && (p.status.Some? ==> p.status.value in UpdateStatuses)
  {
    MediaFieldIssuesEmptyIff(p.media, false, rec);
    result := Report(UpdateIssues(p, rec));
  }

  /** The publish enum spells "google-ads"; the campaign channel "google_ads" is always refused. */
  lemma {:induction false} UnderscoreChannelNeverPublishes(d: PublishInput, rec: Recognisers)
    requires d.channel == "google_ads"
    ensures PublishIssues(d, rec) != []
  {
    assert "google_ads" != "google-ads";
  }

  /** A publishable draft whose media are all valid passes publish validation. */
  lemma {:induction false} PublishAcceptsWellFormed(d: PublishInput, rec: Recognisers)
    requires |d.title| >= 1 && |d.body| >= 10 && d.channel in Channels && d.media == Some([])
    ensures PublishIssues(d, rec) == []
  {
  }
}
