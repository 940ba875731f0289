/** The drafts store (apps/web/src/app/modules/campaigns/drafts/stores/useDraftsStore.ts). Each action's
    `set(state => ...)` is a function from the store state to the new state; the store itself is a class
    whose one field is that state, with one method per action. The mock API delays are not modelled:
    an action's intermediate `isLoading: true` is overwritten before it returns, so only the final state
    is stated. `new Date()` is the `now` parameter. */
module DraftsStore {
  import opened Wrappers
  import opened Strings
  import opened Seqs
  import opened DraftTypes
  import opened DraftHelpers

  datatype DraftFilters = DraftFilters(
    search: string, channels: seq<string>, status: seq<string>, owners: seq<string>, tags: seq<string>)

  /** A `Partial<DraftFilters>` */
  datatype FiltersPatch = FiltersPatch(
    search: Option<string>, channels: Option<seq<string>>, status: Option<seq<string>>,
    owners: Option<seq<string>>, tags: Option<seq<string>>)

  /** `totalPages` is `None` where `Math.ceil(total / pageSize)` is not a finite number (a zero page size). */
  datatype Pagination = Pagination(page: int, pageSize: int, total: nat, totalPages: Option<int>)

  /** `byChannel` is the object `reduce` builds, as (key, count) pairs in key insertion order. */
  datatype DraftStats = DraftStats(total: nat, byChannel: seq<(string, nat)>, last7Days: nat, autoSaved: nat)

  datatype CreateDraftPayload = CreateDraftPayload(
    title: string, body: string, channel: string,
    objective: Option<string>, tone: Option<string>, headline: Option<string>, cta: Option<string>,
    targetAudience: Option<string>, keyMessage: Option<string>,
    campaignId: Option<string>, tags: Option<seq<string>>, scheduledFor: Option<string>)

  /** The store's data fields; `autosaveQueue` is a `Set`, kept as a list in insertion order. */
  datatype DraftsState = DraftsState(
    drafts: seq<Draft>, editingDrafts: map<string, DraftPatch>, selectedIds: seq<string>,
    filters: DraftFilters, pagination: Pagination, stats: Option<DraftStats>,
    isLoading: bool, error: Option<string>,
    autosaveQueue: seq<string>, lastAutosave: map<string, nat>)

  const InitialFilters := DraftFilters("", [], [], [], [])
  const InitialPagination := Pagination(1, 20, 0, Some(0))
  const InitialState := DraftsState([], map[], [], InitialFilters, InitialPagination, None, false, None, [], map[])

  const WeekMs := 7 * 86400000

  function MergeFilters(f: DraftFilters, p: FiltersPatch): DraftFilters {
    DraftFilters(p.search.GetOr(f.search), p.channels.GetOr(f.channels), p.status.GetOr(f.status),
                 p.owners.GetOr(f.owners), p.tags.GetOr(f.tags))
  }

  /** `Math.ceil(n / d)` for a non-zero integer divisor of either sign. */
  function CeilDiv(n: nat, d: int): (r: int)
    requires d != 0
    ensures d > 0 ==> (r - 1) * d < n <= r * d
    ensures d > 0 ==> (r == 0 <==> n == 0)
  {
    if d > 0 then (n + d - 1) / d else -(n / -d)
  }

  function TotalPages(n: nat, pageSize: int): Option<int> {
    if pageSize == 0 then None else Some(CeilDiv(n, pageSize))
  }

  /** The three filters `fetchDrafts` applies: search (when non-empty) on title or body, ignoring case,
      then channels and status when the lists are non-empty. Owners and tags are not applied. */
  predicate KeepDraft(f: DraftFilters, d: Draft) {
    (f.search != "" ==> Contains(Lower(d.title), Lower(f.search)) || Contains(Lower(d.body), Lower(f.search)))
    && (|f.channels| > 0 ==> d.channel in f.channels)
    && (|f.status| > 0 ==> d.status in f.status)
  }

  function FilterDrafts(ds: seq<Draft>, f: DraftFilters): seq<Draft> {
    Filter(ds, (d: Draft) => KeepDraft(f, d))
  }

  /** `fetchDrafts(params)`: the current drafts are filtered by the merged filters. */
  function FetchDrafts(st: DraftsState, params: FiltersPatch): DraftsState {
    var merged := MergeFilters(st.filters, params);
    var filtered := FilterDrafts(st.drafts, merged);
    st.(drafts := filtered, filters := merged,
        pagination := st.pagination.(total := |filtered|, totalPages := TotalPages(|filtered|, st.pagination.pageSize)),
        isLoading := false, error := None)
  }

  /** The fetched list keeps exactly the drafts that pass the filters, in order, and the pagination
      counts them. */
  lemma {:induction false} FetchDraftsEffect(st: DraftsState, params: FiltersPatch)
    ensures var r := FetchDrafts(st, params);
      IsSubsequence(r.drafts, st.drafts)
      && (forall d :: d in r.drafts <==> d in st.drafts && KeepDraft(r.filters, d))
      && r.pagination.total == |r.drafts| && r.pagination.page == st.pagination.page
      && (st.pagination.pageSize > 0 ==> r.pagination.totalPages == Some(CeilDiv(|r.drafts|, st.pagination.pageSize)))
      && (st.pagination.pageSize == 0 ==> r.pagination.totalPages.None?)
      && r.selectedIds == st.selectedIds && r.editingDrafts == st.editingDrafts
  {
    var merged := MergeFilters(st.filters, params);
    var p := (d: Draft) => KeepDraft(merged, d);
    FilterIsSubsequence(st.drafts, p);
    forall d ensures d in FilterDrafts(st.drafts, merged) <==> d in st.drafts && KeepDraft(merged, d) {
      FilterMembership(st.drafts, p, d);
    }
  }

  /** With the initial filters nothing is dropped. */
  lemma {:induction false} InitialFiltersKeepAll(st: DraftsState)
    requires st.filters == InitialFilters
    ensures FetchDrafts(st, FiltersPatch(None, None, None, None, None)).drafts == st.drafts
  {
    FilterAll(st.drafts, (d: Draft) => KeepDraft(InitialFilters, d));
  }

  /** The record `createDraft` builds. */
  function NewDraft(p: CreateDraftPayload, now: nat): (d: Draft)
    ensures d.id == "draft-" + NatToString(now)
    ensures d.status == "draft" && d.version == 1 && d.media == []
    ensures d.tags == p.tags.GetOr([])
    ensures d.title == p.title && d.body == p.body && d.channel == p.channel && d.scheduledFor == p.scheduledFor
    ensures d.objective == p.objective && d.tone == p.tone && d.headline == p.headline && d.cta == p.cta
    ensures d.targetAudience == p.targetAudience && d.keyMessage == p.keyMessage
    ensures d.owner == DraftOwner("user-1", "Current User") && d.lastEditedBy == "Current User"
    ensures d.createdAt == now && d.updatedAt == now && d.lastEditedAt == now && d.autoSavedAt.None?
    ensures d.campaign.Some? <==> p.campaignId.Some? && p.campaignId.value != ""
    ensures d.campaign.Some? ==> d.campaign.value == DraftCampaign(p.campaignId.value, "Campaign Name")
  {
    Draft(
      "draft-" + NatToString(now), p.title, p.body, p.channel,
      p.objective, p.tone, p.headline, p.cta, p.targetAudience, p.keyMessage,
      "draft", p.tags.GetOr([]), [], DraftOwner("user-1", "Current User"),
      if p.campaignId.Some? && p.campaignId.value != "" then Some(DraftCampaign(p.campaignId.value, "Campaign Name")) else None,
      p.scheduledFor, now, now, now, "Current User", None, 1)
  }

  /** `createDraft`: the new draft is prepended. */
  function CreateDraft(st: DraftsState, p: CreateDraftPayload, now: nat): (r: DraftsState)
    ensures r.drafts == [NewDraft(p, now)] + st.drafts && |r.drafts| == |st.drafts| + 1
    ensures !r.isLoading && r.error.None?
    ensures r.selectedIds == st.selectedIds && r.editingDrafts == st.editingDrafts && r.filters == st.filters
  {
    st.(drafts := [NewDraft(p, now)] + st.drafts, isLoading := false, error := None)
  }

  function UpdateOne(d: Draft, id: string, payload: DraftPatch, now: nat): Draft {
    if d.id == id then MergeDraft(d, payload, now) else d
  }

  /** `updateDraft`: the matching drafts are merged with the payload, as `mergeDraft` does. */
  function UpdateDraft(st: DraftsState, id: string, payload: DraftPatch, now: nat): DraftsState {
    st.(drafts := Map(st.drafts, (d: Draft) => UpdateOne(d, id, payload, now)), isLoading := false, error := None)
  }

  /** Only the draft with the id changes; its version is one more than before, whatever version the
      payload carries. */
  lemma {:induction false} UpdateDraftEffect(st: DraftsState, id: string, payload: DraftPatch, now: nat)
    ensures var r := UpdateDraft(st, id, payload, now);
      |r.drafts| == |st.drafts|
      && (forall i :: 0 <= i < |st.drafts| && st.drafts[i].id != id ==> r.drafts[i] == st.drafts[i])
      && (forall i :: 0 <= i < |st.drafts| && st.drafts[i].id == id ==>
            r.drafts[i].version == st.drafts[i].version + 1 && r.drafts[i].title == payload.title.GetOr(st.drafts[i].title)
            && r.drafts[i].updatedAt == now && r.drafts[i].lastEditedAt == now)
      && r.selectedIds == st.selectedIds && r.editingDrafts == st.editingDrafts && !r.isLoading
  {
  }

  function NotId(id: string): Draft -> bool { (d: Draft) => d.id != id }
  function NotIdIn(ids: seq<string>): Draft -> bool { (d: Draft) => d.id !in ids }
  function Other(id: string): string -> bool { (s: string) => s != id }
  function OtherThan(ids: seq<string>): string -> bool { (s: string) => s !in ids }

  /** `publishDraft` and `deleteDraft`: the draft leaves the list and the selection. */
  function RemoveDraft(st: DraftsState, id: string): DraftsState {
    st.(drafts := Filter(st.drafts, NotId(id)), selectedIds := Filter(st.selectedIds, Other(id)),
        isLoading := false, error := None)
  }

  lemma {:induction false} RemoveDraftEffect(st: DraftsState, id: string)
    ensures var r := RemoveDraft(st, id);
      (forall d :: d in r.drafts <==> d in st.drafts && d.id != id)
      && (forall s :: s in r.selectedIds <==> s in st.selectedIds && s != id)
      && r == st.(drafts := r.drafts, selectedIds := r.selectedIds, isLoading := false, error := None)
  {
    forall d ensures d in Filter(st.drafts, NotId(id)) <==> d in st.drafts && d.id != id {
      FilterMembership(st.drafts, NotId(id), d);
    }
    forall s ensures s in Filter(st.selectedIds, Other(id)) <==> s in st.selectedIds && s != id {
      FilterMembership(st.selectedIds, Other(id), s);
    }
  }

  /** The removals of a bulk delete or publish, one id after the other. */
  function RemoveAll(st: DraftsState, ids: seq<string>): DraftsState
    decreases |ids|
  {
    if ids == [] then st else RemoveDraft(RemoveAll(st, ids[..|ids| - 1]), ids[|ids| - 1])
  }

  lemma {:induction false} RemoveAllEffect(st: DraftsState, ids: seq<string>)
    ensures var r := RemoveAll(st, ids);
      r.drafts == Filter(st.drafts, NotIdIn(ids)) && r.selectedIds == Filter(st.selectedIds, OtherThan(ids))
      && r.editingDrafts == st.editingDrafts && r.filters == st.filters && r.pagination == st.pagination
      && (ids != [] ==> !r.isLoading && r.error.None?)
    decreases |ids|
  {
    if ids == [] {
      FilterAll(st.drafts, NotIdIn(ids));
      FilterAll(st.selectedIds, OtherThan(ids));
    } else {
      var init, last := ids[..|ids| - 1], ids[|ids| - 1];
      RemoveAllEffect(st, init);
      assert ids == init + [last];
      RemoveFilteredStep(RemoveAll(st, init), st, init, last);
    }
  }

  lemma {:induction false} RemoveFilteredStep(acc: DraftsState, st: DraftsState, init: seq<string>, last: string)
    requires acc.drafts == Filter(st.drafts, NotIdIn(init))
    requires acc.selectedIds == Filter(st.selectedIds, OtherThan(init))
    ensures RemoveDraft(acc, last).drafts == Filter(st.drafts, NotIdIn(init + [last]))
    ensures RemoveDraft(acc, last).selectedIds == Filter(st.selectedIds, OtherThan(init + [last]))
  {
    FilterFilter(st.drafts, NotIdIn(init), NotId(last), NotIdIn(init + [last]));
    FilterFilter(st.selectedIds, OtherThan(init), Other(last), OtherThan(init + [last]));
  }

  /** The payload `duplicateDraft` passes to `createDraft`; media and the optional brief fields are not copied. */
  function DuplicatePayload(d: Draft): CreateDraftPayload {
    CreateDraftPayload(d.title + " (Copy)", d.body, d.channel, None, None, None, None, None, None,
      if d.campaign.Some? then Some(d.campaign.value.id) else None, Some(d.tags), d.scheduledFor)
  }

  /** `getDraftById`: the first draft with the id. */
  function FindDraft(ds: seq<Draft>, id: string): (r: Option<Draft>)
    ensures r.Some? ==> r.value in ds && r.value.id == id
    ensures r.Some? ==> exists i :: 0 <= i < |ds| && ds[i] == r.value && forall j :: 0 <= j < i ==> ds[j].id != id
    ensures r.None? <==> forall d :: d in ds ==> d.id != id
  {
    if ds == [] then None else if ds[0].id == id then Some(ds[0]) else FindDraft(ds[1..], id)
  }

  /** A duplicate is a fresh version-1 draft with " (Copy)" after the title, the same tags and campaign
      (when its id is non-empty) and no media. */
  lemma {:induction false} DuplicateShape(d: Draft, now: nat)
    ensures var c := NewDraft(DuplicatePayload(d), now);
      c.title == d.title + " (Copy)" && c.body == d.body && c.channel == d.channel && c.tags == d.tags
      && c.status == "draft" && c.version == 1 && c.media == []
      && (d.campaign.Some? && d.campaign.value.id != "" ==> c.campaign == Some(DraftCampaign(d.campaign.value.id, "Campaign Name")))
      && (d.campaign.None? ==> c.campaign.None?)
  {
  }

  /** The creations of a bulk duplicate. Every lookup happens before any creation completes, so ids are
      looked up in `snapshot`, the list when the action started; `clock(k)` is the time of the k-th creation. */
  function DuplicateAll(st: DraftsState, snapshot: seq<Draft>, ids: seq<string>, clock: nat -> nat): DraftsState
    decreases |ids|
  {
    if ids == [] then st
    else
      var acc := DuplicateAll(st, snapshot, ids[..|ids| - 1], clock);
      var found := FindDraft(snapshot, ids[|ids| - 1]);
      if found.Some? then CreateDraft(acc, DuplicatePayload(found.value), clock(|ids| - 1)) else acc
  }

  /** The number of ids found in the snapshot. */
  function FoundCount(snapshot: seq<Draft>, ids: seq<string>): nat
    decreases |ids|
  {
    if ids == [] then 0
    else FoundCount(snapshot, ids[..|ids| - 1]) + (if FindDraft(snapshot, ids[|ids| - 1]).Some? then 1 else 0)
  }

  /** A bulk duplicate adds one draft per found id in front of the existing ones and removes nothing. */
  lemma {:induction false} DuplicateAllEffect(st: DraftsState, snapshot: seq<Draft>, ids: seq<string>, clock: nat -> nat)
    ensures var r := DuplicateAll(st, snapshot, ids, clock);
      |r.drafts| == |st.drafts| + FoundCount(snapshot, ids)
      && r.drafts[FoundCount(snapshot, ids)..] == st.drafts
      && r.selectedIds == st.selectedIds && r.editingDrafts == st.editingDrafts
    decreases |ids|
  {
    if ids != [] {
      DuplicateAllEffect(st, snapshot, ids[..|ids| - 1], clock);
    }
  }

  predicate AnyMissing(snapshot: seq<Draft>, ids: seq<string>) {
    exists j :: 0 <= j < |ids| && FindDraft(snapshot, ids[j]).None?
  }

  /** `bulkAction`: the final state and the message of the error it throws, if any. A bulk duplicate
      rejects with "Draft not found" when an id is missing, while the other duplicates still complete. */
  function BulkAction(st: DraftsState, ids: seq<string>, action: string, clock: nat -> nat): (DraftsState, Option<string>) {
    if action == "delete" || action == "publish" then (RemoveAll(st, ids), None)
    else if action == "duplicate" then
      (DuplicateAll(st, st.drafts, ids, clock), if AnyMissing(st.drafts, ids) then Some("Draft not found") else None)
    else (st, Some("Unsupported action: " + action))
  }

  lemma {:induction false} DuplicateStep(st: DraftsState, snapshot: seq<Draft>, ids: seq<string>, k: nat, clock: nat -> nat)
    requires k < |ids|
    ensures var found := FindDraft(snapshot, ids[k]);
      DuplicateAll(st, snapshot, ids[..k + 1], clock)
        == (if found.Some? then CreateDraft(DuplicateAll(st, snapshot, ids[..k], clock), DuplicatePayload(found.value), clock(k))
            else DuplicateAll(st, snapshot, ids[..k], clock))
  {
    var pre := ids[..k + 1];
    assert pre[..k] == ids[..k] && pre[k] == ids[k];
  }

  lemma {:induction false} MissingStep(snapshot: seq<Draft>, ids: seq<string>, k: nat)
    requires k < |ids|
    ensures AnyMissing(snapshot, ids[..k + 1]) <==> AnyMissing(snapshot, ids[..k]) || FindDraft(snapshot, ids[k]).None?
  {
    var pre := ids[..k + 1];
    assert pre[k] == ids[k];
    assert forall j :: 0 <= j < k ==> pre[j] == ids[..k][j];
  }

  /** Any other action, such as "archive", throws and changes nothing. */
  lemma {:induction false} BulkUnsupportedThrows(st: DraftsState, ids: seq<string>, action: string, clock: nat -> nat)
    requires action != "delete" && action != "publish" && action != "duplicate"
    ensures BulkAction(st, ids, action, clock) == (st, Some("Unsupported action: " + action))
    ensures BulkAction(st, ids, "archive", clock) == (st, Some("Unsupported action: archive"))
  {
    assert "archive"[0] == 'a' && "archive" != "delete" && "archive" != "publish" && "archive" != "duplicate";
    assert "Unsupported action: " + "archive" == "Unsupported action: archive";
  }

  /** `toggleSelection` */
  function ToggleSelection(st: DraftsState, id: string): DraftsState {
    st.(selectedIds := Toggle(st.selectedIds, id))
  }

  lemma {:induction false} ToggleSelectionTwice(st: DraftsState, id: string)
    ensures var r := ToggleSelection(ToggleSelection(st, id), id);
      (forall s :: s in r.selectedIds <==> s in st.selectedIds) && r.drafts == st.drafts
    ensures id !in st.selectedIds ==> ToggleSelection(ToggleSelection(st, id), id) == st
  {
    ToggleTwice(st.selectedIds, id);
  }

  /** `selectAll` */
  function SelectAll(st: DraftsState): (r: DraftsState)
    ensures |r.selectedIds| == |st.drafts|
    ensures forall i :: 0 <= i < |st.drafts| ==> r.selectedIds[i] == st.drafts[i].id
    ensures forall d :: d in st.drafts ==> d.id in r.selectedIds
  {
    var r := st.(selectedIds := Map(st.drafts, (d: Draft) => d.id));
    assert forall i :: 0 <= i < |st.drafts| ==> r.selectedIds[i] == st.drafts[i].id;
    r
  }

  /** `setFilters`: merged, back to the first page. */
  function SetFilters(st: DraftsState, p: FiltersPatch): (r: DraftsState)
    ensures r.pagination.page == 1 && r.pagination.pageSize == st.pagination.pageSize
    ensures p.search.Some? ==> r.filters.search == p.search.value
    ensures p.search.None? ==> r.filters.search == st.filters.search
    ensures r.filters.channels == (if p.channels.Some? then p.channels.value else st.filters.channels)
    ensures r.filters.status == (if p.status.Some? then p.status.value else st.filters.status)
    ensures r.filters.owners == (if p.owners.Some? then p.owners.value else st.filters.owners)
    ensures r.filters.tags == (if p.tags.Some? then p.tags.value else st.filters.tags)
    ensures r.pagination.total == st.pagination.total && r.pagination.totalPages == st.pagination.totalPages
    ensures r == st.(filters := r.filters, pagination := r.pagination)
  {
    st.(filters := MergeFilters(st.filters, p), pagination := st.pagination.(page := 1))
  }

  /** `clearFilters`: the initial filters and the initial pagination, whose totals are zero. */
  function ClearFilters(st: DraftsState): (r: DraftsState)
    ensures r.filters == InitialFilters && r.pagination == Pagination(1, 20, 0, Some(0))
    ensures r.drafts == st.drafts && r.selectedIds == st.selectedIds
  {
    st.(filters := InitialFilters, pagination := InitialPagination)
  }

  /** `setPageSize`: the new size, back to the first page. */
  function SetPageSize(st: DraftsState, pageSize: int): (r: DraftsState)
    ensures r.pagination.pageSize == pageSize && r.pagination.page == 1
    ensures r.pagination.total == st.pagination.total && r.filters == st.filters
  {
    st.(pagination := st.pagination.(pageSize := pageSize, page := 1))
  }

  /** Clearing the filters after setting them gives the same state as clearing them alone. */
  lemma {:induction false} ClearFiltersForgetsSetFilters(st: DraftsState, p: FiltersPatch, size: int)
    ensures ClearFilters(SetFilters(st, p)) == ClearFilters(st)
    ensures ClearFilters(SetPageSize(st, size)) == ClearFilters(st)
  {
  }

  /** `editingDrafts[id]`, or the empty record `{...undefined}` spreads to. */
  function EditingOf(st: DraftsState, id: string): DraftPatch {
    if id in st.editingDrafts then st.editingDrafts[id] else EmptyPatch
  }

  /** `startEditing`: a copy of the draft under its id. */
  function StartEditing(st: DraftsState, d: Draft): DraftsState {
    st.(editingDrafts := st.editingDrafts[d.id := ToPatch(d)])
  }

  /** `updateEditingDraft`: the updates over the current edit (if any), stamped, and the id queued. */
  function UpdateEditingDraft(st: DraftsState, id: string, updates: DraftPatch, now: nat): DraftsState {
    st.(editingDrafts := st.editingDrafts[id := Overlay(EditingOf(st, id), updates).(updatedAt := Some(now))],
        autosaveQueue := AddUnique(st.autosaveQueue, id))
  }

  /** `clearEditingDraft`: only that key goes. */
  function ClearEditingDraft(st: DraftsState, id: string): DraftsState {
    st.(editingDrafts := st.editingDrafts - {id})
  }

  function AutosaveEntry(draft: DraftPatch, now: nat): DraftPatch {
    draft.(status := Some("auto-saved"), autoSavedAt := Some(now))
  }

  /** `autosaveDraft`: the record stored as auto-saved, the time recorded and the id dequeued. */
  function AutosaveDraft(st: DraftsState, id: string, draft: DraftPatch, now: nat): DraftsState {
    st.(editingDrafts := st.editingDrafts[id := AutosaveEntry(draft, now)],
        lastAutosave := st.lastAutosave[id := now],
        autosaveQueue := Remove(st.autosaveQueue, id))
  }

  lemma {:induction false} EditingLifecycle(st: DraftsState, id: string, updates: DraftPatch, draft: DraftPatch, now: nat)
    ensures var u := UpdateEditingDraft(st, id, updates, now);
      id in u.autosaveQueue && id in u.editingDrafts && u.editingDrafts[id].updatedAt == Some(now)
      && (forall q :: q != id ==> (q in u.autosaveQueue <==> q in st.autosaveQueue))
      && (updates.title.Some? ==> u.editingDrafts[id].title == updates.title)
      && u.drafts == st.drafts
    ensures var a := AutosaveDraft(st, id, draft, now);
      id !in a.autosaveQueue && a.lastAutosave[id] == now
      && a.editingDrafts[id].status == Some("auto-saved") && a.editingDrafts[id].autoSavedAt == Some(now)
      && (forall q :: q != id ==> (q in a.autosaveQueue <==> q in st.autosaveQueue))
    ensures var c := ClearEditingDraft(st, id);
      c.editingDrafts.Keys == st.editingDrafts.Keys - {id}
      && (forall k :: k in c.editingDrafts ==> c.editingDrafts[k] == st.editingDrafts[k])
  {
  }

  /** One round of `processAutosaveQueue` for one queued id. */
  function AutosaveStep(st: DraftsState, id: string, edits: map<string, DraftPatch>, now: nat): DraftsState {
    if id in edits then AutosaveDraft(UpdateDraft(st, id, edits[id], now), id, edits[id], now) else st
  }

  /** `processAutosaveQueue` over the queue and the edits as they were when it started. */
  function AutosaveAll(st: DraftsState, ids: seq<string>, edits: map<string, DraftPatch>, now: nat): DraftsState
    decreases |ids|
  {
    if ids == [] then st else AutosaveStep(AutosaveAll(st, ids[..|ids| - 1], edits, now), ids[|ids| - 1], edits, now)
  }

  /** After the queue is processed, every queued id that had an edit is dequeued, stamped and stored as
      auto-saved; a queued id without an edit stays queued. */
  lemma {:induction false} AutosaveAllEffect(st: DraftsState, ids: seq<string>, edits: map<string, DraftPatch>, now: nat)
    ensures var r := AutosaveAll(st, ids, edits, now);
      (forall id :: id in ids && id in edits ==>
         id !in r.autosaveQueue && id in r.lastAutosave && r.lastAutosave[id] == now
         && id in r.editingDrafts && r.editingDrafts[id] == AutosaveEntry(edits[id], now))
      && (forall id :: id in st.autosaveQueue && id !in edits ==> id in r.autosaveQueue)
      && r.selectedIds == st.selectedIds && r.filters == st.filters && |r.drafts| == |st.drafts|
    decreases |ids|
  {
    if ids != [] {
      var init, last := ids[..|ids| - 1], ids[|ids| - 1];
      AutosaveAllEffect(st, init, edits, now);
      assert forall id :: id in ids <==> id in init || id == last by { assert ids == init + [last]; }
    }
  }

  /** `fetchStats`'s `reduce` step: count one more draft of this channel. */
  function Tally(acc: seq<(string, nat)>, ch: string): (r: seq<(string, nat)>)
    decreases |acc|
  {
    if acc == [] then [(ch, 1)]
    else if acc[0].0 == ch then [(ch, acc[0].1 + 1)] + acc[1..]
    else [acc[0]] + Tally(acc[1..], ch)
  }

  function ByChannel(ds: seq<Draft>): seq<(string, nat)>
    decreases |ds|
  {
    if ds == [] then [] else Tally(ByChannel(ds[..|ds| - 1]), ds[|ds| - 1].channel)
  }

  /** `byChannel[ch]`, 0 for an absent key. */
  function CountOf(acc: seq<(string, nat)>, ch: string): nat
    decreases |acc|
  {
    if acc == [] then 0 else if acc[0].0 == ch then acc[0].1 else CountOf(acc[1..], ch)
  }

  function SumCounts(acc: seq<(string, nat)>): nat
    decreases |acc|
  {
    if acc == [] then 0 else acc[0].1 + SumCounts(acc[1..])
  }

  predicate UniqueKeys(acc: seq<(string, nat)>) {
    forall i, j :: 0 <= i < j < |acc| ==> acc[i].0 != acc[j].0
  }

  /** Every key of a tally is the new channel or a key already there. */
  lemma {:induction false} TallyKeys(acc: seq<(string, nat)>, ch: string)
    ensures forall i :: 0 <= i < |Tally(acc, ch)| ==> Tally(acc, ch)[i].0 == ch || exists j :: 0 <= j < |acc| && acc[j].0 == Tally(acc, ch)[i].0
    decreases |acc|
  {
    if acc != [] && acc[0].0 != ch {
      TallyKeys(acc[1..], ch);
      var t := Tally(acc[1..], ch);
      var r := Tally(acc, ch);
      forall i | 0 <= i < |r| ensures r[i].0 == ch || exists j :: 0 <= j < |acc| && acc[j].0 == r[i].0 {
        if i > 0 && r[i].0 != ch {
          assert r[i] == t[i - 1];
          var j :| 0 <= j < |acc[1..]| && acc[1..][j].0 == t[i - 1].0;
          assert acc[j + 1].0 == r[i].0;
        }
      }
    }
  }

  lemma {:induction false} TallyUnique(acc: seq<(string, nat)>, ch: string)
    requires UniqueKeys(acc)
    ensures UniqueKeys(Tally(acc, ch))
    decreases |acc|
  {
    if acc != [] && acc[0].0 != ch {
      TallyUnique(acc[1..], ch);
      TallyKeys(acc[1..], ch);
      var t := Tally(acc[1..], ch);
      forall i | 0 <= i < |t| ensures t[i].0 != acc[0].0 {
        if t[i].0 != ch {
          var j :| 0 <= j < |acc[1..]| && acc[1..][j].0 == t[i].0;
          assert acc[j + 1].0 == t[i].0;
        }
      }
    }
  }

  lemma {:induction false} TallyCounts(acc: seq<(string, nat)>, ch: string)
    ensures SumCounts(Tally(acc, ch)) == SumCounts(acc) + 1
    ensures forall c :: CountOf(Tally(acc, ch), c) == CountOf(acc, c) + (if c == ch then 1 else 0)
    decreases |acc|
  {
    if acc != [] && acc[0].0 != ch {
      TallyCounts(acc[1..], ch);
    }
  }

  lemma {:induction false} TallyEffect(acc: seq<(string, nat)>, ch: string)
    requires UniqueKeys(acc)
    ensures UniqueKeys(Tally(acc, ch)) && SumCounts(Tally(acc, ch)) == SumCounts(acc) + 1
    ensures forall c :: CountOf(Tally(acc, ch), c) == CountOf(acc, c) + (if c == ch then 1 else 0)
  {
    TallyUnique(acc, ch);
    TallyCounts(acc, ch);
  }

  /** `fetchStats`: the counts per channel, of the drafts created in the last seven days and of the
      auto-saved drafts. */
  function Stats(ds: seq<Draft>, now: nat): DraftStats {
    DraftStats(|ds|, ByChannel(ds), Count(ds, (d: Draft) => d.createdAt >= now - WeekMs),
               Count(ds, (d: Draft) => d.status == "auto-saved"))
  }

  /** Every channel appears once in `byChannel`, with the number of drafts of that channel, and the
      counts sum to the total. */
  lemma {:induction false} StatsByChannel(ds: seq<Draft>, now: nat)
    ensures var s := Stats(ds, now);
      UniqueKeys(s.byChannel) && SumCounts(s.byChannel) == s.total
      && (forall c :: CountOf(s.byChannel, c) == Count(ds, (d: Draft) => d.channel == c))
      && s.last7Days <= s.total && s.autoSaved <= s.total
    decreases |ds|
  {
    if ds != [] {
      var init, last := ds[..|ds| - 1], ds[|ds| - 1];
      StatsByChannel(init, now);
      TallyEffect(ByChannel(init), last.channel);
      assert ds == init + [last];
      forall c ensures CountOf(ByChannel(ds), c) == Count(ds, (d: Draft) => d.channel == c) {
        CountConcat(init, [last], (d: Draft) => d.channel == c);
      }
    }
  }

  /** `useDraftsStore` */
  class Store {
    var state: DraftsState

    constructor ()
      ensures state == InitialState
    {
      state := InitialState;
    }

    method FetchDraftsAction(params: FiltersPatch)
      modifies this
      ensures state == FetchDrafts(old(state), params)
    {
      state := FetchDrafts(state, params);
    }

    method CreateDraftAction(p: CreateDraftPayload, now: nat) returns (d: Draft)
      modifies this
      ensures d == NewDraft(p, now) && state == CreateDraft(old(state), p, now)
    {
      d := NewDraft(p, now);
      state := CreateDraft(state, p, now);
    }

    method UpdateDraftAction(id: string, payload: DraftPatch, now: nat)
      modifies this
      ensures state == UpdateDraft(old(state), id, payload, now)
    {
      state := UpdateDraft(state, id, payload, now);
    }

    method DuplicateDraftAction(id: string, now: nat) returns (r: Result<Draft>)
      modifies this
      ensures FindDraft(old(state).drafts, id).None? ==> r == Err("Draft not found") && state == old(state)
      ensures FindDraft(old(state).drafts, id).Some? ==>
        var p := DuplicatePayload(FindDraft(old(state).drafts, id).value);
        r == Ok(NewDraft(p, now)) && state == CreateDraft(old(state), p, now)
    {
      var found := FindDraft(state.drafts, id);
      if found.None? {
        return Err("Draft not found");
      }
      var d := CreateDraftAction(DuplicatePayload(found.value), now);
      return Ok(d);
    }

    method PublishDraftAction(id: string)
      modifies this
      ensures state == RemoveDraft(old(state), id)
    {
      state := RemoveDraft(state, id);
    }

    method DeleteDraftAction(id: string)
      modifies this
      ensures state == RemoveDraft(old(state), id)
    {
      state := RemoveDraft(state, id);
    }

    /** `bulkAction`, with the per-id operations run in order. */
    method BulkActionAction(ids: seq<string>, action: string, clock: nat -> nat) returns (thrown: Option<string>)
      modifies this
      ensures (state, thrown) == BulkAction(old(state), ids, action, clock)
    {
      if action == "delete" || action == "publish" {
        BulkRemove(ids, action == "delete");
        thrown := None;
      } else if action == "duplicate" {
        var missing := BulkDuplicate(ids, clock);
        thrown := if missing then Some("Draft not found") else None;
      } else {
        thrown := Some("Unsupported action: " + action);
      }
    }

    /** The `Promise.all` of single deletions (or publications). */
    method BulkRemove(ids: seq<string>, delete: bool)
      modifies this
      ensures state == RemoveAll(old(state), ids)
    {
      var k := 0;
      while k < |ids|
        invariant 0 <= k <= |ids|
        invariant state == RemoveAll(old(state), ids[..k])
      {
        assert ids[..k + 1][..k] == ids[..k];
        if delete { DeleteDraftAction(ids[k]); } else { PublishDraftAction(ids[k]); }
        k := k + 1;
      }
      assert ids[..k] == ids;
    }

    /** The `Promise.all` of single duplications; `missing` tells whether one of them rejected. */
    method BulkDuplicate(ids: seq<string>, clock: nat -> nat) returns (missing: bool)
      modifies this
      ensures state == DuplicateAll(old(state), old(state).drafts, ids, clock)
      ensures missing <==> AnyMissing(old(state).drafts, ids)
    {
      var snapshot := state.drafts;
      missing := false;
      var k := 0;
      while k < |ids|
        invariant 0 <= k <= |ids|
        invariant state == DuplicateAll(old(state), snapshot, ids[..k], clock)
        invariant missing <==> AnyMissing(snapshot, ids[..k])
      {
        DuplicateStep(old(state), snapshot, ids, k, clock);
        MissingStep(snapshot, ids, k);
        var found := FindDraft(snapshot, ids[k]);
        ghost var before := state;
        if found.Some? {
          var _ := CreateDraftAction(DuplicatePayload(found.value), clock(k));
          assert state == CreateDraft(before, DuplicatePayload(found.value), clock(k));
        } else {
          missing := true;
        }
        k := k + 1;
      }
      assert ids[..k] == ids;
    }

    method SetSelectedIds(ids: seq<string>)
      modifies this
      ensures state == old(state).(selectedIds := ids)
    {
      state := state.(selectedIds := ids);
    }

    method ToggleSelectionAction(id: string)
      modifies this
      ensures state == ToggleSelection(old(state), id)
    {
      state := ToggleSelection(state, id);
    }

    method SelectAllAction()
      modifies this
      ensures state == SelectAll(old(state))
    {
      state := SelectAll(state);
    }

    method ClearSelection()
      modifies this
      ensures state == old(state).(selectedIds := [])
    {
      state := state.(selectedIds := []);
    }

    method SetFiltersAction(p: FiltersPatch)
      modifies this
      ensures state == SetFilters(old(state), p)
    {
      state := SetFilters(state, p);
    }

    method ClearFiltersAction()
      modifies this
      ensures state == ClearFilters(old(state))
    {
      state := ClearFilters(state);
    }

    method StartEditingAction(d: Draft)
      modifies this
      ensures state == StartEditing(old(state), d)
    {
      state := StartEditing(state, d);
    }

    method UpdateEditingDraftAction(id: string, updates: DraftPatch, now: nat)
      modifies this
      ensures state == UpdateEditingDraft(old(state), id, updates, now)
    {
      state := UpdateEditingDraft(state, id, updates, now);
    }

    method ClearEditingDraftAction(id: string)
      modifies this
      ensures state == ClearEditingDraft(old(state), id)
    {
      state := ClearEditingDraft(state, id);
    }

    function GetEditingDraft(id: string): (r: Option<DraftPatch>)
      reads this
      ensures r.Some? <==> id in state.editingDrafts
    {
      if id in state.editingDrafts then Some(state.editingDrafts[id]) else None
    }

    method AutosaveDraftAction(id: string, draft: DraftPatch, now: nat)
      modifies this
      ensures state == AutosaveDraft(old(state), id, draft, now)
    {
      state := AutosaveDraft(state, id, draft, now);
    }

    /** `processAutosaveQueue`: for each queued id with an edit, save the edit into the list, then
        mark it auto-saved. */
    method ProcessAutosaveQueue(now: nat)
      modifies this
      ensures state == AutosaveAll(old(state), old(state).autosaveQueue, old(state).editingDrafts, now)
    {
      var queue, edits := state.autosaveQueue, state.editingDrafts;
      var k := 0;
      while k < |queue|
        invariant 0 <= k <= |queue|
        invariant state == AutosaveAll(old(state), queue[..k], edits, now)
      {
        assert queue[..k + 1][..k] == queue[..k];
        var id := queue[k];
        if id in edits {
          UpdateDraftAction(id, edits[id], now);
          AutosaveDraftAction(id, edits[id], now);
        }
        k := k + 1;
      }
      assert queue[..k] == queue;
    }

    method FetchStats(now: nat)
      modifies this
      ensures state == old(state).(stats := Some(Stats(old(state).drafts, now)))
    {
      state := state.(stats := Some(Stats(state.drafts, now)));
    }

    method SetPage(page: int)
      modifies this
      ensures state == old(state).(pagination := old(state).pagination.(page := page))
    {
      state := state.(pagination := state.pagination.(page := page));
    }

    method SetPageSizeAction(pageSize: int)
      modifies this
      ensures state == SetPageSize(old(state), pageSize)
    {
      state := SetPageSize(state, pageSize);
    }

    function GetDraftById(id: string): Option<Draft>
      reads this
    {
      FindDraft(state.drafts, id)
    }

    method Reset()
      modifies this
      ensures state == InitialState
    {
      state := InitialState;
    }
  }

  /** Edit a draft, process the autosave queue, and read the stored edit back: the edit is saved into
      the list (one version up) and stored as auto-saved, and the queue is empty again. */
  method AutosaveScenario(d: Draft, newTitle: string, now: nat) returns (entry: Option<DraftPatch>, saved: Option<Draft>, queue: seq<string>)
    ensures entry.Some? && entry.value.status == Some("auto-saved") && entry.value.title == Some(newTitle)
    ensures saved.Some? && saved.value.title == newTitle && saved.value.version == 2
    ensures queue == []
  {
    var store := new Store();
    var _ := store.CreateDraftAction(CreateDraftPayload(d.title, d.body, d.channel, None, None, None, None, None, None, None, None, None), now);
    var created := store.state.drafts[0];
    store.StartEditingAction(created);
    store.UpdateEditingDraftAction(created.id, EmptyPatch.(title := Some(newTitle)), now);
    store.ProcessAutosaveQueue(now);
    entry := store.GetEditingDraft(created.id);
    saved := store.GetDraftById(created.id);
    queue := store.state.autosaveQueue;
  }
}
