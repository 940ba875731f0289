/** The A/B tests store (apps/web/src/app/modules/campaigns/ab-tests/store/useAbTestsStore.ts). Each
    action's `set(state => ...)` is a function from the store state to the new state; the store is a
    class whose `state` field holds that state, with one method per action. The simulated API delay
    and the intermediate `isLoading: true` are not observable once an action returns, so only the final
    state is stated. `Date.now()` and `new Date()` are the `now` parameter (`clock(k)` in the bulk
    actions), and the mock test list is the constructor's `mock` parameter. */
module AbTestsStore {
  import opened Wrappers
  import opened Strings
  import opened Seqs
  import opened AbTestTypes

  datatype DateRange = DateRange(from: Option<nat>, to: Option<nat>)

  datatype Filters = Filters(
    search: string, status: seq<string>, channels: seq<string>, dateRange: Option<DateRange>,
    campaigns: seq<string>, owners: seq<string>, tags: seq<string>)

  /** A `Partial<AbTestFilters>` */
  datatype FiltersPatch = FiltersPatch(
    search: Option<string>, status: Option<seq<string>>, channels: Option<seq<string>>,
    dateRange: Option<DateRange>, campaigns: Option<seq<string>>, owners: Option<seq<string>>,
    tags: Option<seq<string>>)

  const NoFilters := FiltersPatch(None, None, None, None, None, None, None)

  /** `total` is an `int`: a deletion decrements it whatever it removed. */
  datatype Pagination = Pagination(page: int, pageSize: int, total: int)

  datatype PaginationPatch = PaginationPatch(page: Option<int>, pageSize: Option<int>, total: Option<int>)

  datatype Sorting = Sorting(field: string, order: string)

  datatype AbTestsState = AbTestsState(
    tests: seq<AbTest>, selectedTestIds: seq<string>, editingDraft: Option<AbTestPatch>,
    isLoading: bool, error: Option<string>,
    pagination: Pagination, filters: Filters, sorting: Sorting)

  const InitialFilters := Filters("", [], [], None, [], [], [])
  const InitialPagination := Pagination(1, 20, 0)
  const InitialSorting := Sorting("createdAt", "desc")

  function InitialState(mock: seq<AbTest>): AbTestsState {
    AbTestsState(mock, [], None, false, None, InitialPagination.(total := |mock|), InitialFilters, InitialSorting)
  }

  /** `{ ...filters, ...patch }` */
  function MergeFilters(f: Filters, p: FiltersPatch): (r: Filters)
    ensures p == NoFilters ==> r == f
  {
    Filters(p.search.GetOr(f.search), p.status.GetOr(f.status), p.channels.GetOr(f.channels),
            if p.dateRange.Some? then p.dateRange else f.dateRange,
            p.campaigns.GetOr(f.campaigns), p.owners.GetOr(f.owners), p.tags.GetOr(f.tags))
  }

  /** The three filters `fetchTests` applies: the search (when non-empty) on the name or the campaign
      name, ignoring case, then status and channel when those lists are non-empty. The campaign, owner,
      tag and date filters are not applied. */
  predicate Matches(f: Filters, t: AbTest) {
    (f.search != "" ==> Contains(Lower(t.name), Lower(f.search)) || Contains(Lower(t.campaignName), Lower(f.search)))
    && (|f.status| > 0 ==> t.status in f.status)
    && (|f.channels| > 0 ==> t.channel in f.channels)
  }

  function MatchesFilters(f: Filters): AbTest -> bool { (t: AbTest) => Matches(f, t) }

  /** `fetchTests(params)`: the mock list, filtered by the stored filters merged with `params`. The
      merged filters are used but not stored. */
  function FetchTests(st: AbTestsState, mock: seq<AbTest>, params: FiltersPatch): AbTestsState {
    var filtered := Filter(mock, MatchesFilters(MergeFilters(st.filters, params)));
    st.(tests := filtered, pagination := st.pagination.(total := |filtered|), isLoading := false, error := None)
  }

  /** The fetched tests are the mock tests that match, in order, whatever was in the store before;
      the total counts them and the stored filters are unchanged. */
  lemma {:induction false} FetchTestsEffect(st: AbTestsState, mock: seq<AbTest>, params: FiltersPatch)
    ensures var r := FetchTests(st, mock, params);
      var f := MergeFilters(st.filters, params);
      IsSubsequence(r.tests, mock)
      && (forall t :: t in r.tests <==> t in mock && Matches(f, t))
      && (forall t :: t in r.tests ==> (|f.status| > 0 ==> t.status in f.status) && (|f.channels| > 0 ==> t.channel in f.channels))
      && r.pagination.total == |r.tests| && r.filters == st.filters && r.selectedTestIds == st.selectedTestIds
  {
    var p := MatchesFilters(MergeFilters(st.filters, params));
    FilterIsSubsequence(mock, p);
    forall t ensures t in Filter(mock, p) <==> t in mock && p(t) {
      FilterMembership(mock, p, t);
    }
  }

  /** With the initial filters and no parameters, the whole mock list comes back. */
  lemma {:induction false} FetchWithInitialFilters(st: AbTestsState, mock: seq<AbTest>)
    requires st.filters == InitialFilters
    ensures FetchTests(st, mock, NoFilters).tests == mock
    ensures FetchTests(st, mock, NoFilters).pagination.total == |mock|
  {
    FilterAll(mock, MatchesFilters(InitialFilters));
  }

  /** `variant-${Date.now()}-${idx}` */
  function VariantId(now: nat, idx: nat): string {
    "variant-" + NatToString(now) + "-" + NatToString(idx)
  }

  function WithNewIds(vs: seq<VariantInput>, now: nat): (r: seq<Variant>)
    ensures |r| == |vs|
    ensures forall i :: 0 <= i < |vs| ==> r[i] == WithId(vs[i], VariantId(now, i))
  {
    seq(|vs|, i requires 0 <= i < |vs| => WithId(vs[i], VariantId(now, i)))
  }

  /** The record `createDraft` builds from its input. */
  function NewTest(input: CreateAbTestInput, now: nat): AbTest {
    AbTest("test-" + NatToString(now), input.name, input.description, input.campaignId,
      "Campaign " + input.campaignId, input.channel, "draft", WithNewIds(input.variants, now),
      input.targetMetric, None, None, input.duration, input.sampleSize, None,
      "current-user", now, now, None, input.tags)
  }

  /** `createDraft`: the new test is prepended and counted. */
  function CreateDraft(st: AbTestsState, input: CreateAbTestInput, now: nat): AbTestsState {
    st.(tests := [NewTest(input, now)] + st.tests, pagination := st.pagination.(total := st.pagination.total + 1),
        isLoading := false, error := None)
  }

  /** A created test is a draft in front of the others; its variants keep their count, order and
      contents, and each gets a fresh id; the total grows by one. */
  lemma {:induction false} CreateDraftEffect(st: AbTestsState, input: CreateAbTestInput, now: nat)
    ensures var r := CreateDraft(st, input, now);
      |r.tests| == |st.tests| + 1 && r.tests[1..] == st.tests
      && r.tests[0].status == "draft" && r.tests[0].name == input.name && r.tests[0].campaignId == input.campaignId
      && r.tests[0].campaignName == "Campaign " + input.campaignId
      && r.tests[0].id == "test-" + NatToString(now) && r.tests[0].createdAt == now && r.tests[0].updatedAt == now
      && Map(r.tests[0].variants, Strip) == input.variants
      && (forall i :: 0 <= i < |input.variants| ==> r.tests[0].variants[i].id == VariantId(now, i))
      && r.tests[0].startDate.None? && r.tests[0].winner.None? && r.tests[0].metrics.None?
      && r.pagination.total == st.pagination.total + 1 && r.selectedTestIds == st.selectedTestIds
  {
    var vs := NewTest(input, now).variants;
    assert forall i :: 0 <= i < |vs| ==> Strip(vs[i]) == input.variants[i];
  }

  /** `test.variants[idx]?.id || variant-${now}-${idx}`: the old id at that index, unless it is
      missing or empty. */
  function KeptId(prior: seq<Variant>, idx: nat, now: nat): string {
    if idx < |prior| && prior[idx].id != "" then prior[idx].id else VariantId(now, idx)
  }

  function WithKeptIds(prior: seq<Variant>, vs: seq<VariantInput>, now: nat): (r: seq<Variant>)
    ensures |r| == |vs|
    ensures forall i :: 0 <= i < |vs| ==> r[i] == WithId(vs[i], KeptId(prior, i, now))
  {
    seq(|vs|, i requires 0 <= i < |vs| => WithId(vs[i], KeptId(prior, i, now)))
  }

  /** `{ ...test, ...updates, updatedAt, variants }` */
  function ApplyUpdate(t: AbTest, u: UpdateAbTestInput, now: nat): AbTest {
    t.(name := u.name.GetOr(t.name),
       description := if u.description.Some? then u.description else t.description,
       campaignId := u.campaignId.GetOr(t.campaignId), channel := u.channel.GetOr(t.channel),
       targetMetric := u.targetMetric.GetOr(t.targetMetric),
       duration := if u.duration.Some? then u.duration else t.duration,
       sampleSize := if u.sampleSize.Some? then u.sampleSize else t.sampleSize,
       tags := if u.tags.Some? then u.tags else t.tags,
       updatedAt := now,
       variants := if u.variants.Some? then WithKeptIds(t.variants, u.variants.value, now) else t.variants)
  }

  function UpdateOne(t: AbTest, u: UpdateAbTestInput, now: nat): AbTest {
    if t.id == u.id then ApplyUpdate(t, u, now) else t
  }

  function UpdateMatching(ts: seq<AbTest>, u: UpdateAbTestInput, now: nat): (r: seq<AbTest>)
    ensures |r| == |ts|
    ensures forall i :: 0 <= i < |ts| ==> r[i] == UpdateOne(ts[i], u, now)
  {
    seq(|ts|, i requires 0 <= i < |ts| => UpdateOne(ts[i], u, now))
  }

  /** `getTestById` and the look-up `updateDraft` ends with: the first test with the id. */
  function FindTest(ts: seq<AbTest>, id: string): (r: Option<AbTest>)
    ensures r.Some? ==> r.value in ts && r.value.id == id
    ensures r.Some? ==> exists i :: 0 <= i < |ts| && ts[i] == r.value && forall j :: 0 <= j < i ==> ts[j].id != id
    ensures r.None? <==> forall t :: t in ts ==> t.id != id
  {
    if ts == [] then None else if ts[0].id == id then Some(ts[0]) else FindTest(ts[1..], id)
  }

  const NotFound := "Test not found"

  /** `updateDraft`: the matching tests are updated; the updated test is returned, or, when no test
      has the id, the error is stored and the call rejects. */
  function UpdateDraft(st: AbTestsState, u: UpdateAbTestInput, now: nat): (AbTestsState, Result<AbTest>) {
    var ts := UpdateMatching(st.tests, u, now);
    var found := FindTest(ts, u.id);
    if found.Some? then (st.(tests := ts, isLoading := false, error := None), Ok(found.value))
    else (st.(tests := ts, isLoading := false, error := Some(NotFound)), Err(NotFound))
  }

  /** Only tests with the id change. Each variant supplied keeps the id of the variant at the same
      index, when there was one with a non-empty id; the others get fresh ids. */
  lemma {:induction false} UpdateDraftEffect(st: AbTestsState, u: UpdateAbTestInput, now: nat)
    ensures var r := UpdateDraft(st, u, now).0;
      |r.tests| == |st.tests|
      && (forall i :: 0 <= i < |st.tests| && st.tests[i].id != u.id ==> r.tests[i] == st.tests[i])
      && (forall i :: 0 <= i < |st.tests| && st.tests[i].id == u.id ==>
            r.tests[i].updatedAt == now && r.tests[i].id == u.id && r.tests[i].status == st.tests[i].status
            && (u.variants.Some? ==>
                  |r.tests[i].variants| == |u.variants.value|
                  && (forall j :: 0 <= j < |u.variants.value| && j < |st.tests[i].variants| && st.tests[i].variants[j].id != "" ==>
                        r.tests[i].variants[j].id == st.tests[i].variants[j].id))
            && (u.variants.None? ==> r.tests[i].variants == st.tests[i].variants))
      && r.selectedTestIds == st.selectedTestIds && !r.isLoading
  {
  }

  /** The update resolves with the updated test exactly when a test had the id; an unknown id
      rejects with "Test not found" and leaves the tests as they were. */
  lemma {:induction false} UpdateDraftOutcome(st: AbTestsState, u: UpdateAbTestInput, now: nat)
    ensures var (r, res) := UpdateDraft(st, u, now);
      && (res.Ok? <==> exists t :: t in st.tests && t.id == u.id)
      && (res.Ok? ==> res.value.id == u.id && res.value.updatedAt == now && r.error.None?)
      && (res.Err? ==> res.message == NotFound && r.error == Some(NotFound) && r.tests == st.tests)
  {
    var (r, res) := UpdateDraft(st, u, now);
    if res.Err? {
      assert forall t :: t in st.tests ==> t.id != u.id by {
        forall t | t in st.tests ensures t.id != u.id {
          var i :| 0 <= i < |st.tests| && st.tests[i] == t;
          assert r.tests[i] in r.tests;
        }
      }
      assert r.tests == st.tests;
    } else {
      var i :| 0 <= i < |r.tests| && r.tests[i] == res.value;
      assert st.tests[i] in st.tests;
    }
  }

  function NotId(id: string): AbTest -> bool { (t: AbTest) => t.id != id }
  function Other(id: string): string -> bool { (s: string) => s != id }

  /** `deleteDraft`: the test leaves the list and the selection; the total drops by one even when no
      test had the id. */
  function DeleteDraft(st: AbTestsState, id: string): AbTestsState {
    st.(tests := Filter(st.tests, NotId(id)), selectedTestIds := Filter(st.selectedTestIds, Other(id)),
        pagination := st.pagination.(total := st.pagination.total - 1), isLoading := false, error := None)
  }

  lemma {:induction false} DeleteDraftEffect(st: AbTestsState, id: string)
    ensures var r := DeleteDraft(st, id);
      (forall t :: t in r.tests <==> t in st.tests && t.id != id)
      && (forall s :: s in r.selectedTestIds <==> s in st.selectedTestIds && s != id)
      && r.pagination.total == st.pagination.total - 1
    ensures (forall t :: t in st.tests ==> t.id != id) ==> DeleteDraft(st, id).tests == st.tests
  {
    forall t ensures t in Filter(st.tests, NotId(id)) <==> t in st.tests && t.id != id {
      FilterMembership(st.tests, NotId(id), t);
    }
    forall s ensures s in Filter(st.selectedTestIds, Other(id)) <==> s in st.selectedTestIds && s != id {
      FilterMembership(st.selectedTestIds, Other(id), s);
    }
    if forall t :: t in st.tests ==> t.id != id {
      FilterAll(st.tests, NotId(id));
    }
  }

  /** How a lifecycle action changes a matching test. */
  datatype Transition =
    | Start(now: nat)                         // `start`: running, from now
    | Stop(now: nat, winnerId: Option<string>) // `stop`: completed, ended now, with the winner given
    | SetStatus(status: string, now: nat)     // `updateStatus` (publish, pause, resume, archive)

  function Transit(t: AbTest, tr: Transition): AbTest {
    match tr
    case Start(now) => t.(status := "running", startDate := Some(now))
    case Stop(now, winnerId) => t.(status := "completed", endDate := Some(now), winner := winnerId)
    case SetStatus(status, now) => t.(status := status, updatedAt := now)
  }

  function TransitOne(t: AbTest, id: string, tr: Transition): AbTest {
    if t.id == id then Transit(t, tr) else t
  }

  /** `start`, `stop` and `updateStatus`: the tests with the id go through the transition. */
  function Lifecycle(st: AbTestsState, id: string, tr: Transition): (r: AbTestsState)
    ensures |r.tests| == |st.tests|
    ensures forall i :: 0 <= i < |st.tests| ==> r.tests[i] == TransitOne(st.tests[i], id, tr)
  {
    st.(tests := seq(|st.tests|, i requires 0 <= i < |st.tests| => TransitOne(st.tests[i], id, tr)),
        isLoading := false, error := None)
  }

  /** Only the matching tests change. `start` sets "running" and the start date from any status and
      keeps `updatedAt`; `stop` sets "completed", the end date and the winner, which becomes absent when
      none is given; the status actions set their status and `updatedAt`. */
  lemma {:induction false} LifecycleEffect(st: AbTestsState, id: string, tr: Transition)
    ensures var r := Lifecycle(st, id, tr);
      (forall i :: 0 <= i < |st.tests| && st.tests[i].id != id ==> r.tests[i] == st.tests[i])
      && (forall i :: 0 <= i < |st.tests| && st.tests[i].id == id ==>
            r.tests[i].id == id && r.tests[i].variants == st.tests[i].variants
            && (tr.Start? ==> r.tests[i].status == "running" && r.tests[i].startDate == Some(tr.now)
                              && r.tests[i].updatedAt == st.tests[i].updatedAt)
            && (tr.Stop? ==> r.tests[i].status == "completed" && r.tests[i].endDate == Some(tr.now)
                             && r.tests[i].winner == tr.winnerId)
            && (tr.SetStatus? ==> r.tests[i].status == tr.status && r.tests[i].updatedAt == tr.now))
      && r.selectedTestIds == st.selectedTestIds && r.pagination == st.pagination
  {
  }

  /** `publish`, `pause`, `resume` and `archive` as `updateStatus` calls. */
  function Publish(now: nat): Transition { SetStatus("draft", now) }
  function Pause(now: nat): Transition { SetStatus("paused", now) }
  function Resume(now: nat): Transition { SetStatus("running", now) }
  function Archive(now: nat): Transition { SetStatus("archived", now) }

  /** Publishing puts a test back to "draft" (it does not start it), pausing to "paused", resuming to
      "running" and archiving to "archived", each stamping `updatedAt`; other tests are untouched. */
  lemma {:induction false} StatusActionsEffect(st: AbTestsState, id: string, now: nat, i: nat)
    requires i < |st.tests|
    ensures st.tests[i].id == id ==>
      && Lifecycle(st, id, Publish(now)).tests[i] == st.tests[i].(status := "draft", updatedAt := now)
      && Lifecycle(st, id, Pause(now)).tests[i] == st.tests[i].(status := "paused", updatedAt := now)
      && Lifecycle(st, id, Resume(now)).tests[i] == st.tests[i].(status := "running", updatedAt := now)
      && Lifecycle(st, id, Archive(now)).tests[i] == st.tests[i].(status := "archived", updatedAt := now)
    ensures st.tests[i].id != id ==>
      && Lifecycle(st, id, Publish(now)).tests[i] == st.tests[i]
      && Lifecycle(st, id, Resume(now)).tests[i] == st.tests[i]
  {
  }

  /** Which single action a bulk action repeats. */
  datatype BulkKind = BulkStart | BulkPause | BulkArchive

  function BulkTransition(kind: BulkKind, now: nat): Transition {
    match kind
    case BulkStart => Start(now)
    case BulkPause => Pause(now)
    case BulkArchive => Archive(now)
  }

  /** The tests after the single actions for `ids`, one after the other; `clock(k)` is the time of the
      k-th. */
  function BulkAll(st: AbTestsState, ids: seq<string>, kind: BulkKind, clock: nat -> nat): AbTestsState
    decreases |ids|
  {
    if ids == [] then st
    else Lifecycle(BulkAll(st, ids[..|ids| - 1], kind, clock), ids[|ids| - 1], BulkTransition(kind, clock(|ids| - 1)))
  }

  function StatusOf(kind: BulkKind): string {
    match kind
    case BulkStart => "running"
    case BulkPause => "paused"
    case BulkArchive => "archived"
  }

  /** After a bulk action every test whose id is listed has the action's status, every other test is
      unchanged, and the list keeps its length and its ids. */
  lemma {:induction false} BulkAllEffect(st: AbTestsState, ids: seq<string>, kind: BulkKind, clock: nat -> nat)
    ensures var r := BulkAll(st, ids, kind, clock);
      |r.tests| == |st.tests|
      && (forall i :: 0 <= i < |st.tests| ==> r.tests[i].id == st.tests[i].id)
      && (forall i :: 0 <= i < |st.tests| && st.tests[i].id in ids ==> r.tests[i].status == StatusOf(kind))
      && (forall i :: 0 <= i < |st.tests| && st.tests[i].id !in ids ==> r.tests[i] == st.tests[i])
      && r.selectedTestIds == st.selectedTestIds
    decreases |ids|
  {
    if ids != [] {
      var init, last := ids[..|ids| - 1], ids[|ids| - 1];
      BulkAllEffect(st, init, kind, clock);
      assert forall s :: s in ids <==> s in init || s == last by { assert ids == init + [last]; }
    }
  }

  lemma {:induction false} BulkStep(st: AbTestsState, ids: seq<string>, k: nat, kind: BulkKind, clock: nat -> nat)
    requires k < |ids|
    ensures BulkAll(st, ids[..k + 1], kind, clock) == Lifecycle(BulkAll(st, ids[..k], kind, clock), ids[k], BulkTransition(kind, clock(k)))
  {
    assert ids[..k + 1][..k] == ids[..k];
  }

  /** `toggleTestSelection` */
  function ToggleSelection(st: AbTestsState, id: string): AbTestsState {
    st.(selectedTestIds := Toggle(st.selectedTestIds, id))
  }

  /** Toggling twice restores the selection's membership, and the selection itself when the id was
      not selected. */
  lemma {:induction false} ToggleSelectionTwice(st: AbTestsState, id: string)
    ensures var r := ToggleSelection(ToggleSelection(st, id), id);
      (forall s :: s in r.selectedTestIds <==> s in st.selectedTestIds) && r.tests == st.tests
    ensures id !in st.selectedTestIds ==> ToggleSelection(ToggleSelection(st, id), id) == st
  {
    ToggleTwice(st.selectedTestIds, id);
  }

  /** `selectAll`: the ids of every test, in order. */
  function SelectAll(st: AbTestsState): (r: AbTestsState)
    ensures |r.selectedTestIds| == |st.tests|
    ensures forall i :: 0 <= i < |st.tests| ==> r.selectedTestIds[i] == st.tests[i].id
    ensures forall t :: t in st.tests ==> t.id in r.selectedTestIds
    ensures r.tests == st.tests
  {
    var r := st.(selectedTestIds := seq(|st.tests|, i requires 0 <= i < |st.tests| => st.tests[i].id));
    assert forall i :: 0 <= i < |st.tests| ==> r.selectedTestIds[i] == st.tests[i].id;
    r
  }

  /** `setFilters`: merged; unlike the other stores, the page is not reset. */
  function SetFilters(st: AbTestsState, p: FiltersPatch): (r: AbTestsState)
    ensures p.status.Some? ==> r.filters.status == p.status.value
    ensures p.status.None? ==> r.filters.status == st.filters.status
    ensures p.search.Some? ==> r.filters.search == p.search.value
    ensures p.search.None? ==> r.filters.search == st.filters.search
    ensures r.filters.channels == (if p.channels.Some? then p.channels.value else st.filters.channels)
    ensures r.filters.dateRange == (if p.dateRange.Some? then p.dateRange else st.filters.dateRange)
    ensures r.filters.campaigns == (if p.campaigns.Some? then p.campaigns.value else st.filters.campaigns)
    ensures r.filters.owners == (if p.owners.Some? then p.owners.value else st.filters.owners)
    ensures r.filters.tags == (if p.tags.Some? then p.tags.value else st.filters.tags)
    ensures r.pagination == st.pagination && r.tests == st.tests
    ensures r == st.(filters := r.filters)
  {
    st.(filters := MergeFilters(st.filters, p))
  }

  /** `setPagination`: merged. */
  function SetPagination(st: AbTestsState, p: PaginationPatch): (r: AbTestsState)
    ensures r.pagination.page == p.page.GetOr(st.pagination.page)
    ensures r.pagination.pageSize == p.pageSize.GetOr(st.pagination.pageSize)
    ensures r.pagination.total == p.total.GetOr(st.pagination.total)
    ensures r.filters == st.filters
  {
    st.(pagination := Pagination(p.page.GetOr(st.pagination.page), p.pageSize.GetOr(st.pagination.pageSize),
                                 p.total.GetOr(st.pagination.total)))
  }

  /** `clearFilters`: the initial filters, and the initial pagination counting the current tests. */
  function ClearFilters(st: AbTestsState): (r: AbTestsState)
    ensures r.filters == InitialFilters && r.pagination == Pagination(1, 20, |st.tests|)
    ensures r.tests == st.tests && r.selectedTestIds == st.selectedTestIds && r.sorting == st.sorting
  {
    st.(filters := InitialFilters, pagination := InitialPagination.(total := |st.tests|))
  }

  /** Clearing the filters forgets any earlier filter or pagination change. */
  lemma {:induction false} ClearFiltersForgets(st: AbTestsState, f: FiltersPatch, p: PaginationPatch)
    ensures ClearFilters(SetFilters(st, f)) == ClearFilters(st)
    ensures ClearFilters(SetPagination(st, p)) == ClearFilters(st)
  {
  }

  /** `useAbTestsStore` */
  class Store {
    const mock: seq<AbTest>
    var state: AbTestsState

    constructor (mock: seq<AbTest>)
      ensures this.mock == mock && state == InitialState(mock)
    {
      this.mock := mock;
      state := InitialState(mock);
    }

    method FetchTestsAction(params: FiltersPatch)
      modifies this
      ensures state == FetchTests(old(state), mock, params)
    {
      state := FetchTests(state, mock, params);
    }

    method CreateDraftAction(input: CreateAbTestInput, now: nat) returns (t: AbTest)
      modifies this
      ensures t == NewTest(input, now) && state == CreateDraft(old(state), input, now)
    {
      t := NewTest(input, now);
      state := CreateDraft(state, input, now);
    }

    method UpdateDraftAction(u: UpdateAbTestInput, now: nat) returns (r: Result<AbTest>)
      modifies this
      ensures (state, r) == UpdateDraft(old(state), u, now)
    {
      state := state.(tests := UpdateMatching(state.tests, u, now), isLoading := false);
      var updated := FindTest(state.tests, u.id);
      if updated.None? {
        state := state.(error := Some(NotFound));
        return Err(NotFound);
      }
      state := state.(error := None);
      return Ok(updated.value);
    }

    method DeleteDraftAction(id: string)
      modifies this
      ensures state == DeleteDraft(old(state), id)
    {
      state := DeleteDraft(state, id);
    }

    method StartAction(id: string, now: nat)
      modifies this
      ensures state == Lifecycle(old(state), id, Start(now))
    {
      state := Lifecycle(state, id, Start(now));
    }

    method StopAction(id: string, winnerId: Option<string>, now: nat)
      modifies this
      ensures state == Lifecycle(old(state), id, Stop(now, winnerId))
    {
      state := Lifecycle(state, id, Stop(now, winnerId));
    }

    /** `updateStatus`; `publish`, `pause`, `resume` and `archive` call it with their status. */
    method UpdateStatusAction(id: string, status: string, now: nat)
      modifies this
      ensures state == Lifecycle(old(state), id, SetStatus(status, now))
    {
      state := Lifecycle(state, id, SetStatus(status, now));
    }

    /** `bulkStart`, `bulkPause` and `bulkArchive`: the single action for each id, in order. */
    method BulkAction(ids: seq<string>, kind: BulkKind, clock: nat -> nat)
      modifies this
      ensures state == BulkAll(old(state), ids, kind, clock)
    {
      var k := 0;
      while k < |ids|
        invariant 0 <= k <= |ids|
        invariant state == BulkAll(old(state), ids[..k], kind, clock)
      {
        BulkStep(old(state), ids, k, kind, clock);
        match kind {
          case BulkStart => StartAction(ids[k], clock(k));
          case BulkPause => UpdateStatusAction(ids[k], "paused", clock(k));
          case BulkArchive => UpdateStatusAction(ids[k], "archived", clock(k));
        }
        k := k + 1;
      }
      assert ids[..k] == ids;
    }

    method SetSelectedTestIds(ids: seq<string>)
      modifies this
      ensures state == old(state).(selectedTestIds := ids)
    {
      state := state.(selectedTestIds := ids);
    }

    method ToggleTestSelection(id: string)
      modifies this
      ensures state == ToggleSelection(old(state), id)
    {
      state := ToggleSelection(state, id);
    }

    method SelectAllAction()
      modifies this
      ensures state == SelectAll(old(state))
    {
      state := SelectAll(state);
    }

    method ClearSelection()
      modifies this
      ensures state == old(state).(selectedTestIds := [])
    {
      state := state.(selectedTestIds := []);
    }

    method SetEditingDraft(draft: Option<AbTestPatch>)
      modifies this
      ensures state == old(state).(editingDraft := draft)
    {
      state := state.(editingDraft := draft);
    }

    method SetFiltersAction(p: FiltersPatch)
      modifies this
      ensures state == SetFilters(old(state), p)
    {
      state := SetFilters(state, p);
    }

    method SetPaginationAction(p: PaginationPatch)
      modifies this
      ensures state == SetPagination(old(state), p)
    {
      state := SetPagination(state, p);
    }

    method SetSorting(sorting: Sorting)
      modifies this
      ensures state == old(state).(sorting := sorting)
    {
      state := state.(sorting := sorting);
    }

    method ClearFiltersAction()
      modifies this
      ensures state == ClearFilters(old(state))
    {
      state := ClearFilters(state);
    }

    method GetTestById(id: string) returns (r: Option<AbTest>)
      ensures r == FindTest(state.tests, id)
      ensures r.Some? ==>
        exists i :: 0 <= i < |state.tests| && state.tests[i] == r.value && forall j :: 0 <= j < i ==> state.tests[j].id != id
      ensures r.None? <==> forall t :: t in state.tests ==> t.id != id
    {
      r := FindTest(state.tests, id);
    }

    method ClearError()
      modifies this
      ensures state == old(state).(error := None)
    {
      state := state.(error := None);
    }
  }

  /** A created draft can be found by its id, and once started it is running from the start time. */
  method CreateStartScenario(input: CreateAbTestInput, created: nat, started: nat) returns (status: string, startDate: Option<nat>, count: nat)
    ensures status == "running" && startDate == Some(started) && count == 1
  {
    var store := new Store([]);
    var t := store.CreateDraftAction(input, created);
    store.StartAction(t.id, started);
    var found := store.GetTestById(t.id);
    assert store.state.tests[0].id == t.id;
    status, startDate := found.value.status, found.value.startDate;
    count := |store.state.tests|;
  }

  /** With a status filter set, a fetch returns only tests of that status (the store test
      "applies filters"). */
  method FilterScenario(mock: seq<AbTest>) returns (tests: seq<AbTest>)
    ensures forall t :: t in tests ==> t.status == "running"
    ensures forall t :: t in mock && t.status == "running" ==> t in tests
  {
    var store := new Store(mock);
    store.SetFiltersAction(NoFilters.(status := Some(["running"])));
    var before := store.state;
    store.FetchTestsAction(NoFilters);
    FetchTestsEffect(before, mock, NoFilters);
    tests := store.state.tests;
  }
}
