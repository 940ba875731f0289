/** The campaign list hook of apps/web/src/app/modules/campaigns/welcome/hooks/useCampaigns.ts: the
    reducer, the derived statistics, and the hook's actions as a class whose fields are the reducer
    state, the filters and the selected campaign. Simulated latency is left out, `Date.now()` is the
    `now` parameter, and the mock data set is a parameter of `LoadCampaigns`. */
module UseCampaigns {
  import opened Wrappers
  import opened Strings
  import opened Seqs
  import opened CampaignTypes
  import opened CampaignsMock

  datatype CampaignState = CampaignState(campaigns: seq<Campaign>, loading: bool, error: Option<string>)

  datatype CampaignAction =
    | SetCampaigns(campaigns: seq<Campaign>)
    | AddCampaign(campaign: Campaign)
    | UpdateCampaign(id: string, updates: CampaignPatch)
    | DeleteCampaign(id: string)
    | BulkUpdate(ids: seq<string>, updates: CampaignPatch)
    | SetLoading(loading: bool)
    | SetError(error: Option<string>)
    | Unknown

  const InitialState := CampaignState([], true, None)

  /** The campaign with the update applied and `updatedAt` set to the dispatch time. */
  function Updated(c: Campaign, updates: CampaignPatch, now: nat): Campaign {
    ApplyPatch(c, updates).(updatedAt := now)
  }

  /** `campaignReducer`; `now` is the time at which the action is dispatched. */
  function CampaignReducer(state: CampaignState, action: CampaignAction, now: nat): CampaignState {
    match action
    case SetCampaigns(cs) => state.(campaigns := cs, loading := false)
    case AddCampaign(c) => state.(campaigns := [c] + state.campaigns, loading := false)
    case UpdateCampaign(id, u) =>
      state.(campaigns := Map(state.campaigns, (c: Campaign) => if c.id == id then Updated(c, u, now) else c),
             loading := false)
    case DeleteCampaign(id) => state.(campaigns := Filter(state.campaigns, (c: Campaign) => c.id != id), loading := false)
    case BulkUpdate(ids, u) =>
      state.(campaigns := Map(state.campaigns, (c: Campaign) => if c.id in ids then Updated(c, u, now) else c),
             loading := false)
    case SetLoading(b) => state.(loading := b)
    case SetError(e) => state.(error := e, loading := false)
    case Unknown => state
  }

  /** ADD_CAMPAIGN puts the campaign first and keeps the others behind it. */
  lemma {:induction false} AddPrepends(state: CampaignState, c: Campaign, now: nat)
    ensures var r := CampaignReducer(state, AddCampaign(c), now);
      |r.campaigns| == |state.campaigns| + 1 && r.campaigns[0] == c && r.campaigns[1..] == state.campaigns
      && !r.loading && r.error == state.error
  {
  }

  /** UPDATE_CAMPAIGN changes exactly the campaigns with that id, in place. */
  lemma {:induction false} UpdateTouchesOnlyId(state: CampaignState, id: string, u: CampaignPatch, now: nat)
    ensures var r := CampaignReducer(state, UpdateCampaign(id, u), now);
      |r.campaigns| == |state.campaigns| && !r.loading
      && forall i :: 0 <= i < |state.campaigns| ==>
           r.campaigns[i] == (if state.campaigns[i].id == id then Updated(state.campaigns[i], u, now) else state.campaigns[i])
  {
  }

  /** DELETE_CAMPAIGN removes exactly the campaigns with that id and keeps the rest in order. */
  lemma {:induction false} DeleteRemovesId(state: CampaignState, id: string, now: nat, c: Campaign)
    ensures var r := CampaignReducer(state, DeleteCampaign(id), now);
      IsSubsequence(r.campaigns, state.campaigns) && !r.loading
      && (c in r.campaigns <==> c in state.campaigns && c.id != id)
  {
    FilterIsSubsequence(state.campaigns, (c: Campaign) => c.id != id);
    FilterMembership(state.campaigns, (c: Campaign) => c.id != id, c);
  }

  /** BULK_UPDATE changes exactly the campaigns whose id is listed. */
  lemma {:induction false} BulkUpdateTouchesOnlyIds(state: CampaignState, ids: seq<string>, u: CampaignPatch, now: nat)
    ensures var r := CampaignReducer(state, BulkUpdate(ids, u), now);
      |r.campaigns| == |state.campaigns| && !r.loading
      && forall i :: 0 <= i < |state.campaigns| ==>
           r.campaigns[i] == (if state.campaigns[i].id in ids then Updated(state.campaigns[i], u, now) else state.campaigns[i])
  {
  }

  /** Every data action and SET_ERROR clear `loading`; the unknown action changes nothing. */
  lemma {:induction false} LoadingCleared(state: CampaignState, action: CampaignAction, now: nat)
    ensures !action.SetLoading? && !action.Unknown? ==> !CampaignReducer(state, action, now).loading
    ensures action.Unknown? ==> CampaignReducer(state, action, now) == state
    ensures !action.SetError? ==> CampaignReducer(state, action, now).error == state.error
  {
  }

  datatype CampaignStats = CampaignStats(
    total: nat, active: nat, scheduled: nat, paused: nat, completed: nat, failed: nat, draft: nat,
    totalSpent: real, totalBudget: real, totalImpressions: real, totalClicks: real, totalConversions: real,
    averageCTR: real, averageConversionRate: real, averageCPC: real)

  function StatusCount(cs: seq<Campaign>, status: string): nat {
    Count(cs, (c: Campaign) => c.status == status)
  }

  /** `Number(x.toFixed(2))` on the exact value `x`: `toFixed` rounds `|x|` to two decimals, halves
      up, and then writes the sign, so a tie goes away from zero. The result is a whole number of
      hundredths at most half a hundredth from `x`. */
  function Round2(x: real): (r: real)
    ensures (r * 100.0).Floor as real == r * 100.0
    ensures -0.005 <= r - x <= 0.005
  {
    var ax := if x < 0.0 then -x else x;
    var n := (ax * 100.0 + 0.5).Floor;
    var m := n as real / 100.0;
    assert m * 100.0 == n as real;
    assert n as real <= ax * 100.0 + 0.5 < n as real + 1.0;
    assert -0.005 <= m - ax <= 0.005;
    if x < 0.0 then
      assert (-m * 100.0).Floor == -n;
      -m
    else m
  }

  /** Rounding commutes with negation, and a tie goes away from zero on either side. */
  lemma {:induction false} Round2Symmetric(x: real)
    ensures Round2(-x) == -Round2(x)
    ensures Round2(0.125) == 0.13 && Round2(-0.125) == -0.13
  {
    assert (0.125 * 100.0 + 0.5).Floor == 13;
  }

  function Ctr(c: Campaign): real { c.metrics.ctr }
  function ConversionRate(c: Campaign): real { c.metrics.conversionRate }
  function CostPerClick(c: Campaign): real { c.metrics.costPerClick }

  function Mean(cs: seq<Campaign>, f: Campaign -> real): real
    requires cs != []
  {
    SumOf(cs, f) / |cs| as real
  }

  function Average(cs: seq<Campaign>, f: Campaign -> real): real {
    if |cs| > 0 then Round2(Mean(cs, f)) else 0.0
  }

  /** The memoised `stats` of the hook. */
  function Stats(cs: seq<Campaign>): (r: CampaignStats)
    ensures r.total == |cs|
    ensures r.active <= r.total && r.scheduled <= r.total && r.paused <= r.total
    ensures r.completed <= r.total && r.failed <= r.total && r.draft <= r.total
    ensures cs == [] ==> r.averageCTR == 0.0 && r.averageConversionRate == 0.0 && r.averageCPC == 0.0
    ensures cs == [] ==> r.totalSpent == 0.0 && r.totalBudget == 0.0 && r.totalImpressions == 0.0
    ensures cs != [] ==>
      r.averageCTR == Round2(Mean(cs, Ctr)) && r.averageConversionRate == Round2(Mean(cs, ConversionRate))
      && r.averageCPC == Round2(Mean(cs, CostPerClick))
    ensures cs != [] ==>
      -0.005 <= r.averageCTR - Mean(cs, Ctr) <= 0.005
      && -0.005 <= r.averageConversionRate - Mean(cs, ConversionRate) <= 0.005
      && -0.005 <= r.averageCPC - Mean(cs, CostPerClick) <= 0.005
  {
    CampaignStats(
      |cs|, StatusCount(cs, "active"), StatusCount(cs, "scheduled"), StatusCount(cs, "paused"),
      StatusCount(cs, "completed"), StatusCount(cs, "failed"), StatusCount(cs, "draft"),
      SumOf(cs, (c: Campaign) => c.budget.spent), SumOf(cs, (c: Campaign) => c.budget.total),
      SumOf(cs, (c: Campaign) => c.metrics.impressions), SumOf(cs, (c: Campaign) => c.metrics.clicks),
      SumOf(cs, (c: Campaign) => c.metrics.conversions),
      Average(cs, Ctr), Average(cs, ConversionRate), Average(cs, CostPerClick))
  }

  /** One campaign whose click-through rate is -0.125 averages to -0.13, as `toFixed` gives it. */
  lemma {:induction false} NegativeTieAverage(c: Campaign)
    requires c.metrics.ctr == -0.125
    ensures Stats([c]).averageCTR == -0.13
  {
    assert SumOf([c], Ctr) == -0.125 by {
      assert [c][1..] == [];
    }
    Round2Symmetric(0.125);
  }

  /** The six status counts together never exceed the total: a campaign has one status. */
  lemma {:induction false} StatusCountsWithinTotal(cs: seq<Campaign>)
    ensures var r := Stats(cs); r.active + r.scheduled + r.paused + r.completed + r.failed + r.draft <= r.total
    decreases |cs|
  {
    if cs != [] { StatusCountsWithinTotal(cs[1..]); }
  }

  /** Adding a campaign adds one to the total and its figures to the sums. */
  lemma {:induction false} StatsAfterAdd(c: Campaign, cs: seq<Campaign>)
    ensures var before, after := Stats(cs), Stats([c] + cs);
      after.total == before.total + 1
      && after.totalBudget == before.totalBudget + c.budget.total
      && after.totalSpent == before.totalSpent + c.budget.spent
      && (after.draft == before.draft + 1 <==> c.status == "draft")
  {
    assert ([c] + cs)[1..] == cs;
  }

  /** The campaign `createCampaign` builds from a partial record; `||` falls back on empty strings. */
  function NewCampaign(data: CampaignPatch, now: nat): (r: Campaign)
    ensures r.id == "camp_" + NatToString(now)
    ensures r.createdAt == now && r.updatedAt == now && !r.isArchived
    ensures r.name != "" && r.description.Some?
    ensures data.name.Some? && data.name.value != "" ==> r.name == data.name.value
    ensures data.status.None? ==> r.status == "draft"
    ensures data.budget.None? ==> r.budget == Budget(1000.0, Some(50.0), 0.0, "EUR", "lowest_cost")
    ensures data.metrics.None? ==> r.metrics == ZeroMetrics
    ensures data.schedule.None? ==> r.schedule == Schedule(now + 86400000, None, "Europe/Paris")
  {
    Campaign(
      "camp_" + NatToString(now),
      Or(data.name, "Nouvelle campagne"),
      Some(Or(data.description, "")),
      Or(data.channel, "facebook"), Or(data.status, "draft"), Or(data.campaignType, "promotion"),
      Or(data.objective, "traffic"), Or(data.owner, "Utilisateur actuel"), Or(data.ownerId, "current_user"),
      now, now,
      data.schedule.GetOr(Schedule(now + 86400000, None, "Europe/Paris")),
      data.budget.GetOr(Budget(1000.0, Some(50.0), 0.0, "EUR", "lowest_cost")),
      data.metrics.GetOr(ZeroMetrics),
      data.tags.GetOr([]),
      false)
  }

  /** `s || d` on an optional string: the empty string is falsy. */
  function Or(s: Option<string>, d: string): (r: string)
    ensures d != "" ==> r != ""
  {
    if s.Some? && s.value != "" then s.value else d
  }

  /** The partial record `duplicateCampaign` hands to `createCampaign`: the original without its id. */
  function DuplicateData(c: Campaign): CampaignPatch {
    CampaignPatch(
      None, Some(c.name + " (Copie)"), c.description, Some(c.channel), Some("draft"), Some(c.campaignType),
      Some(c.objective), Some(c.owner), Some(c.ownerId), Some(c.createdAt),
      Some(c.schedule), Some(c.budget.(spent := 0.0)), Some(ZeroMetrics), Some(c.tags), Some(c.isArchived))
  }

  function FindById(cs: seq<Campaign>, id: string): (r: Option<Campaign>)
    ensures r.Some? ==> r.value in cs && r.value.id == id
    ensures r.Some? ==> exists i :: 0 <= i < |cs| && cs[i] == r.value && forall j :: 0 <= j < i ==> cs[j].id != id
    ensures r.None? <==> forall c :: c in cs ==> c.id != id
  {
    if cs == [] then None else if cs[0].id == id then Some(cs[0]) else FindById(cs[1..], id)
  }

  /** The copy: the original's content named "(Copie)", as a draft with zeroed metrics and nothing spent. */
  lemma {:induction false} DuplicateShape(c: Campaign, now: nat)
    ensures var d := NewCampaign(DuplicateData(c), now);
      d.name == c.name + " (Copie)" && d.status == "draft" && d.metrics == ZeroMetrics
      && d.budget == c.budget.(spent := 0.0) && d.tags == c.tags && d.schedule == c.schedule
      && d.id == "camp_" + NatToString(now) && !d.isArchived && d.createdAt == now
  {
    assert (c.name + " (Copie)") != "";
    assert |c.name + " (Copie)"| > 0;
  }

  /** `Partial<FilterOptions>`: an absent field is `None`. */
  datatype FilterPatch = FilterPatch(
    search: Option<string>, status: Option<seq<string>>, channels: Option<seq<string>>,
    types: Option<seq<string>>, objectives: Option<seq<string>>, owners: Option<seq<string>>,
    tags: Option<seq<string>>, dateRange: Option<DateRange>, budgetRange: Option<BudgetRange>,
    sortBy: Option<string>, sortOrder: Option<string>)

  const NoFilterChange := FilterPatch(None, None, None, None, None, None, None, None, None, None, None)

  /** `{ ...prev, ...newFilters }` */
  function MergeFilters(f: FilterOptions, p: FilterPatch): FilterOptions {
    FilterOptions(
      p.search.GetOr(f.search), p.status.GetOr(f.status), p.channels.GetOr(f.channels),
      p.types.GetOr(f.types), p.objectives.GetOr(f.objectives), p.owners.GetOr(f.owners),
      p.tags.GetOr(f.tags), p.dateRange.GetOr(f.dateRange), p.budgetRange.GetOr(f.budgetRange),
      p.sortBy.GetOr(f.sortBy), p.sortOrder.GetOr(f.sortOrder))
  }

  /** The patch that sets every field to those of `f`. */
  function FullPatch(f: FilterOptions): FilterPatch {
    FilterPatch(Some(f.search), Some(f.status), Some(f.channels), Some(f.types), Some(f.objectives),
                Some(f.owners), Some(f.tags), Some(f.dateRange), Some(f.budgetRange), Some(f.sortBy),
                Some(f.sortOrder))
  }

  /** An empty patch keeps the filters; a patch that names every field replaces them; the same patch
      merged twice is merged once. */
  lemma {:induction false} MergeFiltersLaws(f: FilterOptions, g: FilterOptions, p: FilterPatch)
    ensures MergeFilters(f, NoFilterChange) == f
    ensures MergeFilters(f, FullPatch(g)) == g
    ensures MergeFilters(MergeFilters(f, p), p) == MergeFilters(f, p)
  {
  }

  /** A field present in the patch wins, and every absent field keeps its current value. */
  lemma {:induction false} MergeFiltersFields(f: FilterOptions, p: FilterPatch)
    ensures var r := MergeFilters(f, p);
      && r.search == (if p.search.Some? then p.search.value else f.search)
      && r.status == (if p.status.Some? then p.status.value else f.status)
      && r.channels == (if p.channels.Some? then p.channels.value else f.channels)
      && r.types == (if p.types.Some? then p.types.value else f.types)
      && r.objectives == (if p.objectives.Some? then p.objectives.value else f.objectives)
      && r.owners == (if p.owners.Some? then p.owners.value else f.owners)
      && r.tags == (if p.tags.Some? then p.tags.value else f.tags)
      && r.dateRange == (if p.dateRange.Some? then p.dateRange.value else f.dateRange)
      && r.budgetRange == (if p.budgetRange.Some? then p.budgetRange.value else f.budgetRange)
      && r.sortBy == (if p.sortBy.Some? then p.sortBy.value else f.sortBy)
      && r.sortOrder == (if p.sortOrder.Some? then p.sortOrder.value else f.sortOrder)
  {
  }

  /** `updateFilters({ status: [status] })` changes the status filter alone. */
  lemma {:induction false} StatusOnlyPatch(f: FilterOptions, status: string)
    ensures MergeFilters(f, NoFilterChange.(status := Some([status]))) == f.(status := [status])
  {
  }

  class CampaignsHook {
    var state: CampaignState
    var filters: FilterOptions
    var selectedCampaign: Option<Campaign>

    constructor ()
      ensures state == InitialState && filters == DefaultCampaignFilters && selectedCampaign.None?
    {
      state := InitialState;
      filters := DefaultCampaignFilters;
      selectedCampaign := None;
    }

    /** `dispatch` */
    method Dispatch(action: CampaignAction, now: nat)
      modifies this
      ensures state == CampaignReducer(old(state), action, now)
      ensures filters == old(filters) && selectedCampaign == old(selectedCampaign)
    {
      state := CampaignReducer(state, action, now);
    }

    /** `filteredCampaigns`: the filtered list, sorted by the filters' field and order. */
    function FilteredCampaigns(): (r: seq<Campaign>)
      reads this
      ensures multiset(r) == multiset(FilterCampaigns(state.campaigns, filters))
      ensures var field := filters.sortBy; Sorting.SortedBy(r, c => CampaignKey(field, c), filters.sortOrder != "asc")
      ensures forall c :: c in r <==> c in state.campaigns && Keep(c, filters)
    {
      FilteredSortedKeep(state.campaigns, filters);
      SortCampaigns(FilterCampaigns(state.campaigns, filters), filters.sortBy, filters.sortOrder)
    }

    /** The initial load: loading, then the data set, then the error cleared. */
    method LoadCampaigns(data: seq<Campaign>, now: nat)
      modifies this
      ensures state == CampaignState(data, false, None)
      ensures filters == old(filters) && selectedCampaign == old(selectedCampaign)
    {
      Dispatch(SetLoading(true), now);
      Dispatch(SetCampaigns(data), now);
      Dispatch(SetError(None), now);
    }

    /** `updateFilters`: the fields present in the patch replace the current ones, the others stay. */
    method UpdateFilters(newFilters: FilterPatch)
      modifies this
      ensures filters == MergeFilters(old(filters), newFilters)
      ensures state == old(state) && selectedCampaign == old(selectedCampaign)
    {
      filters := MergeFilters(filters, newFilters);
    }

    method SelectCampaign(c: Option<Campaign>)
      modifies this
      ensures selectedCampaign == c && state == old(state) && filters == old(filters)
    {
      selectedCampaign := c;
    }

    /** `createCampaign`: the new campaign is put first and selected. */
    method CreateCampaign(data: CampaignPatch, now: nat) returns (c: Campaign)
      modifies this
      ensures c == NewCampaign(data, now)
      ensures state == old(state).(campaigns := [c] + old(state).campaigns, loading := false)
      ensures selectedCampaign == Some(c) && filters == old(filters)
    {
      Dispatch(SetLoading(true), now);
      c := NewCampaign(data, now);
      Dispatch(AddCampaign(c), now);
      selectedCampaign := Some(c);
    }

    /** `updateCampaign`: the selected copy gets the updates but keeps its old `updatedAt`. */
    method UpdateCampaign(id: string, updates: CampaignPatch, now: nat)
      modifies this
      ensures state == CampaignReducer(old(state), CampaignAction.UpdateCampaign(id, updates), now)
      ensures old(selectedCampaign).Some? && old(selectedCampaign).value.id == id ==>
        selectedCampaign == Some(ApplyPatch(old(selectedCampaign).value, updates))
      ensures !(old(selectedCampaign).Some? && old(selectedCampaign).value.id == id) ==>
        selectedCampaign == old(selectedCampaign)
      ensures filters == old(filters)
    {
      Dispatch(SetLoading(true), now);
      Dispatch(CampaignAction.UpdateCampaign(id, updates), now);
      if selectedCampaign.Some? && selectedCampaign.value.id == id {
        selectedCampaign := Some(ApplyPatch(selectedCampaign.value, updates));
      }
    }

    /** `deleteCampaign`: the selection is cleared when it was that campaign. */
    method DeleteCampaign(id: string, now: nat)
      modifies this
      ensures state == CampaignReducer(old(state), CampaignAction.DeleteCampaign(id), now)
      ensures selectedCampaign == (if old(selectedCampaign).Some? && old(selectedCampaign).value.id == id
                                   then None else old(selectedCampaign))
      ensures filters == old(filters)
    {
      Dispatch(SetLoading(true), now);
      Dispatch(CampaignAction.DeleteCampaign(id), now);
      if selectedCampaign.Some? && selectedCampaign.value.id == id {
        selectedCampaign := None;
      }
    }

    /** `duplicateCampaign`: an unknown id records the error and fails with "Campagne non trouvée". */
    method DuplicateCampaign(id: string, now: nat) returns (r: Result<Campaign>)
      modifies this
      ensures FindById(old(state).campaigns, id).None? ==>
        r == Err("Campagne non trouvée")
        && state == old(state).(error := Some("Erreur lors de la duplication de la campagne"), loading := false)
        && selectedCampaign == old(selectedCampaign)
      ensures FindById(old(state).campaigns, id).Some? ==>
        var c := NewCampaign(DuplicateData(FindById(old(state).campaigns, id).value), now);
        r == Ok(c) && state == old(state).(campaigns := [c] + old(state).campaigns, loading := false)
        && selectedCampaign == Some(c)
      ensures filters == old(filters)
    {
      var original := FindById(state.campaigns, id);
      if original.None? {
        Dispatch(SetError(Some("Erreur lors de la duplication de la campagne")), now);
        return Err("Campagne non trouvée");
      }
      var c := CreateCampaign(DuplicateData(original.value), now);
      r := Ok(c);
    }

    /** `archiveCampaign`: an update to status "completed" and `isArchived`. */
    method ArchiveCampaign(id: string, now: nat)
      modifies this
      ensures state == CampaignReducer(old(state), CampaignAction.UpdateCampaign(id, ArchivePatch), now)
      ensures filters == old(filters)
    {
      UpdateCampaign(id, ArchivePatch, now);
    }

    /** The bulk pause, resume and archive operations: one BULK_UPDATE. */
    method BulkUpdate(ids: seq<string>, updates: CampaignPatch, now: nat)
      modifies this
      ensures state == CampaignReducer(old(state), CampaignAction.BulkUpdate(ids, updates), now)
      ensures filters == old(filters) && selectedCampaign == old(selectedCampaign)
    {
      Dispatch(SetLoading(true), now);
      Dispatch(CampaignAction.BulkUpdate(ids, updates), now);
    }

    /** The bulk delete: one DELETE per id, so no listed id remains and the rest keep their order.
        With no ids no DELETE is dispatched and `loading` stays set. */
    method BulkDelete(ids: seq<string>, now: nat)
      modifies this
      ensures state.campaigns == Filter(old(state).campaigns, (c: Campaign) => c.id !in ids)
      ensures state.loading == (ids == []) && state.error == old(state).error
      ensures selectedCampaign == (if old(selectedCampaign).Some? && old(selectedCampaign).value.id in ids
                                   then None else old(selectedCampaign))
      ensures filters == old(filters)
    {
      Dispatch(SetLoading(true), now);
      FilterAll(old(state).campaigns, (c: Campaign) => c.id !in ids[..0]);
      var k := 0;
      while k < |ids|
        invariant 0 <= k <= |ids|
        invariant state.campaigns == Filter(old(state).campaigns, (c: Campaign) => c.id !in ids[..k])
        invariant state.loading == (k == 0) && state.error == old(state).error
        invariant filters == old(filters) && selectedCampaign == old(selectedCampaign)
      {
        DeleteOneMore(old(state).campaigns, ids, k);
        Dispatch(CampaignAction.DeleteCampaign(ids[k]), now);
        k := k + 1;
      }
      assert ids[..k] == ids;
      if selectedCampaign.Some? && selectedCampaign.value.id in ids {
        selectedCampaign := None;
      }
    }
  }

  /** Deleting one more listed id from the campaigns without the first `k` ids leaves the campaigns
      without the first `k + 1`. */
  lemma {:induction false} DeleteOneMore(cs: seq<Campaign>, ids: seq<string>, k: nat)
    requires k < |ids|
    ensures Filter(Filter(cs, (c: Campaign) => c.id !in ids[..k]), (c: Campaign) => c.id != ids[k])
      == Filter(cs, (c: Campaign) => c.id !in ids[..k + 1])
  {
    assert ids[..k + 1] == ids[..k] + [ids[k]];
    FilterFilter(cs, (c: Campaign) => c.id !in ids[..k], (c: Campaign) => c.id != ids[k],
                 (c: Campaign) => c.id !in ids[..k + 1]);
  }

  /** The hook's filtered list is the sorted filter of the campaigns. */
  lemma {:induction false} FilteredIsSortedFilter(cs: seq<Campaign>, f: FilterOptions, c: Campaign)
    ensures var r := SortCampaigns(FilterCampaigns(cs, f), f.sortBy, f.sortOrder);
      multiset(r) == multiset(FilterCampaigns(cs, f)) && (c in r <==> c in cs && Keep(c, f))
  {
    SortCampaignsCorrect(FilterCampaigns(cs, f), f.sortBy, f.sortOrder, Sorting.Num(0.0));
    FilterCampaignsSubsequence(cs, f, c);
    assert c in SortCampaigns(FilterCampaigns(cs, f), f.sortBy, f.sortOrder) <==> c in multiset(FilterCampaigns(cs, f));
  }

  /** The sorted filtered list is sorted, a permutation of the filter's result, and holds exactly
      the campaigns the filters keep. */
  lemma {:induction false} FilteredSortedKeep(cs: seq<Campaign>, f: FilterOptions)
    ensures var r := SortCampaigns(FilterCampaigns(cs, f), f.sortBy, f.sortOrder);
      && multiset(r) == multiset(FilterCampaigns(cs, f))
      && Sorting.SortedBy(r, c => CampaignKey(f.sortBy, c), f.sortOrder != "asc")
      && forall c :: c in r <==> c in cs && Keep(c, f)
  {
    SortCampaignsCorrect(FilterCampaigns(cs, f), f.sortBy, f.sortOrder, Sorting.Num(0.0));
    forall c ensures c in SortCampaigns(FilterCampaigns(cs, f), f.sortBy, f.sortOrder) <==> c in cs && Keep(c, f) {
      FilteredIsSortedFilter(cs, f, c);
    }
  }
}
