/** The campaign list filter and sort of apps/web/src/app/modules/campaigns/welcome/mocks/campaigns.mock.ts.
    Filter dates are timestamps; an absent or empty date string is `None`. */
module CampaignsMock {
  import opened Wrappers
  import opened Strings
  import opened Seqs
  import opened Sorting
  import opened CampaignTypes

  datatype DateRange = DateRange(start: Option<nat>, end: Option<nat>)
  datatype BudgetRange = BudgetRange(min: Option<real>, max: Option<real>)

  datatype FilterOptions = FilterOptions(
    search: string, status: seq<string>, channels: seq<string>, types: seq<string>,
    objectives: seq<string>, owners: seq<string>, tags: seq<string>,
    dateRange: DateRange, budgetRange: BudgetRange, sortBy: string, sortOrder: string)

  const DefaultCampaignFilters := FilterOptions(
    "", [], [], [], [], [], [], DateRange(None, None), BudgetRange(None, None), "updatedAt", "desc")

  /** The global search: a case-insensitive substring of the name, description, owner or a tag. */
  predicate MatchesSearch(c: Campaign, search: string) {
    var q := Lower(search);
    search == []
    || Contains(Lower(c.name), q)
    || (c.description.Some? && Contains(Lower(c.description.value), q))
    || Contains(Lower(c.owner), q)
    || exists i | 0 <= i < |c.tags| :: Contains(Lower(c.tags[i]), q)
  }

  /** An enumeration filter: empty means "any". */
  predicate InFilter(allowed: seq<string>, v: string) {
    allowed == [] || v in allowed
  }

  predicate SharesTag(filterTags: seq<string>, tags: seq<string>) {
    filterTags == [] || exists t | t in filterTags :: t in tags
  }

  predicate InBudget(r: BudgetRange, total: real) {
    (r.min.None? || total >= r.min.value) && (r.max.None? || total <= r.max.value)
  }

  predicate InDates(r: DateRange, startAt: nat) {
    (r.start.None? || startAt >= r.start.value) && (r.end.None? || startAt <= r.end.value)
  }

  predicate Keep(c: Campaign, f: FilterOptions) {
    MatchesSearch(c, f.search)
    && InFilter(f.status, c.status) && InFilter(f.channels, c.channel) && InFilter(f.types, c.campaignType)
    && InFilter(f.objectives, c.objective) && InFilter(f.owners, c.owner)
    && SharesTag(f.tags, c.tags)
    && InBudget(f.budgetRange, c.budget.total)
    && InDates(f.dateRange, c.schedule.startAt)
  }

  /** `filterCampaigns` */
  function FilterCampaigns(cs: seq<Campaign>, f: FilterOptions): (r: seq<Campaign>)
    ensures |r| <= |cs|
    ensures forall i :: 0 <= i < |r| ==> Keep(r[i], f)
  {
    Filter(cs, c => Keep(c, f))
  }

  /** The result keeps input order and only removes campaigns; a campaign is kept iff it passes every criterion. */
  lemma {:induction false} FilterCampaignsSubsequence(cs: seq<Campaign>, f: FilterOptions, c: Campaign)
    ensures IsSubsequence(FilterCampaigns(cs, f), cs)
    ensures c in FilterCampaigns(cs, f) <==> c in cs && Keep(c, f)
  {
    FilterIsSubsequence(cs, c => Keep(c, f));
    FilterMembership(cs, c => Keep(c, f), c);
  }

  /** The default filters keep every campaign. */
  lemma {:induction false} DefaultFiltersKeepAll(cs: seq<Campaign>)
    ensures FilterCampaigns(cs, DefaultCampaignFilters) == cs
  {
    FilterAll(cs, c => Keep(c, DefaultCampaignFilters));
  }

  /** Searching is case-insensitive: upper- or lower-casing the query does not change the outcome. */
  lemma {:induction false} SearchIgnoresCase(c: Campaign, search: string)
    ensures MatchesSearch(c, Upper(search)) == MatchesSearch(c, search)
    ensures MatchesSearch(c, Lower(search)) == MatchesSearch(c, search)
  {
    LowerOfUpper(search);
  }

  /** A query that occurs in the lower-cased name matches, whatever the other fields hold. */
  lemma {:induction false} SearchFindsName(c: Campaign, search: string)
    requires Contains(Lower(c.name), Lower(search))
    ensures MatchesSearch(c, search)
  {
  }

  /** The budget and date bounds are inclusive at both ends. */
  lemma {:induction false} BoundsInclusive(total: real, startAt: nat)
    ensures InBudget(BudgetRange(Some(total), Some(total)), total)
    ensures InDates(DateRange(Some(startAt), Some(startAt)), startAt)
    ensures !InBudget(BudgetRange(Some(total + 1.0), None), total)
  {
  }

  /** `new Date(8640000000000000)`: the latest representable date, used for a missing end. */
  const MaxDate: nat := 8640000000000000

  /** The value `sortCampaigns` compares for a sort field; an unknown field compares `updatedAt`. */
  function CampaignKey(sortBy: string, c: Campaign): Key {
    if sortBy == "name" then Str(Lower(c.name))
    else if sortBy == "status" then Str(c.status)
    else if sortBy == "channel" then Str(c.channel)
    else if sortBy == "startAt" then Num(c.schedule.startAt as real)
    else if sortBy == "endAt" then Num((if c.schedule.endAt.Some? then c.schedule.endAt.value else MaxDate) as real)
    else if sortBy == "impressions" then Num(c.metrics.impressions)
    else if sortBy == "clicks" then Num(c.metrics.clicks)
    else if sortBy == "conversions" then Num(c.metrics.conversions)
    else if sortBy == "spend" then Num(c.budget.spent)
    else if sortBy == "owner" then Str(Lower(c.owner))
    else Num(c.updatedAt as real)
  }

  const SortFields: seq<string> :=
    ["name", "status", "channel", "startAt", "endAt", "impressions", "clicks", "conversions", "spend", "owner", "updatedAt"]

  /** `sortCampaigns`: any order other than "asc" behaves as descending. */
  function SortCampaigns(cs: seq<Campaign>, sortBy: string, sortOrder: string): (r: seq<Campaign>)
    ensures |r| == |cs|
  {
    SortBy(cs, c => CampaignKey(sortBy, c), sortOrder != "asc")
  }

  /** The sort returns a permutation of a copy, ordered by the key, with equal keys in input order. */
  lemma {:induction false} SortCampaignsCorrect(cs: seq<Campaign>, sortBy: string, sortOrder: string, k: Key)
    ensures multiset(SortCampaigns(cs, sortBy, sortOrder)) == multiset(cs)
    ensures SortedBy(SortCampaigns(cs, sortBy, sortOrder), c => CampaignKey(sortBy, c), sortOrder != "asc")
    ensures WithKey(SortCampaigns(cs, sortBy, sortOrder), c => CampaignKey(sortBy, c), k)
         == WithKey(cs, c => CampaignKey(sortBy, c), k)
  {
    var key := c => CampaignKey(sortBy, c);
    SortByPermutation(cs, key, sortOrder != "asc");
    SortBySorted(cs, key, sortOrder != "asc");
    SortByStable(cs, key, sortOrder != "asc", k);
  }

  /** An unknown sort field sorts by `updatedAt`. */
  lemma {:induction false} UnknownSortFieldIsUpdatedAt(cs: seq<Campaign>, sortBy: string, sortOrder: string)
    requires sortBy !in SortFields
    ensures SortCampaigns(cs, sortBy, sortOrder) == SortCampaigns(cs, "updatedAt", sortOrder)
  {
    SortByKeyExtensional(cs, c => CampaignKey(sortBy, c), c => CampaignKey("updatedAt", c), sortOrder != "asc");
  }

  /** Sorting ascending by end date, a campaign without an end never comes before one that has an end. */
  lemma {:induction false} MissingEndSortsLast(c: Campaign, d: Campaign)
    requires c.schedule.endAt.None? && d.schedule.endAt.Some? && d.schedule.endAt.value <= MaxDate
    ensures !Before(x => CampaignKey("endAt", x), false, c, d)
  {
  }
}
