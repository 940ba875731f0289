/** The template library helpers (apps/web/src/app/modules/campaigns/templates/utils/templateHelpers.ts):
    filtering, sorting, the tag and channel lists, the performance score, relative dates and the
    category and status labels. */
module TemplateHelpers {
  import opened Wrappers
  import opened Strings
  import opened Seqs
  import opened Sorting
  import opened JsNumber
  import opened TemplateTypes

  // ---------------------------------------------------------------------------------------------
  // applyFilters

  /** Some value of `wanted` is in `have`: `wanted.some(x => have.includes(x))`. */
  predicate SharesOne(wanted: seq<string>, have: seq<string>) {
    exists i :: 0 <= i < |wanted| && wanted[i] in have
  }

  /** The search test: the lower-cased text occurs in the lower-cased name, description or one of
      the tags. */
  predicate SearchMatches(t: Template, search: string) {
    var q := Lower(search);
    || Contains(Lower(t.name), q)
    || (t.description.Some? && Contains(Lower(t.description.value), q))
    || exists i :: 0 <= i < |t.tags| && Contains(Lower(t.tags[i]), q)
  }

  /** The `filter` callback: an empty search text or list does not filter. */
  predicate Keep(f: TemplateFilters, t: Template) {
    && (f.search == [] || SearchMatches(t, f.search))
    && (f.categories == [] || t.category in f.categories)
    && (f.channels == [] || SharesOne(f.channels, t.channels))
    && (f.status == [] || t.status in f.status)
    && (f.tags == [] || SharesOne(f.tags, t.tags))
    && (!f.showFavoritesOnly || t.isFavorite)
  }

  function KeepFn(f: TemplateFilters): Template -> bool {
    t => Keep(f, t)
  }

  function ApplyFilters(ts: seq<Template>, f: TemplateFilters): seq<Template> {
    Filter(ts, KeepFn(f))
  }

  /** The result keeps the input order and holds exactly the templates that pass every active
      filter: a category or status list requires membership, a channel or tag list requires one
      shared value, and the favourites flag keeps only favourites. */
  lemma {:induction false} ApplyFiltersEffect(ts: seq<Template>, f: TemplateFilters)
    ensures IsSubsequence(ApplyFilters(ts, f), ts)
    ensures forall t :: t in ApplyFilters(ts, f) ==>
      && t in ts
      && (f.search != [] ==> SearchMatches(t, f.search))
      && (f.categories != [] ==> t.category in f.categories)
      && (f.channels != [] ==> exists c :: c in f.channels && c in t.channels)
      && (f.status != [] ==> t.status in f.status)
      && (f.tags != [] ==> exists g :: g in f.tags && g in t.tags)
      && (f.showFavoritesOnly ==> t.isFavorite)
    ensures forall t :: t in ts && Keep(f, t) ==> t in ApplyFilters(ts, f)
  {
    FilterIsSubsequence(ts, KeepFn(f));
    forall t ensures t in ApplyFilters(ts, f) <==> t in ts && Keep(f, t) {
      FilterMembership(ts, KeepFn(f), t);
    }
  }

  /** With no search text, no list and no favourites flag, every template is kept in order. */
  lemma {:induction false} NoFiltersKeepAll(ts: seq<Template>)
    ensures ApplyFilters(ts, NoTemplateFilters) == ts
  {
    FilterAll(ts, KeepFn(NoTemplateFilters));
  }

  /** The search ignores the case of the text typed. */
  lemma {:induction false} SearchIgnoresCase(t: Template, search: string)
    ensures SearchMatches(t, Upper(search)) == SearchMatches(t, search)
    ensures SearchMatches(t, Lower(search)) == SearchMatches(t, search)
  {
    LowerOfUpper(search);
  }

  /** A template whose name contains the text, in any case, passes the search. */
  lemma {:induction false} NameMatchesSearch(t: Template, search: string)
    requires Contains(Lower(t.name), Lower(search))
    ensures SearchMatches(t, search)
  {
  }

  // ---------------------------------------------------------------------------------------------
  // applySorting

  /** The value the comparator compares for each field; any other field compares equal. */
  function SortKey(field: SortField, t: Template): Key {
    match field
    case Name => Str(t.name)
    case CreatedAt => Num(t.createdAt as real)
    case UpdatedAt => Num(t.updatedAt as real)
    case UsageCount => Num(t.stats.usageCount as real)
    case OtherField(_) => Num(0.0)
  }

  /** `[...templates].sort(cmp)`, where `cmp` negates the comparison for a descending sort. */
  /** The comparator's view of a template: the value of the sort field. */
  function FieldKey(field: SortField): Template -> Key {
    t => SortKey(field, t)
  }

  function ApplySorting(ts: seq<Template>, sorting: TemplateSorting): seq<Template> {
    SortBy(ts, FieldKey(sorting.field), sorting.direction == Desc)
  }

  /** The sorted copy is ordered by the field in the chosen direction. */
  lemma {:induction false} ApplySortingOrdered(ts: seq<Template>, sorting: TemplateSorting)
    ensures var r := ApplySorting(ts, sorting);
      forall i, j :: 0 <= i < j < |r| ==>
        if sorting.direction == Desc then !KeyLt(SortKey(sorting.field, r[i]), SortKey(sorting.field, r[j]))
        else !KeyLt(SortKey(sorting.field, r[j]), SortKey(sorting.field, r[i]))
  {
    var key := FieldKey(sorting.field);
    var desc := sorting.direction == Desc;
    SortBySorted(ts, key, desc);
    var r := SortBy(ts, key, desc);
    forall i, j | 0 <= i < j < |r|
      ensures !Before(key, desc, r[j], r[i])
    {
    }
  }

  /** The sorted copy is a permutation of the input, ordered by the field in the chosen direction,
      and keeps templates with equal values in input order; a field the comparator does not know
      leaves the order as it was. */
  lemma {:induction false} ApplySortingEffect(ts: seq<Template>, sorting: TemplateSorting, k: Key)
    ensures var r := ApplySorting(ts, sorting);
      && |r| == |ts| && multiset(r) == multiset(ts)
      && (forall i, j :: 0 <= i < j < |r| ==>
            if sorting.direction == Desc then !KeyLt(SortKey(sorting.field, r[i]), SortKey(sorting.field, r[j]))
            else !KeyLt(SortKey(sorting.field, r[j]), SortKey(sorting.field, r[i])))
      && WithKey(r, FieldKey(sorting.field), k) == WithKey(ts, FieldKey(sorting.field), k)
    ensures sorting.field.OtherField? ==> ApplySorting(ts, sorting) == ts
  {
    var key := FieldKey(sorting.field);
    var desc := sorting.direction == Desc;
    SortByPermutation(ts, key, desc);
    ApplySortingOrdered(ts, sorting);
    SortByStable(ts, key, desc, k);
    if sorting.field.OtherField? {
      SortByConstantKey(ts, key, desc, Num(0.0));
    }
  }

  /** By name ascending, the names come out in code-point order. */
  lemma {:induction false} SortByNameOrdersNames(ts: seq<Template>)
    ensures var r := ApplySorting(ts, TemplateSorting(Name, Asc));
      forall i, j :: 0 <= i < j < |r| ==> !StrLt(r[j].name, r[i].name)
  {
    SortBySorted(ts, FieldKey(Name), false);
  }

  // ---------------------------------------------------------------------------------------------
  // getAllTags and getAllChannels

  datatype ValueList = TagList | ChannelList

  function ValuesOf(t: Template, which: ValueList): seq<string> {
    match which
    case TagList => t.tags
    case ChannelList => t.channels
  }

  /** `xs.forEach(x => set.add(x))` on a set kept in insertion order. */
  function AddAll(acc: seq<string>, xs: seq<string>): seq<string>
    decreases |xs|
  {
    if xs == [] then acc else AddUnique(AddAll(acc, xs[..|xs| - 1]), xs[|xs| - 1])
  }

  /** The set `getAllTags` or `getAllChannels` builds, in insertion order. */
  function Collected(ts: seq<Template>, which: ValueList): seq<string>
    decreases |ts|
  {
    if ts == [] then [] else AddAll(Collected(ts[..|ts| - 1], which), ValuesOf(ts[|ts| - 1], which))
  }

  lemma {:induction false} AddAllContents(acc: seq<string>, xs: seq<string>)
    requires NoDuplicates(acc)
    ensures NoDuplicates(AddAll(acc, xs))
    ensures forall x :: x in AddAll(acc, xs) <==> x in acc || x in xs
    decreases |xs|
  {
    if xs != [] {
      var n := |xs| - 1;
      AddAllContents(acc, xs[..n]);
      AddUniqueKeepsNoDuplicates(AddAll(acc, xs[..n]), xs[n]);
      assert xs == xs[..n] + [xs[n]];
    }
  }

  lemma {:induction false} CollectedContents(ts: seq<Template>, which: ValueList)
    ensures NoDuplicates(Collected(ts, which))
    ensures forall x :: x in Collected(ts, which) <==> exists i :: 0 <= i < |ts| && x in ValuesOf(ts[i], which)
    decreases |ts|
  {
    if ts != [] {
      var n := |ts| - 1;
      CollectedContents(ts[..n], which);
      AddAllContents(Collected(ts[..n], which), ValuesOf(ts[n], which));
      forall x ensures x in Collected(ts, which) <==> exists i :: 0 <= i < |ts| && x in ValuesOf(ts[i], which) {
        if x in Collected(ts[..n], which) {
          var i :| 0 <= i < n && x in ValuesOf(ts[..n][i], which);
          assert x in ValuesOf(ts[i], which);
        }
        if exists i :: 0 <= i < |ts| && x in ValuesOf(ts[i], which) {
          var i :| 0 <= i < |ts| && x in ValuesOf(ts[i], which);
          if i < n {
            assert x in ValuesOf(ts[..n][i], which);
          }
        }
      }
    }
  }

  function StrKey(s: string): Key { Str(s) }

  /** A sorted list without duplicates is strictly increasing. */
  lemma {:induction false} SortedUniqueIncreasing(r: seq<string>)
    requires SortedBy(r, StrKey, false) && NoDuplicates(r)
    ensures forall i, j :: 0 <= i < j < |r| ==> StrLt(r[i], r[j])
  {
    forall i, j | 0 <= i < j < |r| ensures StrLt(r[i], r[j]) {
      assert !StrLt(r[j], r[i]);
      StrLtTotal(r[i], r[j]);
    }
  }

  /** The inner `forEach`: `set.add` of each value in turn. */
  method AddEach(seen: seq<string>, vs: seq<string>) returns (r: seq<string>)
    ensures r == AddAll(seen, vs)
  {
    r := seen;
    var j := 0;
    while j < |vs|
      invariant 0 <= j <= |vs|
      invariant r == AddAll(seen, vs[..j])
    {
      assert vs[..j + 1][..j] == vs[..j];
      r := AddUnique(r, vs[j]);
      j := j + 1;
    }
    assert vs[..j] == vs;
  }

  /** The sorted collection is strictly increasing and holds exactly the values of the templates. */
  lemma {:induction false} SortedCollected(ts: seq<Template>, which: ValueList)
    ensures var r := SortBy(Collected(ts, which), StrKey, false);
      && (forall i, j :: 0 <= i < j < |r| ==> StrLt(r[i], r[j]))
      && (forall x :: x in r <==> exists i :: 0 <= i < |ts| && x in ValuesOf(ts[i], which))
  {
    var seen := Collected(ts, which);
    var r := SortBy(seen, StrKey, false);
    CollectedContents(ts, which);
    SortByPermutation(seen, StrKey, false);
    SortBySorted(seen, StrKey, false);
    PermutationKeepsNoDuplicates(r, seen);
    SortedUniqueIncreasing(r);
    forall x ensures x in r <==> x in seen {
      assert x in r <==> x in multiset(r);
      assert x in seen <==> x in multiset(seen);
    }
  }

  /** `Array.from(set).sort()` over the values of every template, gathered by the `forEach` loops. */
  method AllValues(ts: seq<Template>, which: ValueList) returns (r: seq<string>)
    ensures r == SortBy(Collected(ts, which), StrKey, false)
    ensures forall i, j :: 0 <= i < j < |r| ==> StrLt(r[i], r[j])
    ensures forall x :: x in r <==> exists i :: 0 <= i < |ts| && x in ValuesOf(ts[i], which)
  {
    var seen: seq<string> := [];
    var k := 0;
    while k < |ts|
      invariant 0 <= k <= |ts|
      invariant seen == Collected(ts[..k], which)
    {
      seen := AddEach(seen, ValuesOf(ts[k], which));
      assert ts[..k + 1][..k] == ts[..k];
      k := k + 1;
    }
    assert ts[..k] == ts;
    r := SortBy(seen, StrKey, false);
    SortedCollected(ts, which);
  }

  /** `getAllTags`: every tag used by some template, once each, in increasing order. */
  method GetAllTags(ts: seq<Template>) returns (r: seq<string>)
    ensures forall i, j :: 0 <= i < j < |r| ==> StrLt(r[i], r[j])
    ensures forall x :: x in r <==> exists t :: t in ts && x in t.tags
  {
    r := AllValues(ts, TagList);
    forall x ensures x in r <==> exists t :: t in ts && x in t.tags {
      if exists t :: t in ts && x in t.tags {
        var t :| t in ts && x in t.tags;
        var i :| 0 <= i < |ts| && ts[i] == t;
        assert x in ValuesOf(ts[i], TagList);
      }
    }
  }

  /** `getAllChannels`: every channel of some template, once each, in increasing order. */
  method GetAllChannels(ts: seq<Template>) returns (r: seq<string>)
    ensures forall i, j :: 0 <= i < j < |r| ==> StrLt(r[i], r[j])
    ensures forall x :: x in r <==> exists t :: t in ts && x in t.channels
  {
    r := AllValues(ts, ChannelList);
    forall x ensures x in r <==> exists t :: t in ts && x in t.channels {
      if exists t :: t in ts && x in t.channels {
        var t :| t in ts && x in t.channels;
        var i :| 0 <= i < |ts| && ts[i] == t;
        assert x in ValuesOf(ts[i], ChannelList);
      }
    }
  }

  // ---------------------------------------------------------------------------------------------
  // calculatePerformanceScore

  /** `if (x)`: a number is truthy when present and non-zero. */
  predicate Truthy(x: Option<real>) {
    x.Some? && x.value != 0.0
  }

  function UsagePoints(s: TemplateStats): (p: real)
    ensures p <= 30.0
    ensures s.usageCount >= 0 ==> p >= 0.0
  {
    MinReal(s.usageCount as real * 2.0, 30.0)
  }

  function CtrPoints(s: TemplateStats): (p: real)
    ensures p <= 25.0
    ensures (s.averageCTR.Some? ==> s.averageCTR.value >= 0.0) ==> p >= 0.0
  {
    if Truthy(s.averageCTR) then MinReal(s.averageCTR.value * 5.0, 25.0) else 0.0
  }

  function ConversionPoints(s: TemplateStats): (p: real)
    ensures p <= 25.0
    ensures (s.averageConversion.Some? ==> s.averageConversion.value >= 0.0) ==> p >= 0.0
  {
    if Truthy(s.averageConversion) then MinReal(s.averageConversion.value * 2.5, 25.0) else 0.0
  }

  function SuccessPoints(s: TemplateStats): (p: real)
    ensures p <= 20.0
    ensures (s.successRate.Some? ==> s.successRate.value >= 0.0) ==> p >= 0.0
  {
    if Truthy(s.successRate) then MinReal(s.successRate.value / 5.0, 20.0) else 0.0
  }

  /** The usage, click-through, conversion and success parts, each capped, summed and rounded. */
  function PerformanceScore(t: Template): int {
    Round(UsagePoints(t.stats) + CtrPoints(t.stats) + ConversionPoints(t.stats) + SuccessPoints(t.stats))
  }

  predicate NonNegativeStats(s: TemplateStats) {
    && s.usageCount >= 0
    && (s.averageCTR.Some? ==> s.averageCTR.value >= 0.0)
    && (s.averageConversion.Some? ==> s.averageConversion.value >= 0.0)
    && (s.successRate.Some? ==> s.successRate.value >= 0.0)
  }

  /** The score never exceeds 100, and with non-negative statistics it is at least 0. */
  lemma {:induction false} PerformanceScoreBounds(t: Template)
    ensures PerformanceScore(t) <= 100
    ensures NonNegativeStats(t.stats) ==> PerformanceScore(t) >= 0
  {
  }

  /** The caps are reached at 15 uses, a click-through rate of 5, a conversion rate of 10 and a
      success rate of 100, and then the score is exactly 100; a template nobody has used scores 0. */
  lemma {:induction false} PerformanceScoreExtremes(t: Template)
    ensures (&& t.stats.usageCount >= 15 && t.stats.averageCTR.Some? && t.stats.averageCTR.value >= 5.0
             && t.stats.averageConversion.Some? && t.stats.averageConversion.value >= 10.0
             && t.stats.successRate.Some? && t.stats.successRate.value >= 100.0)
      ==> PerformanceScore(t) == 100
    ensures t.stats == FreshStats ==> PerformanceScore(t) == 0
  {
  }

  // ---------------------------------------------------------------------------------------------
  // formatTemplateDate

  const DayMs := 86400000

  /** `formatTemplateDate(date)` at time `now`: the whole days elapsed, in days, weeks, months of 30
      days or years of 365 days. The count rounds down, also for a date in the future. */
  function FormatTemplateDate(date: nat, now: nat): string {
    var days := (now - date) / DayMs;
    if days == 0 then "Aujourd'hui"
    else if days == 1 then "Hier"
    else if days < 7 then "Il y a " + IntToString(days) + " jours"
    else if days < 30 then "Il y a " + IntToString(days / 7) + " semaines"
    else if days < 365 then "Il y a " + IntToString(days / 30) + " mois"
    else "Il y a " + IntToString(days / 365) + " ans"
  }

  /** The thresholds: under one day is today, under two is yesterday, then days up to 6, weeks up
      to 4, months up to 12 and years; a future date gives a negative count of days. */
  lemma {:induction false} FormatTemplateDateBuckets(date: nat, now: nat)
    ensures var d, r := now - date, FormatTemplateDate(date, now);
      && (0 <= d < DayMs ==> r == "Aujourd'hui")
      && (DayMs <= d < 2 * DayMs ==> r == "Hier")
      && (2 * DayMs <= d < 7 * DayMs ==>
            exists n: nat :: 2 <= n <= 6 && r == "Il y a " + NatToString(n) + " jours")
      && (7 * DayMs <= d < 30 * DayMs ==>
            exists n: nat :: 1 <= n <= 4 && r == "Il y a " + NatToString(n) + " semaines")
      && (30 * DayMs <= d < 365 * DayMs ==>
            exists n: nat :: 1 <= n <= 12 && r == "Il y a " + NatToString(n) + " mois")
      && (365 * DayMs <= d ==> exists n: nat :: n >= 1 && r == "Il y a " + NatToString(n) + " ans")
      && (d < 0 ==> exists n: nat :: n >= 1 && r == "Il y a -" + NatToString(n) + " jours")
  {
    var d := now - date;
    var days := d / DayMs;
    var r := FormatTemplateDate(date, now);
    if 2 * DayMs <= d < 7 * DayMs {
      assert 2 <= days <= 6 && r == "Il y a " + NatToString(days) + " jours";
    } else if 7 * DayMs <= d < 30 * DayMs {
      assert 7 <= days < 30 && r == "Il y a " + NatToString(days / 7) + " semaines";
    } else if 30 * DayMs <= d < 365 * DayMs {
      assert 30 <= days < 365 && r == "Il y a " + NatToString(days / 30) + " mois";
    } else if 365 * DayMs <= d {
      assert days >= 365 && r == "Il y a " + NatToString(days / 365) + " ans";
    } else if d < 0 {
      assert days < 0;
      assert r == "Il y a -" + NatToString(-days) + " jours";
    }
  }

  // ---------------------------------------------------------------------------------------------
  // getCategoryLabel and getStatusConfig

  /** The French label of each of the eight categories. */
  function CategoryLabel(c: Category): string {
    match c
    case Promotion => "Promotion"
    case Newsletter => "Newsletter"
    case LeadGeneration => "Génération de leads"
    case Retention => "Rétention"
    case Event => "Événement"
    case ProductLaunch => "Lancement produit"
    case Seasonal => "Saisonnier"
    case Custom => "Personnalisé"
  }

  /** Every category has a label of its own. */
  lemma {:induction false} CategoryLabelsDistinct(a: Category, b: Category)
    ensures CategoryLabel(a) != ""
    ensures a != b ==> CategoryLabel(a) != CategoryLabel(b)
  {
  }

  datatype StatusConfig = StatusConfig(title: string, color: string, bgColor: string)

  function GetStatusConfig(s: TemplateStatus): StatusConfig {
    match s
    case Active => StatusConfig("Actif", "text-green-700 dark:text-green-400", "bg-green-50 dark:bg-green-950")
    case Draft => StatusConfig("Brouillon", "text-yellow-700 dark:text-yellow-400", "bg-yellow-50 dark:bg-yellow-950")
    case Archived => StatusConfig("Archivé", "text-gray-700 dark:text-gray-400", "bg-gray-50 dark:bg-gray-950")
  }

  /** Each status has its own label and colours. */
  lemma {:induction false} StatusConfigsDistinct(a: TemplateStatus, b: TemplateStatus)
    ensures a != b ==> GetStatusConfig(a).title != GetStatusConfig(b).title
    ensures a != b ==> GetStatusConfig(a).color != GetStatusConfig(b).color
  {
  }
}
