/** The filter, sort and view store of the template library
    (apps/web/src/app/modules/campaigns/templates/stores/templateFiltersStore.ts). The default filters
    and sorting are constants of filter.types.ts, which is not part of this model; they are the
    store's constructor parameters. */
module TemplateFiltersStore {
  import opened Wrappers
  import opened Seqs
  import opened TemplateTypes

  datatype FiltersState = FiltersState(filters: TemplateFilters, sorting: TemplateSorting, viewMode: ViewMode)

  function InitialState(defaultFilters: TemplateFilters, defaultSorting: TemplateSorting): FiltersState {
    FiltersState(defaultFilters, defaultSorting, Grid)
  }

  /** The list fields the toggles act on. */
  datatype ToggleTarget = OnCategory(category: Category) | OnChannel(channel: string) | OnStatus(status: TemplateStatus) | OnTag(tag: string)

  /** `toggleCategory`, `toggleChannel`, `toggleStatus` and `toggleTag`: the value is removed from its
      list when present, appended otherwise. */
  function ToggleFilter(st: FiltersState, target: ToggleTarget): FiltersState {
    var f := st.filters;
    match target
    case OnCategory(c) => st.(filters := f.(categories := Toggle(f.categories, c)))
    case OnChannel(c) => st.(filters := f.(channels := Toggle(f.channels, c)))
    case OnStatus(s) => st.(filters := f.(status := Toggle(f.status, s)))
    case OnTag(t) => st.(filters := f.(tags := Toggle(f.tags, t)))
  }

  /** A toggle flips the membership of its value in its own list and changes nothing else. */
  lemma {:induction false} ToggleFilterEffect(st: FiltersState, target: ToggleTarget)
    ensures var r := ToggleFilter(st, target);
      && r.sorting == st.sorting && r.viewMode == st.viewMode
      && r.filters.search == st.filters.search && r.filters.showFavoritesOnly == st.filters.showFavoritesOnly
      && (target.OnCategory? ==>
            && (target.category in r.filters.categories <==> target.category !in st.filters.categories)
            && r.filters == st.filters.(categories := r.filters.categories))
      && (target.OnChannel? ==>
            && (target.channel in r.filters.channels <==> target.channel !in st.filters.channels)
            && r.filters == st.filters.(channels := r.filters.channels))
      && (target.OnStatus? ==>
            && (target.status in r.filters.status <==> target.status !in st.filters.status)
            && r.filters == st.filters.(status := r.filters.status))
      && (target.OnTag? ==>
            && (target.tag in r.filters.tags <==> target.tag !in st.filters.tags)
            && r.filters == st.filters.(tags := r.filters.tags))
  {
  }

  /** Toggling the same value twice restores the membership of every value; when the value was not
      in its list, the list itself is restored, and with it the whole state. */
  lemma {:induction false} ToggleFilterTwice(st: FiltersState, target: ToggleTarget)
    ensures var r := ToggleFilter(ToggleFilter(st, target), target);
      && (forall c :: c in r.filters.categories <==> c in st.filters.categories)
      && (forall c :: c in r.filters.channels <==> c in st.filters.channels)
      && (forall s :: s in r.filters.status <==> s in st.filters.status)
      && (forall t :: t in r.filters.tags <==> t in st.filters.tags)
      && (match target
          case OnCategory(c) => c !in st.filters.categories ==> r == st
          case OnChannel(c) => c !in st.filters.channels ==> r == st
          case OnStatus(s) => s !in st.filters.status ==> r == st
          case OnTag(t) => t !in st.filters.tags ==> r == st)
  {
    match target
    case OnCategory(c) => ToggleTwice(st.filters.categories, c);
    case OnChannel(c) => ToggleTwice(st.filters.channels, c);
    case OnStatus(s) => ToggleTwice(st.filters.status, s);
    case OnTag(t) => ToggleTwice(st.filters.tags, t);
  }

  function SetSearch(st: FiltersState, search: string): FiltersState {
    st.(filters := st.filters.(search := search))
  }

  function ToggleFavoritesOnly(st: FiltersState): FiltersState {
    st.(filters := st.filters.(showFavoritesOnly := !st.filters.showFavoritesOnly))
  }

  /** `setSearch` changes only the search text; `toggleFavoritesOnly` negates only the favourites
      flag, so doing it twice changes nothing. */
  lemma {:induction false} SearchAndFavoritesEffect(st: FiltersState, search: string)
    ensures var r := SetSearch(st, search);
      r.filters.search == search && r == st.(filters := st.filters.(search := r.filters.search))
    ensures var r := ToggleFavoritesOnly(st);
      r.filters.showFavoritesOnly == !st.filters.showFavoritesOnly
      && r == st.(filters := st.filters.(showFavoritesOnly := r.filters.showFavoritesOnly))
    ensures ToggleFavoritesOnly(ToggleFavoritesOnly(st)) == st
  {
  }

  /** `setSorting(field, direction)`: the direction given wins; without one, choosing the field
      that is sorted ascending flips it to descending, and anything else sorts ascending. */
  function SetSorting(st: FiltersState, field: SortField, direction: Option<SortDirection>): FiltersState {
    var d := if direction.Some? then direction.value
             else if st.sorting.field == field && st.sorting.direction == Asc then Desc else Asc;
    st.(sorting := TemplateSorting(field, d))
  }

  lemma {:induction false} SetSortingEffect(st: FiltersState, field: SortField, direction: Option<SortDirection>)
    ensures var r := SetSorting(st, field, direction);
      && r.sorting.field == field && r.filters == st.filters && r.viewMode == st.viewMode
      && (direction.Some? ==> r.sorting.direction == direction.value)
      && (direction.None? ==> (r.sorting.direction == Desc <==> st.sorting == TemplateSorting(field, Asc)))
  {
  }

  /** Choosing the same field twice without a direction goes ascending, then descending, then
      ascending again. */
  lemma {:induction false} SetSortingCycles(st: FiltersState, field: SortField)
    requires st.sorting.field != field
    ensures SetSorting(st, field, None).sorting.direction == Asc
    ensures SetSorting(SetSorting(st, field, None), field, None).sorting.direction == Desc
    ensures SetSorting(SetSorting(SetSorting(st, field, None), field, None), field, None).sorting.direction == Asc
  {
  }

  function SetViewMode(st: FiltersState, mode: ViewMode): FiltersState {
    st.(viewMode := mode)
  }

  function ClearFilters(st: FiltersState, defaultFilters: TemplateFilters): FiltersState {
    st.(filters := defaultFilters)
  }

  function ResetFilters(st: FiltersState, defaultFilters: TemplateFilters, defaultSorting: TemplateSorting): FiltersState {
    st.(filters := defaultFilters, sorting := defaultSorting)
  }

  /** `clearFilters` keeps the sorting and the view mode; `resetFilters` also resets the sorting and
      keeps only the view mode. Neither depends on the filters set before. */
  lemma {:induction false} ClearAndResetEffect(st: FiltersState, defaultFilters: TemplateFilters, defaultSorting: TemplateSorting, target: ToggleTarget, search: string)
    ensures var c := ClearFilters(st, defaultFilters);
      c.filters == defaultFilters && c.sorting == st.sorting && c.viewMode == st.viewMode
    ensures var r := ResetFilters(st, defaultFilters, defaultSorting);
      r.filters == defaultFilters && r.sorting == defaultSorting && r.viewMode == st.viewMode
    ensures ClearFilters(ToggleFilter(st, target), defaultFilters) == ClearFilters(st, defaultFilters)
    ensures ClearFilters(SetSearch(st, search), defaultFilters) == ClearFilters(st, defaultFilters)
  {
  }

  class Store {
    const defaultFilters: TemplateFilters
    const defaultSorting: TemplateSorting
    var state: FiltersState

    constructor (defaultFilters: TemplateFilters, defaultSorting: TemplateSorting)
      ensures this.defaultFilters == defaultFilters && this.defaultSorting == defaultSorting
      ensures state == InitialState(defaultFilters, defaultSorting)
    {
      this.defaultFilters := defaultFilters;
      this.defaultSorting := defaultSorting;
      state := InitialState(defaultFilters, defaultSorting);
    }

    method SetSearchAction(search: string)
      modifies this
      ensures state == SetSearch(old(state), search)
    {
      state := SetSearch(state, search);
    }

    method ToggleCategory(category: Category)
      modifies this
      ensures state == ToggleFilter(old(state), OnCategory(category))
    {
      state := ToggleFilter(state, OnCategory(category));
    }

    method ToggleChannel(channel: string)
      modifies this
      ensures state == ToggleFilter(old(state), OnChannel(channel))
    {
      state := ToggleFilter(state, OnChannel(channel));
    }

    method ToggleStatus(status: TemplateStatus)
      modifies this
      ensures state == ToggleFilter(old(state), OnStatus(status))
    {
      state := ToggleFilter(state, OnStatus(status));
    }

    method ToggleTag(tag: string)
      modifies this
      ensures state == ToggleFilter(old(state), OnTag(tag))
    {
      state := ToggleFilter(state, OnTag(tag));
    }

    method ToggleFavoritesOnlyAction()
      modifies this
      ensures state == ToggleFavoritesOnly(old(state))
    {
      state := ToggleFavoritesOnly(state);
    }

    method SetSortingAction(field: SortField, direction: Option<SortDirection>)
      modifies this
      ensures state == SetSorting(old(state), field, direction)
    {
      state := SetSorting(state, field, direction);
    }

    method SetViewModeAction(mode: ViewMode)
      modifies this
      ensures state == SetViewMode(old(state), mode)
    {
      state := SetViewMode(state, mode);
    }

    method ClearFiltersAction()
      modifies this
      ensures state == ClearFilters(old(state), defaultFilters)
    {
      state := ClearFilters(state, defaultFilters);
    }

    method ResetFiltersAction()
      modifies this
      ensures state == ResetFilters(old(state), defaultFilters, defaultSorting)
    {
      state := ResetFilters(state, defaultFilters, defaultSorting);
    }
  }

  /** Picking a tag, switching to the list view and sorting by name twice, then clearing the
      filters: the tag is gone, the view and the descending name sort stay. */
  method FilterScenario(tag: string) returns (tags: seq<string>, mode: ViewMode, sorting: TemplateSorting)
    ensures tags == [] && mode == List && sorting == TemplateSorting(Name, Desc)
  {
    var store := new Store(NoTemplateFilters, TemplateSorting(UpdatedAt, Desc));
    store.ToggleTag(tag);
    store.SetViewModeAction(List);
    store.SetSortingAction(Name, None);
    store.SetSortingAction(Name, None);
    store.ClearFiltersAction();
    tags, mode, sorting := store.state.filters.tags, store.state.viewMode, store.state.sorting;
  }
}
