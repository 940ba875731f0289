/** The generic table of apps/web/src/app/modules/ui/data-table.tsx: the sorted view of its rows, the
    local sort state that a header click updates, the selection helpers and the pagination
    arithmetic. Rows are of any type `T`; `rowId` is the caller's `getRowId` and `cell(column, row)` is
    the row's property under a column key, already a comparable `Key`. A callback the component
    calls (`onSort`, `onSelect`) is returned as `Some(argument)`, and `None` means it is not called. */
module DataTable {
  import opened Wrappers
  import opened Seqs
  import opened Sorting
  import opened JsNumber

  datatype Direction = Asc | Desc
  datatype SortState = SortState(column: string, direction: Direction)

  // ---------------------------------------------------------------- sorting

  /** `sorting || localSorting`: a controlled sort state wins over the local one. */
  function CurrentSort(sorting: Option<SortState>, localSorting: Option<SortState>): Option<SortState> {
    if sorting.Some? then sorting else localSorting
  }

  /** What the comparator compares: the cell under `column`, or one constant (every pair compares 0)
      when no column has that key. */
  function ColumnKey<T>(columns: seq<string>, column: string, cell: (string, T) -> Key): T -> Key {
    x => if column in columns then cell(column, x) else Num(0.0)
  }

  /** `sortedData`: the rows unchanged when nothing is sorted, else a copy sorted by the stable
      comparator sort. */
  function SortedData<T>(data: seq<T>, columns: seq<string>, sorting: Option<SortState>,
                         localSorting: Option<SortState>, cell: (string, T) -> Key): (r: seq<T>)
    ensures |r| == |data|
  {
    match CurrentSort(sorting, localSorting)
    case None => data
    case Some(s) => SortBy(data, ColumnKey(columns, s.column, cell), s.direction == Desc)
  }

  /** Without a sort state, or with one naming a column the table does not have, the rows keep
      their order. */
  lemma {:induction false} SortedDataKeepsOrder<T>(data: seq<T>, columns: seq<string>, sorting: Option<SortState>,
                                localSorting: Option<SortState>, cell: (string, T) -> Key)
    requires CurrentSort(sorting, localSorting).Some? ==> CurrentSort(sorting, localSorting).value.column !in columns
    ensures SortedData(data, columns, sorting, localSorting, cell) == data
  {
    if CurrentSort(sorting, localSorting).Some? {
      var s := CurrentSort(sorting, localSorting).value;
      SortByConstantKey(data, ColumnKey(columns, s.column, cell), s.direction == Desc, Num(0.0));
    }
  }

  /** With a sort state on a known column, the view is a permutation of the rows, ordered by that
      column in the chosen direction, and rows with equal cells keep their relative order. */
  lemma {:induction false} SortedDataOrdered<T>(data: seq<T>, columns: seq<string>, sorting: Option<SortState>,
                             localSorting: Option<SortState>, cell: (string, T) -> Key)
    requires CurrentSort(sorting, localSorting).Some?
    ensures var s := CurrentSort(sorting, localSorting).value;
      var r := SortedData(data, columns, sorting, localSorting, cell);
      var key := ColumnKey(columns, s.column, cell);
      && multiset(r) == multiset(data)
      && SortedBy(r, key, s.direction == Desc)
      && forall k :: WithKey(r, key, k) == WithKey(data, key, k)
  {
    var s := CurrentSort(sorting, localSorting).value;
    var key := ColumnKey(columns, s.column, cell);
    SortByPermutation(data, key, s.direction == Desc);
    SortBySorted(data, key, s.direction == Desc);
    forall k ensures WithKey(SortBy(data, key, s.direction == Desc), key, k) == WithKey(data, key, k) {
      SortByStable(data, key, s.direction == Desc, k);
    }
  }

  /** The state a click on `column` asks for: descending exactly when that column is the one
      currently sorted ascending, else ascending. */
  function NextSort(current: Option<SortState>, column: string): (r: SortState)
    ensures r.column == column
    ensures r.direction == Desc <==> current == Some(SortState(column, Asc))
  {
    var isCurrentColumn := current.Some? && current.value.column == column;
    SortState(column, if isCurrentColumn && current.value.direction == Asc then Desc else Asc)
  }

  /** Clicking the same header again flips the direction, so clicks on one column alternate
      asc, desc, asc; a click on another column always starts ascending. */
  lemma {:induction false} NextSortAlternates(current: Option<SortState>, column: string, other: string)
    requires other != column
    ensures NextSort(Some(NextSort(current, column)), column).direction != NextSort(current, column).direction
    ensures var first := NextSort(current, column); NextSort(Some(NextSort(Some(first), column)), column) == first
    ensures NextSort(Some(NextSort(current, column)), other) == SortState(other, Asc)
  {
  }

  /** The component's own state: the local sort used when the table is not controlled. */
  class Table {
    var localSorting: Option<SortState>

    constructor ()
      ensures localSorting.None?
    {
      localSorting := None;
    }

    /** `handleSort`: a controlled table hands the new state to `onSort` and keeps its local state;
        an uncontrolled one stores it. */
    method HandleSort(sorting: Option<SortState>, column: string) returns (onSort: Option<SortState>)
      modifies this
      ensures sorting.Some? ==> onSort == Some(NextSort(sorting, column)) && localSorting == old(localSorting)
      ensures sorting.None? ==> onSort.None? && localSorting == Some(NextSort(old(localSorting), column))
    {
      var newSort := NextSort(CurrentSort(sorting, localSorting), column);
      if sorting.Some? {
        onSort := Some(newSort);
      } else {
        localSorting := Some(newSort);
        onSort := None;
      }
    }
  }

  /** An uncontrolled table: two clicks on a header sort it descending by that column, and the view
      then follows the local state. */
  method SortScenario() returns (first: Option<SortState>, second: Option<SortState>, callback: Option<SortState>)
    ensures first == Some(SortState("name", Asc)) && second == Some(SortState("name", Desc))
    ensures callback == Some(SortState("name", Asc))
  {
    var table := new Table();
    var none := table.HandleSort(None, "name");
    first := table.localSorting;
    none := table.HandleSort(None, "name");
    second := table.localSorting;
    callback := table.HandleSort(Some(SortState("name", Desc)), "name");
  }

  // ---------------------------------------------------------------- selection

  /** `isAllSelected`: a selection is configured, there is a row, and every row's id is selected. */
  predicate IsAllSelected<T>(data: seq<T>, selection: Option<seq<string>>, rowId: T -> string) {
    selection.Some? && |data| > 0 && forall i :: 0 <= i < |data| ==> rowId(data[i]) in selection.value
  }

  /** `isIndeterminate`: the selected list is non-empty but not every row is selected. */
  predicate IsIndeterminate<T>(data: seq<T>, selection: Option<seq<string>>, rowId: T -> string) {
    selection.Some? && |selection.value| > 0 && !IsAllSelected(data, selection, rowId)
  }

  /** `handleSelectAll`: no call without a selection; the empty list when all are selected; else
      the id of every row, in order. */
  function SelectAll<T>(data: seq<T>, selection: Option<seq<string>>, rowId: T -> string): (r: Option<seq<string>>)
    ensures r.None? <==> selection.None?
  {
    if selection.None? then None
    else if IsAllSelected(data, selection, rowId) then Some([])
    else Some(Map(data, rowId))
  }

  /** `handleSelectRow`: no call without a selection; else the list with `id` toggled. */
  function SelectRow(selection: Option<seq<string>>, id: string): (r: Option<seq<string>>)
    ensures r.None? <==> selection.None?
    ensures r.Some? ==> (id in r.value <==> id !in selection.value)
    ensures r.Some? ==> forall other :: other != id ==> (other in r.value <==> other in selection.value)
  {
    if selection.None? then None else Some(Toggle(selection.value, id))
  }

  /** `selectedRows` */
  function SelectedRows<T>(data: seq<T>, selection: Option<seq<string>>, rowId: T -> string): seq<T> {
    if selection.None? then [] else Filter(data, row => rowId(row) in selection.value)
  }

  lemma {:induction false} MapMembers<T>(data: seq<T>, rowId: T -> string, i: nat)
    requires i < |data|
    ensures rowId(data[i]) in Map(data, rowId)
    decreases |data|
  {
    if i > 0 { MapMembers(data[1..], rowId, i - 1); }
  }

  /** Select-all from a state that is not all-selected selects every row, and from the all-selected
      state clears the selection; on a non-empty table two clicks end with nothing selected. */
  lemma {:induction false} SelectAllToggles<T>(data: seq<T>, selected: seq<string>, rowId: T -> string)
    ensures IsAllSelected(data, Some(selected), rowId) ==>
      SelectAll(data, Some(selected), rowId) == Some([]) && !IsAllSelected(data, Some([]), rowId)
      && !IsIndeterminate(data, Some([]), rowId)
    ensures !IsAllSelected(data, Some(selected), rowId) && |data| > 0 ==>
      IsAllSelected(data, SelectAll(data, Some(selected), rowId), rowId)
      && SelectAll(data, SelectAll(data, Some(selected), rowId), rowId) == Some([])
  {
    if IsAllSelected(data, Some(selected), rowId) {
      assert rowId(data[0]) !in [];
    } else if |data| > 0 {
      forall i | 0 <= i < |data| ensures rowId(data[i]) in Map(data, rowId) {
        MapMembers(data, rowId, i);
      }
    }
  }

  /** Selecting a row twice gives back the same set of selected ids, and the same list when the row
      was not selected. */
  lemma {:induction false} SelectRowTwice(selected: seq<string>, id: string)
    ensures forall other :: other in SelectRow(SelectRow(Some(selected), id), id).value <==> other in selected
    ensures id !in selected ==> SelectRow(SelectRow(Some(selected), id), id) == Some(selected)
  {
    ToggleTwice(selected, id);
  }

  /** The selected rows are the rows whose id is selected, in table order; when all are selected
      they are the whole table. */
  lemma {:induction false} SelectedRowsProperties<T>(data: seq<T>, selected: seq<string>, rowId: T -> string)
    ensures var r := SelectedRows(data, Some(selected), rowId);
      && IsSubsequence(r, data)
      && (forall row :: row in r <==> row in data && rowId(row) in selected)
      && (IsAllSelected(data, Some(selected), rowId) ==> r == data)
  {
    var p := (row: T) => rowId(row) in selected;
    FilterIsSubsequence(data, p);
    forall row ensures row in Filter(data, p) <==> row in data && rowId(row) in selected {
      FilterMembership(data, p, row);
    }
    if IsAllSelected(data, Some(selected), rowId) {
      FilterAll(data, p);
    }
  }

  /** When every selected id belongs to a row of the table, the checkbox is indeterminate exactly
      when some row is selected but not all of them. */
  lemma {:induction false} IndeterminateMeaning<T>(data: seq<T>, selected: seq<string>, rowId: T -> string)
    requires forall id :: id in selected ==> exists i :: 0 <= i < |data| && rowId(data[i]) == id
    ensures IsIndeterminate(data, Some(selected), rowId) <==>
      (exists i :: 0 <= i < |data| && rowId(data[i]) in selected) && !IsAllSelected(data, Some(selected), rowId)
  {
    if |selected| > 0 {
      assert selected[0] in selected;
    }
  }

  /** An id selected on another page or for a removed row is enough: with no row at all, a
      non-empty selected list shows the checkbox as indeterminate. */
  lemma {:induction false} IndeterminateWithoutSelectedRow()
    ensures IsIndeterminate([], Some(["gone"]), (row: string) => row)
    ensures SelectedRows([], Some(["gone"]), (row: string) => row) == []
  {
  }

  // ---------------------------------------------------------------- pagination

  /** `Math.ceil(total / pageSize)` */
  function TotalPages(total: nat, pageSize: nat): nat
    requires pageSize > 0
  {
    CeilDiv(total, pageSize)
  }

  /** `(page - 1) * pageSize + 1` */
  function StartItem(page: int, pageSize: nat): int {
    (page - 1) * pageSize + 1
  }

  /** `Math.min(page * pageSize, total)` */
  function EndItem(page: int, pageSize: nat, total: nat): int {
    if page * pageSize <= total then page * pageSize else total
  }

  lemma {:induction false} MulMonotone(a: int, b: int, c: nat)
    requires a <= b
    ensures a * c <= b * c
  {
  }

  /** The total is the least number of pages that holds every item, and none when there are no
      items. */
  lemma {:induction false} TotalPagesIsLeast(total: nat, pageSize: nat)
    requires pageSize > 0
    ensures TotalPages(total, pageSize) * pageSize >= total
    ensures TotalPages(total, pageSize) > 0 ==> (TotalPages(total, pageSize) - 1) * pageSize < total
    ensures TotalPages(total, pageSize) == 0 <==> total == 0
  {
    CeilDivIsCeiling(total, pageSize);
  }

  /** On every existing page the "from … to … of …" range lies within the items, holds at most one
      page of them, is full on every page but the last, and ends at the total on the last. */
  lemma {:induction false} PageRange(page: int, pageSize: nat, total: nat)
    requires pageSize > 0 && 1 <= page <= TotalPages(total, pageSize)
    ensures 1 <= StartItem(page, pageSize) <= EndItem(page, pageSize, total) <= total
    ensures EndItem(page, pageSize, total) - StartItem(page, pageSize) + 1 <= pageSize
    ensures page < TotalPages(total, pageSize) ==>
      EndItem(page, pageSize, total) - StartItem(page, pageSize) + 1 == pageSize
    ensures page == TotalPages(total, pageSize) ==> EndItem(page, pageSize, total) == total
  {
    var n := TotalPages(total, pageSize);
    TotalPagesIsLeast(total, pageSize);
    MulMonotone(page - 1, n - 1, pageSize);
    assert (page - 1) * pageSize >= 0;
    assert page * pageSize == (page - 1) * pageSize + pageSize;
    if page < n {
      MulMonotone(page, n - 1, pageSize);
    }
  }

  /** Consecutive pages tile the items: each page starts right after the previous one ends. */
  lemma {:induction false} PagesTile(page: int, pageSize: nat, total: nat)
    requires pageSize > 0 && 1 <= page < TotalPages(total, pageSize)
    ensures StartItem(page + 1, pageSize) == EndItem(page, pageSize, total) + 1
  {
    PageRange(page, pageSize, total);
    assert (page + 1 - 1) * pageSize == page * pageSize;
  }
}
