/** The notifications state machine of apps/web/src/app/modules/dashboard/notifications/useNotifications.ts.
    The same reducer is declared again, unchanged, in NotificationsLayout.tsx; both use this definition.
    The random live notification, the simulated latency and the CSV export are left out. */
module UseNotifications {
  import opened Wrappers
  import opened Seqs
  import opened NotificationData

  datatype NotificationsState = NotificationsState(
    notifications: seq<Notification>, filters: FilterOptions, selectedIds: seq<string>,
    isLoading: bool, error: Option<string>, hasMore: bool, liveUpdatesEnabled: bool, unreadCount: nat)

  datatype NotificationsAction =
    | SetNotifications(notifications: seq<Notification>)
    | AddNotification(notification: Notification)
    | UpdateNotification(id: string, updates: NotificationPatch)
    | DeleteNotification(id: string)
    | SetFilters(filters: FilterOptions)
    | SetSelectedIds(ids: seq<string>)
    | SetLoading(loading: bool)
    | SetError(error: Option<string>)
    | SetHasMore(hasMore: bool)
    | ToggleLiveUpdates(enabled: bool)
    | MarkAsRead(ids: seq<string>)
    | MarkAllRead
    | Unknown

  function Unread(ns: seq<Notification>): nat {
    Count(ns, (n: Notification) => !n.read)
  }

  /** The invariant the reducer maintains: the badge counts the unread notifications. */
  predicate Valid(s: NotificationsState) {
    s.unreadCount == Unread(s.notifications)
  }

  /** The state a hook or layout starts from. */
  function InitialState(initial: seq<Notification>, liveUpdates: bool): (s: NotificationsState)
    ensures Valid(s) && s.selectedIds == [] && s.filters == DefaultFilters && !s.isLoading
  {
    NotificationsState(initial, DefaultFilters, [], false, None, false, liveUpdates, Unread(initial))
  }

  function MarkRead(ns: seq<Notification>, ids: seq<string>): seq<Notification> {
    Map(ns, (n: Notification) => if n.id in ids then n.(read := true) else n)
  }

  function AllRead(ns: seq<Notification>): (r: seq<Notification>)
    ensures |r| == |ns| && forall i :: 0 <= i < |r| ==> r[i] == ns[i].(read := true)
  {
    Map(ns, (n: Notification) => n.(read := true))
  }

  /** `notificationsReducer` */
  function NotificationsReducer(s: NotificationsState, a: NotificationsAction): NotificationsState {
    match a
    case SetNotifications(ns) =>
      s.(notifications := ns, unreadCount := Unread(ns), isLoading := false, error := None)
    case AddNotification(n) =>
      s.(notifications := [n] + s.notifications, unreadCount := Unread([n] + s.notifications))
    case UpdateNotification(id, u) =>
      var ns := Map(s.notifications, (n: Notification) => if n.id == id then ApplyPatch(n, u) else n);
      s.(notifications := ns, unreadCount := Unread(ns))
    case DeleteNotification(id) =>
      var ns := Filter(s.notifications, (n: Notification) => n.id != id);
      s.(notifications := ns, unreadCount := Unread(ns), selectedIds := Filter(s.selectedIds, (x: string) => x != id))
    case SetFilters(f) => s.(filters := f)
    case SetSelectedIds(ids) => s.(selectedIds := ids)
    case SetLoading(b) => s.(isLoading := b)
    case SetError(e) => s.(error := e, isLoading := false)
    case SetHasMore(b) => s.(hasMore := b)
    case ToggleLiveUpdates(b) => s.(liveUpdatesEnabled := b)
    case MarkAsRead(ids) =>
      var ns := MarkRead(s.notifications, ids);
      s.(notifications := ns, unreadCount := Unread(ns))
    case MarkAllRead => s.(notifications := AllRead(s.notifications), unreadCount := 0)
    case Unknown => s
  }

  lemma {:induction false} AllReadHasNoUnread(ns: seq<Notification>)
    ensures Unread(AllRead(ns)) == 0
    decreases |ns|
  {
    if ns != [] {
      AllReadHasNoUnread(ns[1..]);
      assert AllRead(ns)[1..] == AllRead(ns[1..]);
    }
  }

  /** Every action keeps the unread count equal to the number of unread notifications. */
  lemma {:induction false} ReducerKeepsValid(s: NotificationsState, a: NotificationsAction)
    requires Valid(s)
    ensures Valid(NotificationsReducer(s, a))
  {
    if a.MarkAllRead? { AllReadHasNoUnread(s.notifications); }
  }

  /** MARK_ALL_READ leaves every notification read and the count at zero. */
  lemma {:induction false} MarkAllReadEffect(s: NotificationsState)
    ensures var r := NotificationsReducer(s, MarkAllRead);
      r.unreadCount == 0 && |r.notifications| == |s.notifications|
      && (forall i :: 0 <= i < |r.notifications| ==> r.notifications[i].read)
      && Unread(r.notifications) == 0
  {
    AllReadHasNoUnread(s.notifications);
  }

  /** ADD prepends; DELETE removes the id from the list and from the selection. */
  lemma {:induction false} AddAndDeleteEffect(s: NotificationsState, n: Notification, id: string, m: Notification, x: string)
    ensures NotificationsReducer(s, AddNotification(n)).notifications == [n] + s.notifications
    ensures var r := NotificationsReducer(s, DeleteNotification(id));
      (m in r.notifications <==> m in s.notifications && m.id != id)
      && (x in r.selectedIds <==> x in s.selectedIds && x != id)
      && IsSubsequence(r.notifications, s.notifications)
  {
    FilterMembership(s.notifications, (n: Notification) => n.id != id, m);
    FilterMembership(s.selectedIds, (x: string) => x != id, x);
    FilterIsSubsequence(s.notifications, (n: Notification) => n.id != id);
  }

  /** MARK_AS_READ sets `read` on the listed ids only and changes nothing else about any notification. */
  lemma {:induction false} MarkAsReadEffect(s: NotificationsState, ids: seq<string>)
    ensures var r := NotificationsReducer(s, MarkAsRead(ids));
      |r.notifications| == |s.notifications|
      && forall i :: 0 <= i < |s.notifications| ==>
           r.notifications[i] == (if s.notifications[i].id in ids then s.notifications[i].(read := true) else s.notifications[i])
  {
  }

  /** The field setters change only their own field; SET_ERROR also clears `isLoading`. */
  lemma {:induction false} SettersTouchOnlyTheirField(s: NotificationsState, f: FilterOptions, b: bool, e: Option<string>)
    ensures NotificationsReducer(s, SetFilters(f)) == s.(filters := f)
    ensures NotificationsReducer(s, SetHasMore(b)) == s.(hasMore := b)
    ensures NotificationsReducer(s, ToggleLiveUpdates(b)) == s.(liveUpdatesEnabled := b)
    ensures NotificationsReducer(s, SetError(e)) == s.(error := e, isLoading := false)
    ensures NotificationsReducer(s, Unknown) == s
  {
  }

  function Find(ns: seq<Notification>, id: string): (r: Option<Notification>)
    ensures r.Some? ==> r.value in ns && r.value.id == id
    ensures r.Some? ==> exists i :: 0 <= i < |ns| && ns[i] == r.value && forall j :: 0 <= j < i ==> ns[j].id != id
    ensures r.None? <==> forall n :: n in ns ==> n.id != id
  {
    if ns == [] then None else if ns[0].id == id then Some(ns[0]) else Find(ns[1..], id)
  }

  /** `toggleRead` (and the layout's `handleToggleRead`): an update of `read` for a known id. */
  function ToggledRead(s: NotificationsState, id: string): NotificationsState {
    var n := Find(s.notifications, id);
    if n.Some? then NotificationsReducer(s, UpdateNotification(id, ReadPatch(!n.value.read))) else s
  }

  predicate UniqueIds(ns: seq<Notification>) {
    forall i, j :: 0 <= i < j < |ns| ==> ns[i].id != ns[j].id
  }

  /** For a known id the flag flips; an unknown id changes nothing. */
  lemma {:induction false} ToggleReadEffect(s: NotificationsState, id: string)
    ensures Find(s.notifications, id).None? ==> ToggledRead(s, id) == s
    ensures UniqueIds(s.notifications) ==>
      var r := ToggledRead(s, id);
      |r.notifications| == |s.notifications|
      && forall i :: 0 <= i < |s.notifications| ==>
        r.notifications[i] == (if s.notifications[i].id == id then s.notifications[i].(read := !s.notifications[i].read)
                               else s.notifications[i])
  {
    var f := Find(s.notifications, id);
    if f.Some? && UniqueIds(s.notifications) {
      var k :| 0 <= k < |s.notifications| && s.notifications[k] == f.value;
      assert forall i :: 0 <= i < |s.notifications| && s.notifications[i].id == id ==> s.notifications[i] == f.value;
    }
  }

  /** With unique ids, toggling twice restores a valid state. */
  lemma {:induction false} ToggleReadTwice(s: NotificationsState, id: string)
    requires Valid(s) && UniqueIds(s.notifications)
    ensures ToggledRead(ToggledRead(s, id), id) == s
  {
    ToggleReadEffect(s, id);
    var t := ToggledRead(s, id);
    if Find(s.notifications, id).Some? {
      assert FlippedAt(s.notifications, t.notifications, id);
      FlipKeepsIds(s.notifications, t.notifications, id);
      ToggleReadEffect(t, id);
      assert Find(t.notifications, id).Some? by {
        var k :| 0 <= k < |s.notifications| && s.notifications[k] == Find(s.notifications, id).value;
        assert t.notifications[k].id == id;
      }
      var r := ToggledRead(t, id);
      assert FlippedAt(t.notifications, r.notifications, id);
      FlipTwice(s.notifications, t.notifications, r.notifications, id);
    }
  }

  /** `ms` is `ns` with the flag of every notification with the id flipped. */
  predicate FlippedAt(ns: seq<Notification>, ms: seq<Notification>, id: string) {
    |ms| == |ns|
    && forall i :: 0 <= i < |ns| ==> ms[i] == (if ns[i].id == id then ns[i].(read := !ns[i].read) else ns[i])
  }

  lemma {:induction false} FlipKeepsIds(ns: seq<Notification>, ms: seq<Notification>, id: string)
    requires FlippedAt(ns, ms, id) && UniqueIds(ns)
    ensures UniqueIds(ms)
  {
    forall i, j | 0 <= i < j < |ms| ensures ms[i].id != ms[j].id {
      assert ms[i].id == ns[i].id && ms[j].id == ns[j].id;
    }
  }

  lemma {:induction false} FlipTwice(a: seq<Notification>, b: seq<Notification>, c: seq<Notification>, id: string)
    requires FlippedAt(a, b, id) && FlippedAt(b, c, id)
    ensures c == a
  {
    forall i | 0 <= i < |a| ensures c[i] == a[i] {
      assert b[i].id == a[i].id;
    }
  }

  /** Deleting each id of a list in turn, as `deleteSelected` and the bulk delete do. */
  function DeleteEach(s: NotificationsState, ids: seq<string>): NotificationsState
    decreases |ids|
  {
    if ids == [] then s else NotificationsReducer(DeleteEach(s, ids[..|ids| - 1]), DeleteNotification(ids[|ids| - 1]))
  }

  /** Deleting a list removes exactly those ids, from the list and from the selection, and keeps the invariant. */
  lemma {:induction false} DeleteEachEffect(s: NotificationsState, ids: seq<string>)
    requires Valid(s)
    ensures var r := DeleteEach(s, ids);
      Valid(r)
      && r.notifications == Filter(s.notifications, (n: Notification) => n.id !in ids)
      && r.selectedIds == Filter(s.selectedIds, (x: string) => x !in ids)
      && r.filters == s.filters && r.isLoading == s.isLoading
    decreases |ids|
  {
    if ids == [] {
      FilterAll(s.notifications, (n: Notification) => n.id !in ids);
      FilterAll(s.selectedIds, (x: string) => x !in ids);
    } else {
      var init, last := ids[..|ids| - 1], ids[|ids| - 1];
      DeleteEachEffect(s, init);
      assert ids == init + [last];
      FilterFilter(s.notifications, (n: Notification) => n.id !in init, (n: Notification) => n.id != last,
                   (n: Notification) => n.id !in ids);
      FilterFilter(s.selectedIds, (x: string) => x !in init, (x: string) => x != last, (x: string) => x !in ids);
    }
  }

  lemma {:induction false} FilterNoneLeft(ids: seq<string>)
    ensures Filter(ids, (x: string) => x !in ids) == []
  {
    var r := Filter(ids, (x: string) => x !in ids);
    if r != [] {
      FilterMembership(ids, (x: string) => x !in ids, r[0]);
    }
  }

  datatype NotificationStats = NotificationStats(total: nat, unread: nat, selected: nat, filtered: nat)

  /** The hook's `stats`. */
  function Stats(s: NotificationsState): (r: NotificationStats)
    requires Valid(s)
    ensures r.total == |s.notifications| && r.unread == Unread(s.notifications) && r.unread <= r.total
    ensures r.selected == |s.selectedIds| && r.filtered == |FilterNotifications(s.notifications, s.filters)|
    ensures r.filtered <= r.total
  {
    NotificationStats(|s.notifications|, s.unreadCount, |s.selectedIds|, |FilterNotifications(s.notifications, s.filters)|)
  }

  /** `useNotifications`: the reducer state and the replayed initial data. */
  class NotificationsHook {
    var state: NotificationsState
    const initialData: seq<Notification>

    constructor (initial: seq<Notification>, enableLiveUpdates: bool)
      ensures state == InitialState(initial, enableLiveUpdates) && initialData == initial
    {
      initialData := initial;
      state := InitialState(initial, enableLiveUpdates);
    }

    method Dispatch(a: NotificationsAction)
      modifies this
      ensures state == NotificationsReducer(old(state), a)
    {
      state := NotificationsReducer(state, a);
    }

    function FilteredNotifications(): seq<Notification>
      reads this
    {
      FilterNotifications(state.notifications, state.filters)
    }

    /** `selectAll` selects the ids of the filtered notifications. */
    method SelectAll()
      modifies this
      ensures state == old(state).(selectedIds := Map(old(FilteredNotifications()), (n: Notification) => n.id))
    {
      Dispatch(SetSelectedIds(Map(FilteredNotifications(), (n: Notification) => n.id)));
    }

    method ClearFilters()
      modifies this
      ensures state == old(state).(filters := DefaultFilters)
    {
      Dispatch(SetFilters(DefaultFilters));
    }

    /** `markSelectedAsRead`: the selection is marked read, then emptied. */
    method MarkSelectedAsRead()
      modifies this
      ensures state == NotificationsReducer(old(state), MarkAsRead(old(state).selectedIds)).(selectedIds := [])
    {
      var ids := state.selectedIds;
      Dispatch(MarkAsRead(ids));
      Dispatch(SetSelectedIds([]));
    }

    /** `deleteSelected`: one DELETE per selected id. */
    method DeleteSelected()
      modifies this
      ensures state == DeleteEach(old(state), old(state).selectedIds)
    {
      var ids := state.selectedIds;
      var k := 0;
      while k < |ids|
        invariant 0 <= k <= |ids|
        invariant state == DeleteEach(old(state), ids[..k])
      {
        assert ids[..k + 1][..k] == ids[..k];
        Dispatch(DeleteNotification(ids[k]));
        k := k + 1;
      }
      assert ids[..k] == ids;
    }

    method ToggleRead(id: string)
      modifies this
      ensures state == ToggledRead(old(state), id)
    {
      var n := Find(state.notifications, id);
      if n.Some? {
        Dispatch(UpdateNotification(id, ReadPatch(!n.value.read)));
      }
    }

    /** `refresh`: loading, then the initial data again. */
    method Refresh()
      modifies this
      ensures state == old(state).(notifications := initialData, unreadCount := Unread(initialData),
                                   isLoading := false, error := None)
    {
      Dispatch(SetLoading(true));
      Dispatch(SetNotifications(initialData));
    }

    /** `loadMore`: there is never more to load. */
    method LoadMore()
      modifies this
      ensures state == old(state).(isLoading := false, hasMore := false)
    {
      Dispatch(SetLoading(true));
      Dispatch(SetLoading(false));
      Dispatch(SetHasMore(false));
    }
  }

  /** After `deleteSelected`, nothing is selected, no selected notification remains and the count is right. */
  method DeleteSelectedScenario(initial: seq<Notification>, selected: seq<string>) returns (s: NotificationsState)
    ensures Valid(s) && s.selectedIds == []
    ensures forall n :: n in s.notifications ==> n in initial && n.id !in selected
  {
    var hook := new NotificationsHook(initial, true);
    hook.Dispatch(SetSelectedIds(selected));
    ReducerKeepsValid(InitialState(initial, true), SetSelectedIds(selected));
    ghost var before := hook.state;
    hook.DeleteSelected();
    DeleteEachEffect(before, selected);
    FilterNoneLeft(selected);
    s := hook.state;
    forall n | n in s.notifications ensures n in initial && n.id !in selected {
      FilterMembership(initial, (n: Notification) => n.id !in selected, n);
    }
  }
}
