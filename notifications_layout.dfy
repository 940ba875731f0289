/** The page component of apps/web/src/app/modules/dashboard/notifications/NotificationsLayout.tsx:
    its reducer state (the shared reducer) and the handlers that dispatch to it. Panels, toasts and
    the window opened by the empty-state action are left out; that action reports whether it reset. */
module NotificationsLayout {
  import opened Wrappers
  import opened Seqs
  import opened NotificationData
  import opened UseNotifications

  /** Some of the filters the empty-state action looks at is in use (priority and dates are not looked at). */
  predicate AnyFilterActive(f: FilterOptions) {
    (f.searchQuery.Some? && f.searchQuery.value != "")
    || f.channels != [] || f.types != [] || f.status != [] || f.tags != []
  }

  class Layout {
    var state: NotificationsState

    /** The layout starts from the mock notifications with live updates on. */
    constructor (mockNotifications: seq<Notification>)
      ensures state == InitialState(mockNotifications, true)
    {
      state := InitialState(mockNotifications, true);
    }

    method Dispatch(a: NotificationsAction)
      modifies this
      ensures state == NotificationsReducer(old(state), a)
    {
      state := NotificationsReducer(state, a);
    }

    /** `handleBulkAction`: an unknown action name does nothing. */
    method HandleBulkAction(action: string, ids: seq<string>)
      modifies this
      ensures action == "selectAll" ==> state == old(state).(selectedIds := ids)
      ensures action == "deselectAll" ==> state == old(state).(selectedIds := [])
      ensures action == "markAsRead" ==> state == NotificationsReducer(old(state), MarkAsRead(ids)).(selectedIds := [])
      ensures action == "delete" ==> state == DeleteEach(old(state), ids)
      ensures action !in ["selectAll", "deselectAll", "markAsRead", "delete"] ==> state == old(state)
    {
      if action == "selectAll" {
        Dispatch(SetSelectedIds(ids));
      } else if action == "deselectAll" {
        Dispatch(SetSelectedIds([]));
      } else if action == "markAsRead" {
        Dispatch(MarkAsRead(ids));
        Dispatch(SetSelectedIds([]));
      } else if action == "delete" {
        var k := 0;
        while k < |ids|
          invariant 0 <= k <= |ids|
          invariant state == DeleteEach(old(state), ids[..k])
        {
          assert ids[..k + 1][..k] == ids[..k];
          Dispatch(DeleteNotification(ids[k]));
          k := k + 1;
        }
        assert ids[..k] == ids;
      }
    }

    method HandleToggleRead(id: string)
      modifies this
      ensures state == ToggledRead(old(state), id)
    {
      var n := Find(state.notifications, id);
      if n.Some? {
        Dispatch(UpdateNotification(id, ReadPatch(!n.value.read)));
      }
    }

    /** `handleSearch` replaces only the query. */
    method HandleSearch(query: string)
      modifies this
      ensures state == old(state).(filters := old(state).filters.(searchQuery := Some(query)))
    {
      Dispatch(SetFilters(state.filters.(searchQuery := Some(query))));
    }

    /** `handleEmptyAction`: resets the filters when one is active, otherwise leaves the state alone. */
    method HandleEmptyAction() returns (reset: bool)
      modifies this
      ensures reset == AnyFilterActive(old(state).filters)
      ensures reset ==> state == old(state).(filters := DefaultFilters)
      ensures !reset ==> state == old(state)
    {
      reset := AnyFilterActive(state.filters);
      if reset {
        Dispatch(SetFilters(DefaultFilters));
      }
    }

    /** `handleRetry`: the error is cleared and the mock data reloaded. */
    method HandleRetry(mockNotifications: seq<Notification>)
      modifies this
      ensures state == old(state).(notifications := mockNotifications, unreadCount := Unread(mockNotifications),
                                   isLoading := false, error := None)
    {
      Dispatch(SetError(None));
      Dispatch(SetLoading(true));
      Dispatch(SetNotifications(mockNotifications));
    }
  }

  /** After the empty-state action no filter the action looks at is active, whichever branch it took. */
  method EmptyActionScenario(mock: seq<Notification>, f: FilterOptions) returns (reset: bool, after: FilterOptions)
    ensures reset == AnyFilterActive(f)
    ensures !AnyFilterActive(after)
    ensures reset ==> after == DefaultFilters
  {
    var layout := new Layout(mock);
    layout.Dispatch(SetFilters(f));
    reset := layout.HandleEmptyAction();
    after := layout.state.filters;
  }

  /** Bulk "markAsRead" from a fresh layout: the listed notifications are read, the selection is empty,
      and the badge counts the rest. */
  method MarkAsReadScenario(mock: seq<Notification>, ids: seq<string>) returns (s: NotificationsState)
    ensures Valid(s) && s.selectedIds == [] && |s.notifications| == |mock|
    ensures forall i :: 0 <= i < |mock| && mock[i].id in ids ==> s.notifications[i].read
    ensures forall i :: 0 <= i < |mock| && mock[i].id !in ids ==> s.notifications[i] == mock[i]
  {
    var layout := new Layout(mock);
    ghost var s0 := layout.state;
    layout.HandleBulkAction("markAsRead", ids);
    ReducerKeepsValid(s0, MarkAsRead(ids));
    MarkAsReadEffect(s0, ids);
    s := layout.state;
  }
}
