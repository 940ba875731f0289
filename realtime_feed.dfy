/** The activity feed of apps/web/src/app/modules/dashboard/realtime/hooks/useRealtime.ts. The hook's
    state variables are the fields of a class. Each tick of the interval, and each `refreshNow`,
    puts one generated event in front of the buffer and keeps the 100 newest. The generated event
    (random type, status and id) and the current time are parameters. */
module RealtimeFeed {
  import opened Wrappers
  import opened Strings

  datatype EventType = Publishing | ErrorEvent | Validation | Conversion
  datatype EventStatus = Success | Warning | ErrorStatus | Info

  /** `ActivityEvent`; an absent `read` is `false`. */
  datatype ActivityEvent = ActivityEvent(id: string, eventType: EventType, message: string, timestamp: nat,
                                         status: EventStatus, read: bool)

  const Capacity: nat := 100
  const DefaultInterval: nat := 5000
  const DayMs: nat := 24 * 60 * 60 * 1000

  const EventTypes: seq<EventType> := [Publishing, ErrorEvent, Validation, Conversion]
  const EventStatuses: seq<EventStatus> := [Success, Warning, ErrorStatus, Info]

  /** `generateMockEvent`, for the draws `typeDraw` and `statusDraw` of `Math.random()`; the random
      part of the id is `suffix`. */
  function MockEvent(now: nat, suffix: string, typeDraw: real, statusDraw: real): (e: ActivityEvent)
    requires 0.0 <= typeDraw < 1.0 && 0.0 <= statusDraw < 1.0
    ensures e.eventType in EventTypes && e.status in EventStatuses
    ensures !e.read && e.timestamp == now
  {
    var t := (typeDraw * 4.0).Floor;
    var s := (statusDraw * 4.0).Floor;
    ActivityEvent("event-" + NatToString(now) + "-" + suffix, EventTypes[t],
      "Événement de test généré automatiquement", now, EventStatuses[s], false)
  }

  /** `[newEvent, ...prev.slice(0, 99)]` */
  function Pushed(prev: seq<ActivityEvent>, e: ActivityEvent): (r: seq<ActivityEvent>)
    ensures |r| <= Capacity
  {
    [e] + (if |prev| <= Capacity - 1 then prev else prev[..Capacity - 1])
  }

  /** The new event comes first, followed by the newest events already there; only the oldest
      ones beyond the capacity are dropped. */
  lemma {:induction false} PushedShape(prev: seq<ActivityEvent>, e: ActivityEvent)
    ensures var r := Pushed(prev, e);
      && r[0] == e
      && |r| == (if |prev| < Capacity then |prev| + 1 else Capacity)
      && (forall i :: 1 <= i < |r| ==> r[i] == prev[i - 1])
      && (|prev| < Capacity ==> r == [e] + prev)
  {
  }

  predicate NewestFirst(s: seq<ActivityEvent>) {
    forall i, j :: 0 <= i < j < |s| ==> s[i].timestamp >= s[j].timestamp
  }

  /** Events arriving in time order stay ordered newest first. */
  lemma {:induction false} PushedNewestFirst(prev: seq<ActivityEvent>, e: ActivityEvent)
    requires NewestFirst(prev)
    requires prev != [] ==> e.timestamp >= prev[0].timestamp
    ensures NewestFirst(Pushed(prev, e))
  {
    var r := Pushed(prev, e);
    PushedShape(prev, e);
    forall i, j | 0 <= i < j < |r| ensures r[i].timestamp >= r[j].timestamp {
      if i > 0 {
        assert r[i] == prev[i - 1] && r[j] == prev[j - 1];
      } else {
        assert r[j] == prev[j - 1];
        assert prev[0].timestamp >= prev[j - 1].timestamp;
      }
    }
  }

  function Reversed<T>(s: seq<T>): (r: seq<T>)
    ensures |r| == |s|
  {
    if s == [] then [] else Reversed(s[1..]) + [s[0]]
  }

  lemma {:induction false} ReversedSnoc<T>(s: seq<T>, x: T)
    ensures Reversed(s + [x]) == [x] + Reversed(s)
    decreases |s|
  {
    if s == [] {
      assert [x] + [] == [x];
    } else {
      assert (s + [x])[1..] == s[1..] + [x];
      ReversedSnoc(s[1..], x);
    }
  }

  /** The buffer after the events `es` arrived, one after the other. */
  function PushAll(prev: seq<ActivityEvent>, es: seq<ActivityEvent>): seq<ActivityEvent>
    decreases |es|
  {
    if es == [] then prev else Pushed(PushAll(prev, es[..|es| - 1]), es[|es| - 1])
  }

  function Take<T>(s: seq<T>, n: nat): (r: seq<T>)
    ensures |r| <= n && |r| <= |s| && r == s[..|r|]
  {
    if |s| <= n then s else s[..n]
  }

  /** Whatever arrives, the buffer holds the 100 most recent events, newest first. */
  lemma {:induction false} PushAllKeepsNewest(prev: seq<ActivityEvent>, es: seq<ActivityEvent>)
    requires |prev| <= Capacity
    ensures PushAll(prev, es) == Take(Reversed(es) + prev, Capacity)
    decreases |es|
  {
    if es == [] {
      assert Reversed(es) + prev == prev;
    } else {
      var init, last := es[..|es| - 1], es[|es| - 1];
      PushAllKeepsNewest(prev, init);
      assert es == init + [last];
      ReversedSnoc(init, last);
      var full := Reversed(init) + prev;
      var acc := Take(full, Capacity);
      assert Reversed(es) + prev == [last] + full;
      assert PushAll(prev, es) == Pushed(acc, last);
      if |full| <= Capacity - 1 {
        assert Pushed(acc, last) == [last] + full;
      } else {
        assert Take(acc, Capacity - 1) == full[..Capacity - 1];
        assert Pushed(acc, last) == [last] + full[..Capacity - 1];
        assert ([last] + full)[..Capacity] == [last] + full[..Capacity - 1];
      }
    }
  }

  /** `prev.map(event => event.id === eventId ? { ...event, read: true } : event)` */
  function MarkRead(s: seq<ActivityEvent>, eventId: string): (r: seq<ActivityEvent>)
    ensures |r| == |s|
    ensures forall i :: 0 <= i < |s| ==> r[i] == if s[i].id == eventId then s[i].(read := true) else s[i]
  {
    seq(|s|, i requires 0 <= i < |s| => if s[i].id == eventId then s[i].(read := true) else s[i])
  }

  /** Only the matching events change, and only their `read` flag; marking twice is marking once. */
  lemma {:induction false} MarkReadEffect(s: seq<ActivityEvent>, eventId: string)
    ensures var r := MarkRead(s, eventId);
      && (forall i :: 0 <= i < |s| && s[i].id != eventId ==> r[i] == s[i])
      && (forall i :: 0 <= i < |s| && s[i].id == eventId ==> r[i].read && r[i].(read := s[i].read) == s[i])
      && MarkRead(r, eventId) == r
      && (NewestFirst(s) ==> NewestFirst(r))
  {
  }

  datatype DateRange = DateRange(start: int, end: int)
  datatype RealtimeFilters = RealtimeFilters(channels: seq<string>, status: seq<string>, tags: seq<string>,
                                             owners: seq<string>, dateRange: DateRange)

  class Feed {
    const mockMode: bool
    const updateInterval: real
    var isLive: bool
    var playbackSpeed: nat
    var filters: RealtimeFilters
    var lastUpdate: nat
    var activities: seq<ActivityEvent>

    /** The buffer never holds more than 100 events, and the speed is 1 or 2. */
    predicate Valid()
      reads this
    {
      |activities| <= Capacity && (playbackSpeed == 1 || playbackSpeed == 2)
    }

    /** The hook's initial state at time `now`: live, normal speed, the last day as date range. */
    constructor (mockMode: bool, updateInterval: real, now: nat)
      ensures Valid() && this.mockMode == mockMode && this.updateInterval == updateInterval
      ensures isLive && playbackSpeed == 1 && activities == [] && lastUpdate == now
      ensures filters == RealtimeFilters([], [], [], [], DateRange(now - DayMs, now))
    {
      this.mockMode, this.updateInterval := mockMode, updateInterval;
      isLive, playbackSpeed, activities, lastUpdate := true, 1, [], now;
      filters := RealtimeFilters([], [], [], [], DateRange(now - DayMs, now));
    }

    /** `toggleLive` */
    method ToggleLive()
      modifies this`isLive
      ensures isLive == !old(isLive)
    {
      isLive := !isLive;
    }

    /** `setPlaybackSpeed`, whose parameter type admits only 1 and 2. */
    method SetPlaybackSpeed(speed: nat)
      requires speed == 1 || speed == 2
      requires Valid()
      modifies this`playbackSpeed
      ensures playbackSpeed == speed && Valid()
    {
      playbackSpeed := speed;
    }

    /** The period of the interval the effect installs, or `None` when it installs none. */
    function TickPeriod(): (r: Option<real>)
      reads this
      requires Valid()
      ensures r.Some? <==> isLive && mockMode
      ensures r.Some? ==> r.value * playbackSpeed as real == updateInterval
      ensures r.Some? && playbackSpeed == 2 ==> r.value == updateInterval / 2.0
    {
      if !isLive || !mockMode then None else Some(updateInterval / playbackSpeed as real)
    }

    /** One tick of the interval: the event goes in front of the buffer, the update time is
        recorded, and the event is handed to `onMessage`. */
    method Tick(e: ActivityEvent, now: nat) returns (message: ActivityEvent)
      requires Valid() && TickPeriod().Some?
      modifies this`activities, this`lastUpdate
      ensures activities == Pushed(old(activities), e) && lastUpdate == now && message == e && Valid()
    {
      activities := [e] + (if |activities| <= Capacity - 1 then activities else activities[..Capacity - 1]);
      lastUpdate := now;
      message := e;
    }

    /** `refreshNow`: the same as a tick, at any time and without `onMessage`. */
    method RefreshNow(e: ActivityEvent, now: nat)
      requires Valid()
      modifies this`activities, this`lastUpdate
      ensures activities == Pushed(old(activities), e) && lastUpdate == now && Valid()
    {
      activities := Pushed(activities, e);
      lastUpdate := now;
    }

    /** `markAsRead` */
    method MarkAsRead(eventId: string)
      requires Valid()
      modifies this`activities
      ensures activities == MarkRead(old(activities), eventId) && Valid()
    {
      activities := MarkRead(activities, eventId);
    }
  }

  function Ev(id: string, t: nat): ActivityEvent {
    ActivityEvent(id, Publishing, "", t, Info, false)
  }

  /** A paused feed installs no interval; two refreshes put the later event first, and marking it
      read leaves the other alone. */
  method FeedScenario() returns (period: Option<real>, first: ActivityEvent, second: ActivityEvent)
    ensures period.None?
    ensures first == Ev("b", 2).(read := true) && second == Ev("a", 1)
  {
    var feed := new Feed(true, DefaultInterval as real, 0);
    feed.ToggleLive();
    period := feed.TickPeriod();
    feed.RefreshNow(Ev("a", 1), 1);
    feed.RefreshNow(Ev("b", 2), 2);
    feed.MarkAsRead("b");
    assert feed.activities == MarkRead([Ev("b", 2), Ev("a", 1)], "b");
    first, second := feed.activities[0], feed.activities[1];
  }
}
