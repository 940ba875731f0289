/** The notification records (apps/web/src/app/modules/dashboard/notifications/types.ts) and the list
    filter of apps/web/src/app/modules/dashboard/notifications/mocks/data.ts. Timestamps and filter
    dates are milliseconds; an absent or empty date string is `None`. `meta`, `actionUrl` and
    `imageUrl` play no part in the logic and are left out. */
module NotificationData {
  import opened Wrappers
  import opened Strings
  import opened Seqs

  datatype Notification = Notification(
    id: string, channel: string, notificationType: string, title: string, body: string,
    timestamp: nat, read: bool, tags: Option<seq<string>>, priority: Option<string>)

  /** A `Partial<Notification>`. */
  datatype NotificationPatch = NotificationPatch(
    id: Option<string>, channel: Option<string>, notificationType: Option<string>, title: Option<string>,
    body: Option<string>, timestamp: Option<nat>, read: Option<bool>,
    tags: Option<Option<seq<string>>>, priority: Option<Option<string>>)

  const ReadPatchNone := NotificationPatch(None, None, None, None, None, None, None, None, None)

  /** The patch `toggleRead` sends: only `read`. */
  function ReadPatch(read: bool): NotificationPatch {
    ReadPatchNone.(read := Some(read))
  }

  /** `{ ...n, ...updates }` */
  function ApplyPatch(n: Notification, u: NotificationPatch): (r: Notification)
    ensures u == ReadPatchNone ==> r == n
  {
    Notification(
      u.id.GetOr(n.id), u.channel.GetOr(n.channel), u.notificationType.GetOr(n.notificationType),
      u.title.GetOr(n.title), u.body.GetOr(n.body), u.timestamp.GetOr(n.timestamp), u.read.GetOr(n.read),
      u.tags.GetOr(n.tags), u.priority.GetOr(n.priority))
  }

  datatype DateRange = DateRange(start: Option<nat>, end: Option<nat>)

  datatype FilterOptions = FilterOptions(
    channels: seq<string>, types: seq<string>, status: seq<string>, dateRange: DateRange,
    tags: seq<string>, priority: Option<seq<string>>, searchQuery: Option<string>)

  const DefaultFilters := FilterOptions([], [], [], DateRange(None, None), [], Some([]), Some(""))

  function StatusOf(n: Notification): string {
    if n.read then "read" else "unread"
  }

  predicate HasTag(n: Notification, tag: string) {
    n.tags.Some? && tag in n.tags.value
  }

  predicate PriorityOk(f: FilterOptions, n: Notification) {
    f.priority.None? || f.priority.value == [] || (n.priority.Some? && n.priority.value in f.priority.value)
  }

  predicate TagsOk(f: FilterOptions, n: Notification) {
    f.tags == [] || exists t | t in f.tags :: HasTag(n, t)
  }

  /** Case-insensitive search on title, body and tags; an absent or empty query matches. */
  predicate SearchOk(f: FilterOptions, n: Notification) {
    f.searchQuery.None? || f.searchQuery.value == [] ||
    var q := Lower(f.searchQuery.value);
    Contains(Lower(n.title), q) || Contains(Lower(n.body), q)
    || (n.tags.Some? && exists i | 0 <= i < |n.tags.value| :: Contains(Lower(n.tags.value[i]), q))
  }

  predicate DatesOk(f: FilterOptions, n: Notification) {
    (f.dateRange.start.None? || n.timestamp >= f.dateRange.start.value)
    && (f.dateRange.end.None? || n.timestamp <= f.dateRange.end.value)
  }

  predicate Keep(f: FilterOptions, n: Notification) {
    (f.channels == [] || n.channel in f.channels)
    && (f.types == [] || n.notificationType in f.types)
    && (f.status == [] || StatusOf(n) in f.status)
    && PriorityOk(f, n) && TagsOk(f, n) && SearchOk(f, n) && DatesOk(f, n)
  }

  /** `filterNotifications` */
  function FilterNotifications(ns: seq<Notification>, f: FilterOptions): (r: seq<Notification>)
    ensures |r| <= |ns|
    ensures forall i :: 0 <= i < |r| ==> Keep(f, r[i])
  {
    Filter(ns, n => Keep(f, n))
  }

  /** The result keeps input order, and a notification is kept iff it passes every criterion. */
  lemma {:induction false} FilterNotificationsSubsequence(ns: seq<Notification>, f: FilterOptions, n: Notification)
    ensures IsSubsequence(FilterNotifications(ns, f), ns)
    ensures n in FilterNotifications(ns, f) <==> n in ns && Keep(f, n)
  {
    FilterIsSubsequence(ns, n => Keep(f, n));
    FilterMembership(ns, n => Keep(f, n), n);
  }

  /** The default filters keep every notification. */
  lemma {:induction false} DefaultFiltersKeepAll(ns: seq<Notification>)
    ensures FilterNotifications(ns, DefaultFilters) == ns
  {
    FilterAll(ns, n => Keep(DefaultFilters, n));
  }

  /** A non-empty priority filter drops every notification that has no priority. */
  lemma {:induction false} PriorityFilterNeedsPriority(f: FilterOptions, n: Notification)
    requires f.priority.Some? && f.priority.value != [] && n.priority.None?
    ensures !Keep(f, n)
  {
  }

  /** The status filter sees only the read flag: "read" keeps exactly the read notifications. */
  lemma {:induction false} StatusFilterByReadFlag(f: FilterOptions, n: Notification)
    requires f.status == ["read"]
    ensures Keep(f, n) ==> n.read
    ensures f == DefaultFilters.(status := ["read"]) ==> (Keep(f, n) <==> n.read)
  {
  }

  /** Searching is case-insensitive. */
  lemma {:induction false} SearchIgnoresCase(f: FilterOptions, n: Notification)
    requires f.searchQuery.Some?
    ensures SearchOk(f.(searchQuery := Some(Upper(f.searchQuery.value))), n) == SearchOk(f, n)
  {
    LowerOfUpper(f.searchQuery.value);
  }
}
