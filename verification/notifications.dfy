/**
 * The driver's notification list: filter tabs, unread counting, and the
 * mark-read, mark-all-read and delete updates of the list state.
 */
module Notifications {
  import opened Common

  datatype Kind = Tip | News | Alert | Update

  /** One notification record; `amount` is present only on some tips. */
  datatype Notification = Notification(
    id: string,
    kind: Kind,
    title: string,
    message: string,
    time: string,
    read: bool,
    amount: Option<string>)

  /** The four filter tabs. */
  datatype Filter = All | Unread | Tips | Alerts

  predicate IsUnread(n: Notification) { !n.read }
  predicate IsTip(n: Notification) { n.kind == Tip }
  predicate IsAlert(n: Notification) { n.kind == Alert }

  /** Whether a notification belongs under a tab. */
  predicate Shown(n: Notification, f: Filter)
  {
    match f
    case All => true
    case Unread => IsUnread(n)
    case Tips => IsTip(n)
    case Alerts => IsAlert(n)
  }

  /**
   * The list shown under tab `f`: the whole list for `All`, otherwise the
   * entries of the tab, in list order.
   */
  function Filtered(ns: seq<Notification>, f: Filter): (r: seq<Notification>)
    ensures f == All ==> r == ns
    ensures IsSubsequence(r, ns)
    ensures forall n :: n in r ==> n in ns && Shown(n, f)
    ensures forall n :: n in ns ==> multiset(r)[n] == if Shown(n, f) then multiset(ns)[n] else 0
  {
    match f
    case All => SubsequenceOfSelf(ns); ns
    case Unread => Where(ns, IsUnread)
    case Tips => Where(ns, IsTip)
    case Alerts => Where(ns, IsAlert)
  }

  /** The number of unread notifications, shown in the header and on the Unread tab. */
  function UnreadCount(ns: seq<Notification>): (r: nat)
    ensures r <= |ns|
  {
    |Where(ns, IsUnread)|
  }

  /** The badge count of each filter tab. */
  function TabCount(ns: seq<Notification>, f: Filter): (r: nat)
    ensures r <= |ns|
  {
    match f
    case All => |ns|
    case Unread => UnreadCount(ns)
    case Tips => |Where(ns, IsTip)|
    case Alerts => |Where(ns, IsAlert)|
  }

  /** The "Mark All Read" button is shown only while something is unread. */
  predicate MarkAllOffered(ns: seq<Notification>)
  {
    UnreadCount(ns) > 0
  }

  /** Each tab's badge counts exactly the entries listed under that tab; unread is bounded by the list. */
  lemma TabCountIsFilteredLength(ns: seq<Notification>, f: Filter)
    ensures TabCount(ns, f) == |Filtered(ns, f)|
    ensures UnreadCount(ns) <= |ns|
    ensures TabCount(ns, All) == |ns|
  {
  }

  /** Nothing is unread exactly when every entry is read; so the button is offered iff some entry is unread. */
  lemma UnreadCountZero(ns: seq<Notification>)
    ensures UnreadCount(ns) == 0 <==> forall i :: 0 <= i < |ns| ==> ns[i].read
    ensures MarkAllOffered(ns) <==> exists i :: 0 <= i < |ns| && !ns[i].read
  {
    WhereEmpty(ns, IsUnread);
    if exists i :: 0 <= i < |ns| && !ns[i].read {
      var i :| 0 <= i < |ns| && !ns[i].read;
      assert ns[i] in ns;
    }
  }

  /** `markAsRead(id)`: every entry with that id becomes read; nothing else changes. */
  function MarkRead(ns: seq<Notification>, id: string): (r: seq<Notification>)
    ensures |r| == |ns|
    ensures forall i :: 0 <= i < |ns| && ns[i].id == id ==> r[i] == ns[i].(read := true)
    ensures forall i :: 0 <= i < |ns| && ns[i].id != id ==> r[i] == ns[i]
  {
    if ns == [] then []
    else [if ns[0].id == id then ns[0].(read := true) else ns[0]] + MarkRead(ns[1..], id)
  }

  /** `markAllAsRead`: every entry becomes read; every other field is kept. */
  function MarkAllRead(ns: seq<Notification>): (r: seq<Notification>)
    ensures |r| == |ns|
    ensures forall i :: 0 <= i < |ns| ==> r[i] == ns[i].(read := true)
  {
    if ns == [] then [] else [ns[0].(read := true)] + MarkAllRead(ns[1..])
  }

  /** `deleteNotification(id)`: the entries with another id, in their order. */
  function Delete(ns: seq<Notification>, id: string): (r: seq<Notification>)
    ensures IsSubsequence(r, ns)
    ensures forall n :: n in r ==> n in ns && n.id != id
    ensures forall n :: n in ns ==> multiset(r)[n] == if n.id == id then 0 else multiset(ns)[n]
  {
    Where(ns, (n: Notification) => n.id != id)
  }

  /** Marking the same id twice is the same as marking it once. */
  lemma MarkReadIdempotent(ns: seq<Notification>, id: string)
    ensures MarkRead(MarkRead(ns, id), id) == MarkRead(ns, id)
  {
    var once := MarkRead(ns, id);
    var twice := MarkRead(once, id);
    forall i | 0 <= i < |ns| ensures twice[i] == once[i] {
    }
  }

  /** Marking everything twice is the same as marking it once. */
  lemma MarkAllReadIdempotent(ns: seq<Notification>)
    ensures MarkAllRead(MarkAllRead(ns)) == MarkAllRead(ns)
  {
    var once := MarkAllRead(ns);
    var twice := MarkAllRead(once);
    forall i | 0 <= i < |ns| ensures twice[i] == once[i] {
    }
  }

  /** After "Mark All Read" nothing is unread, and the button disappears. */
  lemma MarkAllReadClearsUnread(ns: seq<Notification>)
    ensures UnreadCount(MarkAllRead(ns)) == 0
    ensures !MarkAllOffered(MarkAllRead(ns))
  {
    var r := MarkAllRead(ns);
    WhereEmpty(r, IsUnread);
    forall n | n in r ensures n.read {
      var i :| 0 <= i < |r| && r[i] == n;
    }
  }

  /** Marking one id read leaves no unread entry with that id and never raises the unread count. */
  lemma MarkReadLowersUnread(ns: seq<Notification>, id: string)
    ensures UnreadCount(MarkRead(ns, id)) <= UnreadCount(ns)
    ensures forall n :: n in Filtered(MarkRead(ns, id), Unread) ==> n.id != id
  {
    MarkReadCountLowers(ns, id);
    var r := MarkRead(ns, id);
    forall n | n in Filtered(r, Unread) ensures n.id != id {
      var i :| 0 <= i < |r| && r[i] == n;
    }
  }

  /** The unread count after marking one id, entry by entry. */
  lemma {:induction false} MarkReadCountLowers(ns: seq<Notification>, id: string)
    ensures UnreadCount(MarkRead(ns, id)) <= UnreadCount(ns)
  {
    if ns != [] {
      var x, rest := ns[0], ns[1..];
      var y := if x.id == id then x.(read := true) else x;
      MarkReadCountLowers(rest, id);
      assert MarkRead(ns, id) == [y] + MarkRead(rest, id);
      assert ns == [x] + rest;
      UnreadCountCons(y, MarkRead(rest, id));
      UnreadCountCons(x, rest);
    }
  }

  /** The unread count of a list with one more entry in front. */
  lemma UnreadCountCons(x: Notification, s: seq<Notification>)
    ensures UnreadCount([x] + s) == (if x.read then 0 else 1) + UnreadCount(s)
  {
    WhereCons(x, s, IsUnread);
  }

  /** After deleting an id no entry carries it, and no other entry is lost. */
  lemma DeleteRemovesExactly(ns: seq<Notification>, id: string)
    ensures forall n :: n in Delete(ns, id) ==> n.id != id
    ensures forall n :: n in ns && n.id != id ==> n in Delete(ns, id)
    ensures |Delete(ns, id)| <= |ns|
  {
    var r := Delete(ns, id);
    forall n | n in ns && n.id != id ensures n in r {
      assert multiset(r)[n] == multiset(ns)[n] > 0;
    }
  }

  /** The six notifications the screen starts with. */
  const TipFromSarah := Notification("1", Tip, "New Tip Received",
    "Sarah Johnson added a $5.00 tip to your ride to Downtown", "2 hours ago", false, Some("$5.00"))
  const TrafficAlert := Notification("2", Alert, "Traffic Alert",
    "Heavy traffic reported on I-95. Consider alternative routes for better earnings.", "4 hours ago", false, None)
  const NavigationNews := Notification("3", News, "New Feature: In-App Navigation",
    "We've added turn-by-turn navigation directly in the app. Update now to try it!", "1 day ago", true, None)
  const TipFromMichael := Notification("4", Tip, "Tip Added",
    "Michael Chen added a $8.50 tip to your Airport ride", "1 day ago", true, Some("$8.50"))
  const WeeklySummary := Notification("5", Update, "Weekly Earnings Summary",
    "You earned $1,245 this week! You're in the top 15% of drivers in your area.", "2 days ago", true, None)
  const DocumentReminder := Notification("6", Alert, "Document Expiration Reminder",
    "Your vehicle registration expires in 30 days. Please update your documents.", "3 days ago", false, None)

  const InitialNotifications: seq<Notification> :=
    [TipFromSarah, TrafficAlert, NavigationNews, TipFromMichael, WeeklySummary, DocumentReminder]

  /** The initial badges: 6 in all, 3 unread, 2 tips, 2 alerts. */
  lemma InitialTabCounts()
    ensures TabCount(InitialNotifications, All) == 6
    ensures TabCount(InitialNotifications, Unread) == 3
    ensures TabCount(InitialNotifications, Tips) == 2
    ensures TabCount(InitialNotifications, Alerts) == 2
  {
    WhereLengthOfSix(InitialNotifications, IsUnread);
    WhereLengthOfSix(InitialNotifications, IsTip);
    WhereLengthOfSix(InitialNotifications, IsAlert);
  }

  /** The notifications screen: its list state and the selected filter tab. */
  class NotificationsScreen {
    var notifications: seq<Notification>
    var filter: Filter

    constructor ()
      ensures notifications == InitialNotifications && filter == All
    {
      notifications := InitialNotifications;
      filter := All;
    }

    /** What the list area shows. */
    function Visible(): seq<Notification>
      reads this
    {
      Filtered(notifications, filter)
    }

    /** A filter tab was clicked. */
    method SetFilter(f: Filter)
      modifies this
      ensures filter == f && notifications == old(notifications)
    {
      filter := f;
    }

    method MarkAsRead(id: string)
      modifies this
      ensures notifications == MarkRead(old(notifications), id)
      ensures filter == old(filter)
      ensures UnreadCount(notifications) <= UnreadCount(old(notifications))
    {
      MarkReadLowersUnread(notifications, id);
      notifications := MarkRead(notifications, id);
    }

    method MarkAllAsRead()
      modifies this
      ensures notifications == MarkAllRead(old(notifications))
      ensures filter == old(filter)
      ensures UnreadCount(notifications) == 0 && !MarkAllOffered(notifications)
    {
      MarkAllReadClearsUnread(notifications);
      notifications := MarkAllRead(notifications);
    }

    method DeleteNotification(id: string)
      modifies this
      ensures notifications == Delete(old(notifications), id)
      ensures filter == old(filter)
      ensures forall n :: n in notifications ==> n.id != id
    {
      notifications := Delete(notifications, id);
    }
  }
}
