/**
 * The driver dashboard: which tab is active, how the home screen's quick
 * actions, the sub-screens' back arrows and the bottom navigation change
 * it, and when the bottom navigation is shown.
 */
module Dashboard {
  import opened Common

  datatype Tab = Home | Bookings | Account | Calendar | Earnings | Safety | Notifications

  /** The three items of the bottom navigation. */
  datatype NavItem = NavHome | NavBookings | NavAccount

  /** A callback handed to one of the dashboard's screens, once invoked. */
  datatype Event =
    | GoToBookings(subTab: Option<string>) // `navigateToBookings(tab?)`
    | GoToCalendar
    | GoToEarnings
    | GoToSafety
    | GoToNotifications
    | Back                                 // a sub-screen's `onBack`
    | NavClick(item: NavItem)

  /** `showBottomNav`: hidden on calendar, earnings, safety and notifications. */
  predicate ShowBottomNav(t: Tab)
  {
    t !in {Calendar, Earnings, Safety, Notifications}
  }

  function NavTarget(item: NavItem): (t: Tab)
    ensures t == Home || t == Bookings || t == Account
  {
    match item
    case NavHome => Home
    case NavBookings => Bookings
    case NavAccount => Account
  }

  /** The tab each callback sets; none of them looks at the current tab. */
  function Target(e: Event): (t: Tab)
    ensures e.NavClick? ==> ShowBottomNav(t)
    ensures e == Back ==> t == Home
  {
    match e
    case GoToBookings(_) => Bookings
    case GoToCalendar => Calendar
    case GoToEarnings => Earnings
    case GoToSafety => Safety
    case GoToNotifications => Notifications
    case Back => Home
    case NavClick(item) => NavTarget(item)
  }

  /** Whether the screen rendered for tab `t` (with its bottom nav, if shown) can fire `e`. */
  predicate Offered(t: Tab, e: Event)
  {
    match e
    case GoToBookings(_) => t == Home
    case GoToCalendar => t == Home
    case GoToEarnings => t == Home
    case GoToSafety => t == Home
    case GoToNotifications => t == Home
    case Back => t in {Calendar, Earnings, Safety, Notifications}
    case NavClick(_) => ShowBottomNav(t)
  }

  /** The bottom nav is shown exactly on home, bookings and account. */
  lemma BottomNavTabs(t: Tab)
    ensures ShowBottomNav(t) <==> t == Home || t == Bookings || t == Account
  {
  }

  /** Whatever its argument, `navigateToBookings` opens bookings. */
  lemma BookingsIgnoresArgument(a: Option<string>, b: Option<string>)
    ensures Target(GoToBookings(a)) == Target(GoToBookings(b)) == Bookings
  {
  }

  /** A bottom-nav click lands on a tab that still shows the bottom nav. */
  lemma NavClickKeepsNav(item: NavItem)
    ensures ShowBottomNav(Target(NavClick(item)))
    ensures Target(NavClick(item)) in {Home, Bookings, Account}
  {
  }

  /** Every screen without the bottom nav offers exactly one way out: back to home. */
  lemma SubScreensOnlyGoBack(t: Tab, e: Event)
    requires !ShowBottomNav(t)
    ensures Offered(t, e) <==> e == Back
    ensures Offered(t, e) ==> Target(e) == Home
  {
  }

  /** The tabs after a run of offered events, starting from `t`. */
  function Run(t: Tab, events: seq<Event>): Tab
    decreases |events|
  {
    if events == [] then t else Run(Target(events[0]), events[1..])
  }

  /** Offered events only: each is available on the screen it is fired from. */
  predicate AllOffered(t: Tab, events: seq<Event>)
    decreases |events|
  {
    events == [] || (Offered(t, events[0]) && AllOffered(Target(events[0]), events[1..]))
  }

  /**
   * The sub-screens are entered only through the home screen's quick
   * actions: in any run of offered events, every event that lands on
   * calendar, earnings, safety or notifications is fired from home.
   */
  lemma {:induction false} SubScreensEnteredFromHome(t: Tab, events: seq<Event>)
    requires AllOffered(t, events)
    ensures forall i :: 0 <= i < |events| && !ShowBottomNav(Target(events[i])) ==>
      Run(t, events[..i]) == Home
    decreases |events|
  {
    if events != [] {
      SubScreensEnteredFromHome(Target(events[0]), events[1..]);
      forall i | 0 <= i < |events| && !ShowBottomNav(Target(events[i]))
        ensures Run(t, events[..i]) == Home
      {
        if i == 0 {
          assert events[..0] == [];
        } else {
          assert events[..i][0] == events[0];
          assert events[..i][1..] == events[1..][..i - 1];
          assert events[1..][i - 1] == events[i];
        }
      }
    }
  }

  /** The dashboard component: only the active tab is state. */
  class DriverDashboard {
    var activeTab: Tab

    constructor ()
      ensures activeTab == Home && ShowBottomNav(activeTab)
    {
      activeTab := Home;
    }

    /** Invoke one of the callbacks the dashboard hands to its screens. */
    method Dispatch(e: Event)
      modifies this
      ensures activeTab == Target(e)
      ensures e.NavClick? ==> ShowBottomNav(activeTab)
      ensures e == Back ==> activeTab == Home
    {
      activeTab := Target(e);
    }
  }
}
