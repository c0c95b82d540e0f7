/**
 * The top-level page: which page is current, whether the driver has
 * authenticated, and what is rendered from those two fields.
 */
module App {
  import Signup

  datatype Page = Entry | DriverSignup | DriverSignin | UserSignup | UserSignin | DriverDashboard

  /** What the top level renders. */
  datatype Screen = EntryScreen | SignupScreen | SigninScreen | DashboardScreen

  datatype AppState = AppState(page: Page, authenticated: bool)

  const InitialState: AppState := AppState(Entry, false)

  /** The two handlers the pages are given. */
  datatype Event =
    | Navigate(target: Page) // `handleNavigation(page)`
    | Authenticate           // `handleAuthentication()`

  function Apply(s: AppState, e: Event): (r: AppState)
    ensures s.authenticated ==> r.authenticated
    ensures e.Navigate? ==> r.page == e.target
  {
    match e
    case Navigate(p) => s.(page := p)
    case Authenticate => AppState(DriverDashboard, true)
  }

  /** The dashboard when authenticated on its page; otherwise by page, with the entry page as fallback. */
  function Render(s: AppState): (screen: Screen)
    ensures screen == DashboardScreen ==> s.authenticated
  {
    if s.authenticated && s.page == DriverDashboard then DashboardScreen
    else match s.page
      case Entry => EntryScreen
      case DriverSignup => SignupScreen
      case DriverSignin => SigninScreen
      case _ => EntryScreen
  }

  /** Navigation sets the page and keeps the flag; authentication sets both. */
  lemma HandlersSpec(s: AppState, p: Page)
    ensures Apply(s, Navigate(p)).page == p
    ensures Apply(s, Navigate(p)).authenticated == s.authenticated
    ensures Apply(s, Authenticate) == AppState(DriverDashboard, true)
    ensures Render(Apply(s, Authenticate)) == DashboardScreen
  {
  }

  /** The dashboard is rendered exactly when authenticated and on the dashboard page. */
  lemma DashboardGate(s: AppState)
    ensures Render(s) == DashboardScreen <==> s.authenticated && s.page == DriverDashboard
  {
  }

  /** The user pages and an unauthenticated dashboard page fall back to the entry page. */
  lemma EntryFallback(s: AppState)
    ensures s.page in {UserSignup, UserSignin} ==> Render(s) == EntryScreen
    ensures s.page == DriverDashboard && !s.authenticated ==> Render(s) == EntryScreen
  {
  }

  function Run(s: AppState, events: seq<Event>): AppState
    decreases |events|
  {
    if events == [] then s else Run(Apply(s, events[0]), events[1..])
  }

  /** No handler ever clears the authentication flag. */
  lemma {:induction false} AuthenticationMonotone(s: AppState, events: seq<Event>)
    ensures s.authenticated ==> Run(s, events).authenticated
    decreases |events|
  {
    if events != [] {
      AuthenticationMonotone(Apply(s, events[0]), events[1..]);
    }
  }

  /** Without `Authenticate`, navigation alone never reaches the dashboard from the start. */
  lemma {:induction false} DashboardNeedsAuthentication(s: AppState, events: seq<Event>)
    requires !s.authenticated
    requires forall i :: 0 <= i < |events| ==> events[i].Navigate?
    ensures !Run(s, events).authenticated
    ensures Render(Run(s, events)) != DashboardScreen
    decreases |events|
  {
    if events != [] {
      DashboardNeedsAuthentication(Apply(s, events[0]), events[1..]);
    }
  }

  /**
   * The sign-up wizard is given `handleNavigation` and `handleAuthentication`:
   * finishing it authenticates, leaving it from step 1 goes to the entry page,
   * and its sign-in link goes to the driver sign-in page.
   */
  function AfterSignupSignal(s: AppState, signal: Signup.Signal): AppState
  {
    match signal
    case Stay => s
    case Completed => Apply(s, Authenticate)
    case LeftToEntry => Apply(s, Navigate(Entry))
    case LeftToSignin => Apply(s, Navigate(DriverSignin))
  }

  /**
   * Pressing Next on the last step with the terms accepted opens the
   * dashboard; Back on step 1 shows the entry page; the sign-in link shows
   * the sign-in page from any step.
   */
  lemma SignupHandsOver(s: AppState, w: Signup.Wizard)
    requires Signup.ValidStep(w.step)
    ensures w.step == Signup.TotalSteps && w.form.termsAccepted ==>
      Render(AfterSignupSignal(s, Signup.Apply(w, Signup.PressNext).1)) == DashboardScreen
    ensures w.step == 1 ==>
      Render(AfterSignupSignal(s, Signup.Apply(w, Signup.PressBack).1)) == EntryScreen
    ensures w.step < Signup.TotalSteps ==> AfterSignupSignal(s, Signup.Apply(w, Signup.PressNext).1) == s
    ensures Render(AfterSignupSignal(s, Signup.Apply(w, Signup.PressSignInLink).1)) == SigninScreen
  {
  }

  /** The `Index` page component. */
  class IndexPage {
    var currentPage: Page
    var isAuthenticated: bool

    constructor ()
      ensures currentPage == Entry && !isAuthenticated
    {
      currentPage := Entry;
      isAuthenticated := false;
    }

    function State(): AppState
      reads this
    {
      AppState(currentPage, isAuthenticated)
    }

    method HandleNavigation(page: Page)
      modifies this
      ensures State() == Apply(old(State()), Navigate(page))
      ensures currentPage == page && isAuthenticated == old(isAuthenticated)
    {
      currentPage := page;
    }

    method HandleAuthentication()
      modifies this
      ensures State() == Apply(old(State()), Authenticate)
      ensures isAuthenticated && currentPage == DriverDashboard
    {
      isAuthenticated := true;
      currentPage := DriverDashboard;
    }

    function Rendered(): Screen
      reads this
    {
      Render(State())
    }
  }
}
