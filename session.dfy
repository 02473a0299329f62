/**
 * The application shell: which page is shown, and the two session flags
 * (logged in, administrator) that the header, the login page and the admin
 * dashboard depend on.
 */
module Session {

  /** Page identifiers the shell knows how to render. */
  const KnownPages: set<string> :=
    {"home", "login", "events", "calendar", "classifieds", "contact", "admin", "brand"}

  /** The view mounted in the main area, with the session props it receives. */
  datatype View =
    | HomeView
    | LoginView
    | EventsView(isAdmin: bool)
    | CalendarView
    | ClassifiedsView(isLoggedIn: bool)
    | ContactView
    | AdminDashboardView
    | BrandView

  /**
   * The page switch. The admin dashboard is mounted only for an administrator;
   * the `admin` page without that flag, and any page name the switch does not
   * know, fall back to the home view.
   */
  function Render(page: string, isLoggedIn: bool, isAdmin: bool): (v: View)
    ensures v == AdminDashboardView <==> page == "admin" && isAdmin
    ensures v == HomeView <==> page == "home" || (page == "admin" && !isAdmin) || page !in KnownPages
    ensures page == "login" <==> v == LoginView
    ensures page == "events" <==> v == EventsView(isAdmin)
    ensures page == "calendar" <==> v == CalendarView
    ensures page == "classifieds" <==> v == ClassifiedsView(isLoggedIn)
    ensures page == "contact" <==> v == ContactView
    ensures page == "brand" <==> v == BrandView
    ensures v.EventsView? ==> v.isAdmin == isAdmin
    ensures v.ClassifiedsView? ==> v.isLoggedIn == isLoggedIn
  {
    match page
    case "home" => HomeView
    case "login" => LoginView
    case "events" => EventsView(isAdmin)
    case "calendar" => CalendarView
    case "classifieds" => ClassifiedsView(isLoggedIn)
    case "contact" => ContactView
    case "admin" => if isAdmin then AdminDashboardView else HomeView
    case "brand" => BrandView
    case _ => HomeView
  }

  /** A snapshot of the three state cells of the shell. */
  datatype ShellState = ShellState(page: string, loggedIn: bool, admin: bool)

  /** The user actions that change the shell's state. */
  datatype Action = Navigate(target: string) | Login(asAdmin: bool) | Logout

  const Initial := ShellState("home", false, false)

  /** The only relation between the two flags the shell relies on. */
  predicate Consistent(s: ShellState)
  {
    s.admin ==> s.loggedIn
  }

  /** The effect of one action on the state cells. */
  function Step(s: ShellState, a: Action): (t: ShellState)
    ensures Consistent(s) ==> Consistent(t)
    ensures a.Navigate? ==> t.loggedIn == s.loggedIn && t.admin == s.admin
  {
    match a
    case Navigate(target) =>
      if target == "admin" && !s.admin then s else s.(page := target)
    case Login(asAdmin) => s.(loggedIn := true, admin := asAdmin)
    case Logout => ShellState("home", false, false)
  }

  /** The state reached from `s` after the actions in `actions`, in order. */
  function Run(s: ShellState, actions: seq<Action>): ShellState
    decreases |actions|
  {
    if actions == [] then s else Run(Step(s, actions[0]), actions[1..])
  }

  /** Whatever the user does from a consistent state, the flags stay consistent. */
  lemma {:induction false} RunKeepsConsistent(s: ShellState, actions: seq<Action>)
    requires Consistent(s)
    ensures Consistent(Run(s, actions))
    decreases |actions|
  {
    if actions != [] {
      RunKeepsConsistent(Step(s, actions[0]), actions[1..]);
    }
  }

  /**
   * Every state reachable from application start is consistent, and in every
   * such state the admin dashboard is mounted only for an administrator.
   */
  lemma ReachableStatesAreSafe(actions: seq<Action>)
    ensures Consistent(Run(Initial, actions))
    ensures var s := Run(Initial, actions);
      Render(s.page, s.loggedIn, s.admin) == AdminDashboardView ==> s.admin && s.loggedIn
  {
    RunKeepsConsistent(Initial, actions);
  }

  /** Asking for the admin page without the admin flag changes nothing at all. */
  lemma GuardedNavigationIsNoOp(s: ShellState)
    requires !s.admin
    ensures Step(s, Navigate("admin")) == s
  {
  }

  /** Any other navigation request is honoured, unknown page names included. */
  lemma NavigationHonoured(s: ShellState, target: string)
    requires target != "admin" || s.admin
    ensures Step(s, Navigate(target)) == ShellState(target, s.loggedIn, s.admin)
  {
  }

  /** Logging out lands on the home page with both flags cleared, from any state. */
  lemma LogoutResets(s: ShellState)
    ensures Step(s, Logout) == Initial
  {
  }

  /** An administrator login followed by a request for the admin page reaches it. */
  lemma AdminLoginOpensDashboard(s: ShellState)
    ensures Run(s, [Login(true), Navigate("admin")]).page == "admin"
    ensures var t := Run(s, [Login(true), Navigate("admin")]);
      Render(t.page, t.loggedIn, t.admin) == AdminDashboardView
  {
    var t := Step(s, Login(true));
    assert [Login(true), Navigate("admin")][1..] == [Navigate("admin")];
    assert Run(s, [Login(true), Navigate("admin")]) == Run(t, [Navigate("admin")]);
    assert Run(t, [Navigate("admin")]) == Step(t, Navigate("admin"));
  }

  /**
   * The login form's submit handler logs in and then navigates home: it always
   * ends on the home page, logged in, with the chosen admin flag.
   */
  lemma LoginFormFlow(s: ShellState, asAdmin: bool)
    ensures Run(s, [Login(asAdmin), Navigate("home")]) == ShellState("home", true, asAdmin)
  {
    var t := Step(s, Login(asAdmin));
    assert [Login(asAdmin), Navigate("home")][1..] == [Navigate("home")];
    assert Run(s, [Login(asAdmin), Navigate("home")]) == Run(t, [Navigate("home")]);
    assert Run(t, [Navigate("home")]) == Step(t, Navigate("home"));
  }

  /** The shell component: three state cells and the three handlers that set them. */
  class App {
    var currentPage: string
    var isLoggedIn: bool
    var isAdmin: bool

    /** The state cells as a value. */
    function Snapshot(): ShellState
      reads this
    {
      ShellState(currentPage, isLoggedIn, isAdmin)
    }

    ghost predicate Valid()
      reads this
    {
      Consistent(Snapshot())
    }

    constructor ()
      ensures Snapshot() == Initial && Valid()
    {
      currentPage, isLoggedIn, isAdmin := "home", false, false;
    }

    /** `handleNavigate`: ignored for `admin` unless the session is an administrator's. */
    method HandleNavigate(page: string)
      modifies this
      ensures page == "admin" && !old(isAdmin) ==> currentPage == old(currentPage)
      ensures page != "admin" || old(isAdmin) ==> currentPage == page
      ensures isLoggedIn == old(isLoggedIn) && isAdmin == old(isAdmin)
      ensures Snapshot() == Step(old(Snapshot()), Navigate(page))
      ensures old(Valid()) ==> Valid()
    {
      if page == "admin" && !isAdmin {
        return;
      }
      currentPage := page;
    }

    /** `handleLogin`: no credential check; the page is left as it is. */
    method HandleLogin(adminStatus: bool)
      modifies this
      ensures isLoggedIn && isAdmin == adminStatus && currentPage == old(currentPage)
      ensures Snapshot() == Step(old(Snapshot()), Login(adminStatus))
      ensures Valid()
    {
      isLoggedIn := true;
      isAdmin := adminStatus;
    }

    /** `handleLogout`: both flags cleared and back to the home page. */
    method HandleLogout()
      modifies this
      ensures Snapshot() == Initial
      ensures Snapshot() == Step(old(Snapshot()), Logout)
      ensures Valid()
    {
      isLoggedIn := false;
      isAdmin := false;
      currentPage := "home";
    }

    /** `renderPage`: the view for the current state cells. */
    function RenderPage(): (v: View)
      reads this
      ensures v == Render(currentPage, isLoggedIn, isAdmin)
      ensures Valid() && v == AdminDashboardView ==> isAdmin && isLoggedIn
    {
      Render(currentPage, isLoggedIn, isAdmin)
    }
  }
}
