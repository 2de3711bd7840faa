/** The application shell: who is logged in, which view is current, the
    landing page's status message, and the routing from (user, view) to
    the screen that is shown. */
module App {
  import opened Records

  const DashboardViewName := "dashboard"
  const SettingsViewName := "settings"
  const PaymentViewName := "payment"

  /** Shown on the landing page when no demo account has the chosen role. */
  const NoAccountMessage := "Akaun demo untuk peranan ini belum disediakan."

  /** `MOCK_USERS.find((u) => u.role === role)` */
  function AccountFor(users: seq<User>, role: Role): (r: Option<User>)
    ensures r.None? <==> forall u :: u in users ==> u.role != role
    ensures r.Some? ==> exists k ::
      && 0 <= k < |users| && users[k] == r.value && users[k].role == role
      && forall j :: 0 <= j < k ==> users[j].role != role
  {
    match FindFirst(users, (u: User) => u.role == role)
    case None => None
    case Some(k) => Some(users[k])
  }

  // ----- Routing -----

  datatype Dashboard = AdminDashboard | UstazDashboard | ParentDashboard

  /** The dashboard of each role. */
  function DashboardFor(role: Role): (d: Dashboard) {
    match role
    case Admin => AdminDashboard
    case Ustaz => UstazDashboard
    case Parent => ParentDashboard
  }

  /** The role a dashboard belongs to. */
  function DashboardRole(d: Dashboard): Role {
    match d
    case AdminDashboard => Admin
    case UstazDashboard => Ustaz
    case ParentDashboard => Parent
  }

  /** Each role has its own dashboard, and each dashboard one role. */
  lemma DashboardRoundTrip(role: Role, d: Dashboard)
    ensures DashboardRole(DashboardFor(role)) == role
    ensures DashboardFor(DashboardRole(d)) == d
  {
  }

  /** `renderDashboard`: the user's role's dashboard, nothing without a user. */
  function RenderDashboard(user: Option<User>): (r: Option<Dashboard>)
    ensures r.None? <==> user.None?
    ensures r.Some? ==> DashboardRole(r.value) == user.value.role
  {
    match user
    case None => None
    case Some(u) => Some(DashboardFor(u.role))
  }

  datatype Content =
    | SettingsScreen(settingsUser: User)
    | PaymentScreen(paymentUser: User)
    | DashboardScreen(dashboard: Dashboard)
    | Placeholder

  /** `renderContent`: nothing without a user; with one, 'settings' and
      'payment' get their screens, 'dashboard' the role's dashboard and
      every other view name the placeholder page, never an error. */
  function RenderContent(user: Option<User>, view: string): (r: Option<Content>)
    ensures r.None? <==> user.None?
    ensures r.Some? && view == SettingsViewName ==> r.value == SettingsScreen(user.value)
    ensures r.Some? && view == PaymentViewName ==> r.value == PaymentScreen(user.value)
    ensures r.Some? && view == DashboardViewName ==>
      r.value.DashboardScreen? && DashboardRole(r.value.dashboard) == user.value.role
    ensures r.Some? && view !in {SettingsViewName, PaymentViewName, DashboardViewName} ==> r.value == Placeholder
  {
    if user.None? then None
    else if view == SettingsViewName then Some(SettingsScreen(user.value))
    else if view == PaymentViewName then Some(PaymentScreen(user.value))
    else if view == DashboardViewName then
      match RenderDashboard(user)
      case Some(d) => Some(DashboardScreen(d))
      case None => None
    else Some(Placeholder)
  }

  /** The top-level surface: the landing page with its status message when
      nobody is logged in, otherwise the layout around the routed content. */
  datatype Surface =
    | Landing(statusMessage: string)
    | Layout(user: User, currentView: string, content: Content)

  class AppState {
    var currentUser: Option<User>
    var currentView: string
    var statusMessage: string

    constructor ()
      ensures currentUser == None && currentView == DashboardViewName && statusMessage == ""
    {
      currentUser := None;
      currentView := DashboardViewName;
      statusMessage := "";
    }

    /** What the application renders from its state. */
    function Render(): (r: Surface)
      reads this
      ensures r.Landing? <==> currentUser.None?
      ensures r.Landing? ==> r.statusMessage == statusMessage
      ensures r.Layout? ==> r.user == currentUser.value && Some(r.content) == RenderContent(currentUser, currentView)
      ensures r.Layout? ==> r.currentView == currentView
    {
      match currentUser
      case None => Landing(statusMessage)
      case Some(u) => Layout(u, currentView, RenderContent(currentUser, currentView).value)
    }

    /** `handleLogin(role)`: bind the first seed account with the role and
        go to the dashboard; with no such account, only set the message. */
    method HandleLogin(users: seq<User>, role: Role)
      modifies this
      ensures AccountFor(users, role).Some? ==>
        && currentUser == AccountFor(users, role)
        && currentView == DashboardViewName
        && statusMessage == ""
      ensures AccountFor(users, role).None? ==>
        && currentUser == old(currentUser)
        && currentView == old(currentView)
        && statusMessage == NoAccountMessage
    {
      var account := AccountFor(users, role);
      if account.None? {
        statusMessage := NoAccountMessage;
        return;
      }
      currentUser := account;
      currentView := DashboardViewName;
      statusMessage := "";
    }

    /** `handleLogout`: from any state, nobody is logged in and the view is
        back to the dashboard; the status message is left as it was. */
    method HandleLogout()
      modifies this
      ensures currentUser == None && currentView == DashboardViewName
      ensures statusMessage == old(statusMessage)
    {
      currentUser := None;
      currentView := DashboardViewName;
    }

    /** The layout's navigation callback: any view name is accepted. */
    method Navigate(view: string)
      modifies this
      ensures currentView == view
      ensures currentUser == old(currentUser) && statusMessage == old(statusMessage)
    {
      currentView := view;
    }

    /** The placeholder page's "back to dashboard" button. */
    method PlaceholderBack()
      modifies this
      ensures currentView == DashboardViewName
      ensures currentUser == old(currentUser) && statusMessage == old(statusMessage)
    {
      currentView := DashboardViewName;
    }
  }

  /** A session from the landing page: a failed login leaves the landing
      page showing the message; a successful one shows the role's
      dashboard; navigating to an unknown view shows the placeholder, whose
      back button returns to the dashboard; logging out lands again. */
  method LoginRound(users: seq<User>, role: Role) returns (app: AppState)
    ensures fresh(app)
    ensures app.Render().Landing?
    ensures AccountFor(users, role).None? ==> app.Render().statusMessage == NoAccountMessage
    ensures AccountFor(users, role).Some? ==> app.Render().statusMessage == ""
  {
    app := new AppState();
    app.HandleLogin(users, role);
    if AccountFor(users, role).None? {
      assert app.Render() == Landing(NoAccountMessage);
      return;
    }
    var u := app.currentUser.value;
    assert app.Render() == Layout(u, DashboardViewName, DashboardScreen(DashboardFor(u.role)));
    app.Navigate("users");
    assert app.Render().content == Placeholder;
    app.PlaceholderBack();
    assert app.Render().content.DashboardScreen?;
    app.HandleLogout();
  }
}
