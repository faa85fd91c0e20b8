/** The community app shell (Van-Rakshak-Community-App/src/App.js): the
    incident list shown as alerts, the signed-in user, the active tab, and
    the handlers that change them. */
module CommunityApp {
  import opened Common
  import LoginForm
  import ReportForm

  /** What `addIncident` receives: the form's report, or any object with
      the same keys; `incidentType` is a key the form does not send. */
  datatype NewIncident = NewIncident(
    kind: Option<string>, incidentType: Option<string>, description: string,
    location: ReportForm.ReportLocation, image: Option<string>)

  /** One alert of the list. */
  datatype AppIncident = AppIncident(
    id: int, kind: Option<string>, incidentType: Option<string>, description: string,
    distance: string, timestamp: int, severity: string, location: ReportForm.ReportLocation,
    image: Option<string>, reporter: Option<LoginForm.User>)

  /** The severity rule of `addIncident`. */
  function Severity(n: NewIncident): (r: string)
    ensures r == "high" <==> n.incidentType == Some("fire")
    ensures r != "high" ==> r == "medium"
  {
    if n.incidentType == Some("fire") then "high" else "medium"
  }

  /** The alert `addIncident` makes at time `now` (its id is the same
      clock reading). */
  function Stamped(n: NewIncident, now: int, reporter: Option<LoginForm.User>): (r: AppIncident)
    ensures r.id == now && r.timestamp == now && r.distance == "Your location"
    ensures r.severity == Severity(n) && r.reporter == reporter
    ensures r.kind == n.kind && r.incidentType == n.incidentType && r.description == n.description
    ensures r.location == n.location && r.image == n.image
  {
    AppIncident(now, n.kind, n.incidentType, n.description, "Your location", now, Severity(n),
      n.location, n.image, reporter)
  }

  /** The form's report as `addIncident` sees it. */
  function FromForm(r: ReportForm.Report): (n: NewIncident)
    ensures n.kind == Some(r.kind) && n.incidentType.None?
  {
    NewIncident(Some(r.kind), None, r.description, r.location, Some(r.image))
  }

  /** The form sends `type`, not `incidentType`, so its reports are
      always of medium severity, a fire included. */
  lemma FormReportsAreMedium(r: ReportForm.Report, now: int, reporter: Option<LoginForm.User>)
    ensures Stamped(FromForm(r), now, reporter).severity == "medium"
  {
  }

  datatype Screen = LoginScreen | ReportScreen | AlertsScreen

  const LoginTab := "login"
  const ReportTab := "report"
  const AlertsTab := "alerts"

  class App {
    var incidents: seq<AppIncident>
    var currentUser: Option<LoginForm.User>
    var activeTab: string

    constructor (initial: seq<AppIncident>)
      ensures incidents == initial && currentUser == None && activeTab == LoginTab
    {
      incidents, currentUser, activeTab := initial, None, LoginTab;
    }

    /** `addIncident`: the new alert goes first and the alerts tab opens. */
    method AddIncident(n: NewIncident, now: int)
      modifies this
      ensures incidents == [Stamped(n, now, currentUser)] + old(incidents)
      ensures currentUser == old(currentUser) && activeTab == AlertsTab
    {
      incidents := [Stamped(n, now, currentUser)] + incidents;
      activeTab := AlertsTab;
    }

    /** `handleLogin`. */
    method Login(user: LoginForm.User)
      modifies this
      ensures currentUser == Some(user) && activeTab == ReportTab && incidents == old(incidents)
    {
      currentUser, activeTab := Some(user), ReportTab;
    }

    /** `handleLogout`; `confirmed` is the answer to the dialog. */
    method Logout(confirmed: bool)
      modifies this
      ensures confirmed ==> currentUser == None && activeTab == LoginTab
      ensures !confirmed ==> currentUser == old(currentUser) && activeTab == old(activeTab)
      ensures incidents == old(incidents)
    {
      if confirmed {
        currentUser, activeTab := None, LoginTab;
      }
    }

    /** What renders: only the login form without a user; the report form
        on the report tab; the alert list otherwise. */
    function Screen(): (s: Screen)
      reads this
      ensures s == LoginScreen <==> currentUser.None?
      ensures s == ReportScreen <==> currentUser.Some? && activeTab == ReportTab
    {
      if currentUser.None? then LoginScreen
      else if activeTab == ReportTab then ReportScreen
      else AlertsScreen
    }
  }
}
