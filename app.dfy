/** The application shell (src/App.jsx): the signed-in user, the authentication state, the
    current view, the case data handed over by the upload screen, and the audit trail that
    every screen writes to through `addAuditLog`. */
module AppShell {
  import opened Wrappers
  import opened Audit

  datatype User = User(name: string, id: string, role: string)

  /** What the signup form hands to `onSignup`. */
  datatype SignupData = SignupData(username: string, email: string, role: string)

  /** The mock case the upload screen passes to `onUpload`. */
  datatype CaseArtifact = CaseArtifact(id: string, kind: string, content: string, source: string, timestamp: string)
  datatype CaseData = CaseData(fileName: string, uploadTime: string, artifacts: seq<CaseArtifact>)

  /** The screen the shell renders. */
  datatype Screen =
    | LandingUpload
    | SearchResults
    | NetworkDashboard
    | ReportGeneration
    | AuditLog
    | AdminPanel(activeTab: string)
    | Signup
    | Login

  const SeedUser := User("Detective Sarah Chen", "IO_001", "Investigator")

  /** The view names the shell's switch recognises. */
  const KnownViews: set<string> :=
    {"upload", "search", "dashboard", "report", "audit", "admin", "admin-cases", "admin-audit"}

  /** `renderCurrentView`: the screen for a view name; any name the switch does not list
      falls back to the upload screen. The admin panel opens on its cases tab unless the
      view asks for the audit tab. */
  function RenderCurrentView(view: string): (s: Screen)
    ensures view !in KnownViews ==> s == LandingUpload
    ensures s == LandingUpload <==> view !in KnownViews - {"upload"}
    ensures s.AdminPanel? <==> view in {"admin", "admin-cases", "admin-audit"}
    ensures s.AdminPanel? ==> (s.activeTab == "audit" <==> view == "admin-audit")
  {
    match view
    case "upload" => LandingUpload
    case "search" => SearchResults
    case "dashboard" => NetworkDashboard
    case "report" => ReportGeneration
    case "audit" => AuditLog
    case "admin" => AdminPanel("cases")
    case "admin-cases" => AdminPanel("cases")
    case "admin-audit" => AdminPanel("audit")
    case _ => LandingUpload
  }

  /** A view name that selects the screen (the inverse of the switch, choosing
      "admin-cases" for the cases tab). */
  function ViewName(s: Screen): string {
    match s
    case LandingUpload => "upload"
    case SearchResults => "search"
    case NetworkDashboard => "dashboard"
    case ReportGeneration => "report"
    case AuditLog => "audit"
    case AdminPanel(tab) => if tab == "audit" then "admin-audit" else "admin-cases"
    case Signup => "upload"
    case Login => "upload"
  }

  /** Every recognised view name except the alias "admin" round-trips through the switch, so
      distinct names select distinct screens. */
  lemma RenderCurrentViewRoundTrip(view: string)
    requires view in KnownViews - {"admin"}
    ensures ViewName(RenderCurrentView(view)) == view
  {
  }

  /** The screens the switch can select are exactly these; each is selected by its own name. */
  lemma RenderCurrentViewOnto(s: Screen)
    requires s !in {Signup, Login}
    requires s.AdminPanel? ==> s.activeTab in {"cases", "audit"}
    ensures RenderCurrentView(ViewName(s)) == s
  {
  }

  /** The whole of what the shell shows: the signup or login screen while signed out
      (depending on `authView`), otherwise the current view. */
  function ShownScreen(isAuthenticated: bool, authView: string, currentView: string): (s: Screen)
    ensures !isAuthenticated <==> s in {Signup, Login}
    ensures !isAuthenticated ==> (s == Signup <==> authView == "signup")
    ensures isAuthenticated ==> s == RenderCurrentView(currentView)
  {
    if !isAuthenticated then (if authView == "signup" then Signup else Login)
    else RenderCurrentView(currentView)
  }

  class App {
    var currentView: string
    var isAuthenticated: bool
    var authView: string
    var currentUser: User
    var auditLogs: seq<AuditEntry>
    var caseData: Option<CaseData>

    /** The audit ids stay exactly 1..length. */
    ghost predicate Valid()
      reads this
    {
      IdsExact(auditLogs)
    }

    function Shown(): Screen
      reads this
    {
      ShownScreen(isAuthenticated, authView, currentView)
    }

    constructor ()
      ensures Valid()
      ensures currentView == "upload" && !isAuthenticated && authView == "signup"
      ensures currentUser == SeedUser && auditLogs == SeedLogs && caseData == None
    {
      currentView := "upload";
      isAuthenticated := false;
      authView := "signup";
      currentUser := SeedUser;
      auditLogs := SeedLogs;
      caseData := None;
      SeedIdsExact();
    }

    /** `addAuditLog(action, details)`, with the clock reading passed in. */
    method AddAuditLog(action: string, details: string, timestamp: string)
      requires Valid()
      modifies this`auditLogs
      ensures Valid()
      ensures auditLogs == Logged(old(auditLogs), action, currentUser.name, timestamp, details)
    {
      LoggedKeepsIdsExact(auditLogs, action, currentUser.name, timestamp, details);
      auditLogs := Logged(auditLogs, action, currentUser.name, timestamp, details);
    }

    /** `setCaseData`, passed to the upload screen as `onUpload`. */
    method SetCaseData(data: CaseData)
      modifies this`caseData
      ensures caseData == Some(data)
    {
      caseData := Some(data);
    }

    /** `setCurrentView`, passed to the sidebar as `onViewChange`. */
    method SetCurrentView(view: string)
      modifies this`currentView
      ensures currentView == view
    {
      currentView := view;
    }

    method HandleLogin(timestamp: string)
      requires Valid()
      modifies this`isAuthenticated, this`auditLogs
      ensures Valid() && isAuthenticated
      ensures auditLogs == Logged(old(auditLogs), "Login", currentUser.name, timestamp, "User successfully logged into system")
    {
      isAuthenticated := true;
      AddAuditLog("Login", "User successfully logged into system", timestamp);
    }

    /** Signs out to the signup screen, resets the view to upload and records one "Logout". */
    method HandleLogout(timestamp: string)
      requires Valid()
      modifies this`isAuthenticated, this`authView, this`currentView, this`auditLogs
      ensures Valid()
      ensures !isAuthenticated && authView == "signup" && currentView == "upload"
      ensures Shown() == Signup
      ensures auditLogs == Logged(old(auditLogs), "Logout", currentUser.name, timestamp, "User logged out of system")
    {
      isAuthenticated := false;
      authView := "signup";
      currentView := "upload";
      AddAuditLog("Logout", "User logged out of system", timestamp);
    }

    method HandleSignupToLogin()
      modifies this`authView
      ensures authView == "login"
    {
      authView := "login";
    }

    /** Makes the new account the current user (id "AD_001" for an Admin, "IO_001" for any
        other role), opens the admin cases view for an Admin and the upload view otherwise,
        and records one "Account Created". The entry is attributed to the user who was
        current BEFORE the call: `addAuditLog` reads the user captured by the handler. */
    method HandleSignup(userData: SignupData, timestamp: string)
      requires Valid()
      modifies this`currentUser, this`currentView, this`isAuthenticated, this`auditLogs
      ensures Valid() && isAuthenticated
      ensures currentUser == User(userData.username, if userData.role == "Admin" then "AD_001" else "IO_001", userData.role)
      ensures currentView == if userData.role == "Admin" then "admin-cases" else "upload"
      ensures auditLogs == Logged(old(auditLogs), "Account Created", old(currentUser.name), timestamp,
                                  "New " + userData.role + " account created for " + userData.username)
    {
      // the log call sees the user of the render that created this handler
      AddAuditLog("Account Created", "New " + userData.role + " account created for " + userData.username, timestamp);
      currentUser := User(userData.username, if userData.role == "Admin" then "AD_001" else "IO_001", userData.role);
      currentView := if userData.role == "Admin" then "admin-cases" else "upload";
      isAuthenticated := true;
    }

    /** Only an Admin reaches the admin panel; for anyone else nothing changes. */
    method HandleAdminPanelAccess(timestamp: string)
      requires Valid()
      modifies this`currentView, this`auditLogs
      ensures Valid()
      ensures old(currentUser.role) == "Admin" ==>
        currentView == "admin-cases"
        && auditLogs == Logged(old(auditLogs), "Admin Panel Access", currentUser.name, timestamp, "Administrator accessed admin panel")
      ensures old(currentUser.role) != "Admin" ==> currentView == old(currentView) && auditLogs == old(auditLogs)
    {
      if currentUser.role == "Admin" {
        currentView := "admin-cases";
        AddAuditLog("Admin Panel Access", "Administrator accessed admin panel", timestamp);
      }
    }
  }
}
