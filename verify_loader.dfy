/**
 * The route guards of the web client (client-web/src/loaders/verify.loader.js):
 * the login page's loader, which sends a signed-in user to the dashboard of
 * their role, and the loaders of the protected pages, which check the stored
 * session with the server and the stored role against the page's expected
 * role, clearing the browser storage whenever they refuse.
 *
 * The browser storage is an object whose items the guards read and clear;
 * the server's answer to the verification request is an input.
 */
module VerifyLoader {
  import opened Wrappers
  import opened Text

  /** The value of `key` in `items`, `null` when it is absent. */
  function Lookup(items: map<string, string>, key: string): Option<string> {
    if key in items then Some(items[key]) else None
  }

  /** JavaScript truthiness of a stored item: present and not empty. */
  predicate Truthy(item: Option<string>) {
    item.Some? && item.value != ""
  }

  /** What a loader returns: `null` (the page renders) or a redirect. */
  datatype LoaderResult = Stay | RedirectTo(path: string)

  // ---------------------------------------------------------------------------
  // loginLoader
  // ---------------------------------------------------------------------------

  /** The dashboard of each role; any other role is sent to the login page. */
  function DashboardOf(role: string): (path: string)
    ensures path != "/login" <==> role in {"ADMIN", "FACULTY", "STUDENT", "INSTITUTE-HEAD", "DEPARTMENT-HEAD"}
  {
    if role == "ADMIN" then "/admin/dashboard"
    else if role == "FACULTY" then "/faculty/dashboard"
    else if role == "STUDENT" then "/student/dashboard"
    else if role == "INSTITUTE-HEAD" then "/hoi/dashboard"
    else if role == "DEPARTMENT-HEAD" then "/hod/dashboard/"
    else "/login"
  }

  /** `loginLoader`: with a token and a role stored, a redirect to the role's
      dashboard (the login page for an unknown role); otherwise `null`. */
  function LoginRedirect(items: map<string, string>): (r: LoaderResult)
    ensures r.Stay? <==> !Truthy(Lookup(items, "token")) || !Truthy(Lookup(items, "role"))
    ensures r.RedirectTo? ==> r.path == DashboardOf(items["role"])
  {
    var token := Lookup(items, "token");
    var role := Lookup(items, "role");
    if Truthy(token) && Truthy(role) then RedirectTo(DashboardOf(role.value)) else Stay
  }

  // ---------------------------------------------------------------------------
  // Expected-role matching
  // ---------------------------------------------------------------------------

  /** Whether a page expecting `expectedRole` admits the stored `role`:
      `admin`, `faculty` and `student` compare case-insensitively (lowering
      ASCII letters decides equality with these all-ASCII names exactly),
      `hoi` and `hod` admit exactly `INSTITUTE-HEAD` and `DEPARTMENT-HEAD`,
      and any other expected role admits nobody. */
  function RoleMatches(expectedRole: string, role: string): bool {
    if expectedRole == "admin" || expectedRole == "faculty" || expectedRole == "student" then
      Lower(expectedRole) == Lower(role)
    else if expectedRole == "hoi" then "INSTITUTE-HEAD" == role
    else if expectedRole == "hod" then "DEPARTMENT-HEAD" == role
    else false
  }

  /** The first segment of an absolute path: `admin` for `/admin/dashboard`. */
  function FirstSegment(path: string): string {
    var parts := Split('/', path);
    if |parts| >= 2 then parts[1] else ""
  }

  lemma FirstSegmentOf(head: string, tail: string)
    requires '/' !in head
    ensures FirstSegment("/" + head + "/" + tail) == head
  {
    var rest := head + "/" + tail;
    assert "/" + head + "/" + tail == "" + ['/'] + rest;
    SplitAtFirst('/', "", rest);
    SplitAtFirst('/', head, tail);
  }

  /** An upper-case role lowers to the name of its guard. */
  lemma LowerRoleName(role: string, guard: string)
    requires |role| == |guard|
    requires forall k :: 0 <= k < |role| ==> LowerChar(role[k]) == guard[k]
    ensures Lower(role) == guard
  {
  }

  lemma AdminDashboardAdmits()
    ensures RoleMatches(FirstSegment(DashboardOf("ADMIN")), "ADMIN")
  {
    assert DashboardOf("ADMIN") == "/" + "admin" + "/" + "dashboard";
    FirstSegmentOf("admin", "dashboard");
    LowerRoleName("ADMIN", "admin");
    LowerRoleName("admin", "admin");
  }

  lemma FacultyDashboardAdmits()
    ensures RoleMatches(FirstSegment(DashboardOf("FACULTY")), "FACULTY")
  {
    assert DashboardOf("FACULTY") == "/" + "faculty" + "/" + "dashboard";
    FirstSegmentOf("faculty", "dashboard");
    LowerRoleName("FACULTY", "faculty");
    LowerRoleName("faculty", "faculty");
  }

  lemma StudentDashboardAdmits()
    ensures RoleMatches(FirstSegment(DashboardOf("STUDENT")), "STUDENT")
  {
    assert DashboardOf("STUDENT") == "/" + "student" + "/" + "dashboard";
    FirstSegmentOf("student", "dashboard");
    LowerRoleName("STUDENT", "student");
    LowerRoleName("student", "student");
  }

  lemma InstituteHeadDashboardAdmits()
    ensures RoleMatches(FirstSegment(DashboardOf("INSTITUTE-HEAD")), "INSTITUTE-HEAD")
  {
    assert DashboardOf("INSTITUTE-HEAD") == "/" + "hoi" + "/" + "dashboard";
    FirstSegmentOf("hoi", "dashboard");
  }

  lemma DepartmentHeadDashboardAdmits()
    ensures RoleMatches(FirstSegment(DashboardOf("DEPARTMENT-HEAD")), "DEPARTMENT-HEAD")
  {
    assert DashboardOf("DEPARTMENT-HEAD") == "/" + "hod" + "/" + "dashboard/";
    FirstSegmentOf("hod", "dashboard/");
  }

  /** The login page sends each role to a dashboard whose guard (the first
      segment of its path) admits that role. */
  lemma DashboardAdmitsItsRole(role: string)
    requires DashboardOf(role) != "/login"
    ensures RoleMatches(FirstSegment(DashboardOf(role)), role)
  {
    if role == "ADMIN" {
      AdminDashboardAdmits();
    } else if role == "FACULTY" {
      FacultyDashboardAdmits();
    } else if role == "STUDENT" {
      StudentDashboardAdmits();
    } else if role == "INSTITUTE-HEAD" {
      InstituteHeadDashboardAdmits();
    } else {
      DepartmentHeadDashboardAdmits();
    }
  }

  /** A page expecting anything but the five guard names admits no role. */
  lemma UnknownGuardAdmitsNobody(expectedRole: string, role: string)
    requires expectedRole !in {"admin", "faculty", "student", "hoi", "hod"}
    ensures !RoleMatches(expectedRole, role)
  {
  }

  /** A role stored in lower case passes the `admin` guard, yet the login page
      treats it as unknown and sends it back to the login page. */
  lemma LowercaseAdminAsymmetry()
    ensures RoleMatches("admin", "admin")
    ensures DashboardOf("admin") == "/login"
  {
    assert Lower("admin") == "admin";
  }

  // ---------------------------------------------------------------------------
  // verifyLoader
  // ---------------------------------------------------------------------------

  /** The answer to the verification request: nothing (a falsy result), a
      result with or without success, or an exception. */
  datatype VerifyReply = NoResult | Replied(success: bool) | Threw

  /** The logout request: the stored `_id` it carries. */
  datatype LogoutCall = LogoutCall(userId: Option<string>)

  /** What a guard decides: its result, whether it clears the storage, and
      the logout request it sends, if any. */
  datatype Decision = Decision(result: LoaderResult, clears: bool, logout: Option<LogoutCall>)

  /** The decision of `verifyLoader(expectedRole)` on the stored `items`: a
      missing token or role, a thrown verification, a falsy or unsuccessful
      verification (after a logout request with the stored `_id`) and a role
      the page does not admit all clear the storage and redirect to the login
      page; only a verified, admitted role renders the page. */
  function VerifyDecision(items: map<string, string>, expectedRole: string, reply: VerifyReply): (d: Decision)
    ensures d.result.Stay? <==> !d.clears
    ensures d.result.RedirectTo? ==> d.result.path == "/login"
    ensures d.result.Stay? <==>
              Truthy(Lookup(items, "token")) && Truthy(Lookup(items, "role")) &&
              reply == Replied(true) && RoleMatches(expectedRole, items["role"])
    ensures d.logout.Some? <==>
              Truthy(Lookup(items, "token")) && Truthy(Lookup(items, "role")) &&
              (reply == NoResult || reply == Replied(false))
    ensures d.logout.Some? ==> d.logout.value.userId == Lookup(items, "_id")
  {
    var token := Lookup(items, "token");
    var role := Lookup(items, "role");
    if !Truthy(token) || !Truthy(role) then Decision(RedirectTo("/login"), true, None)
    else
      match reply
      case Threw => Decision(RedirectTo("/login"), true, None)
      case NoResult => Decision(RedirectTo("/login"), true, Some(LogoutCall(Lookup(items, "_id"))))
      case Replied(success) =>
        if !success then Decision(RedirectTo("/login"), true, Some(LogoutCall(Lookup(items, "_id"))))
        else if RoleMatches(expectedRole, role.value) then Decision(Stay, false, None)
        else Decision(RedirectTo("/login"), true, None)
  }

  /** The browser's `localStorage`. */
  class LocalStorage {
    var items: map<string, string>

    constructor(initial: map<string, string>)
      ensures items == initial
    {
      items := initial;
    }

    /** `localStorage.getItem(key)`. */
    function GetItem(key: string): Option<string>
      reads this
    {
      Lookup(items, key)
    }

    /** `localStorage.clear()`. */
    method Clear()
      modifies this
      ensures items == map[]
    {
      items := map[];
    }
  }

  /** `verifyLoader(expectedRole)`: reads the session, consults the server,
      and clears the storage on every refusal. */
  method VerifyLoaderRun(storage: LocalStorage, expectedRole: string, reply: VerifyReply)
    returns (r: LoaderResult, logout: Option<LogoutCall>)
    modifies storage
    ensures var d := VerifyDecision(old(storage.items), expectedRole, reply);
            && r == d.result && logout == d.logout
            && storage.items == (if d.clears then map[] else old(storage.items))
  {
    logout := None;
    var token := storage.GetItem("token");
    var role := storage.GetItem("role");
    if !Truthy(token) || !Truthy(role) {
      storage.Clear();
      return RedirectTo("/login"), None;
    }
    if reply.Threw? {
      storage.Clear();
      return RedirectTo("/login"), None;
    }
    if reply.NoResult? || !reply.success {
      var userId := storage.GetItem("_id");
      logout := Some(LogoutCall(userId));
      storage.Clear();
      return RedirectTo("/login"), logout;
    }
    if RoleMatches(expectedRole, role.value) {
      r := Stay;
    } else {
      storage.Clear();
      r := RedirectTo("/login");
    }
  }

  /** A user the login page sends to a dashboard, once verified by the
      server, is admitted by that dashboard's guard and keeps their storage. */
  lemma LoginThenVerify(items: map<string, string>)
    requires LoginRedirect(items).RedirectTo? && LoginRedirect(items).path != "/login"
    ensures VerifyDecision(items, FirstSegment(LoginRedirect(items).path), Replied(true)) == Decision(Stay, false, None)
  {
    DashboardAdmitsItsRole(items["role"]);
  }
}
