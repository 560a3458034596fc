/**
 * The route table of App.tsx: from the path, whether someone is signed in and
 * the role held in memory, to the page shown or the path redirected to; and
 * the sign-in callback that sets the user and the role.
 *
 * The role in memory is the raw string of the user document (or none), since
 * the code compares it with 'user' and 'admin' without decoding it.
 */
module Routing {

  import opened Wrappers

  datatype Page =
    | UserLoginPage | UserHomePage | ExamWindowPage(examId: string)
    | AdminLoginPage | AdminDashboardPage | AdminExamManagerPage | AdminUsersPage | AdminPaymentsPage

  datatype Element = Show(page: Page) | Redirect(to: string)

  /** The route patterns, in table order; `Other` is the `*` catch-all. */
  datatype Route =
    | LoginRoute | RootRoute | ExamRoute(id: string)
    | AdminLoginRoute | AdminRoute | AdminExamsRoute | AdminUsersRoute | AdminPaymentsRoute
    | Other

  predicate IsAdminPage(p: Page) {
    p.AdminDashboardPage? || p.AdminExamManagerPage? || p.AdminUsersPage? || p.AdminPaymentsPage?
  }

  /** The seven fixed route paths. */
  function FixedPaths(): set<string> {
    {"/login", "/", "/admin/login", "/admin", "/admin/exams", "/admin/users", "/admin/payments"}
  }

  /** A path of the form `/exam/<id>` with one non-empty segment without "/". */
  ghost predicate IsExamPath(path: string) {
    exists id :: id != "" && '/' !in id && path == "/exam/" + id
  }

  /**
   * Matching a path against the patterns. The fixed patterns match exactly
   * their own path; `/exam/:id` takes one non-empty segment without "/", and
   * any such segment; everything else falls to the catch-all.
   */
  function MatchPath(path: string): (rt: Route)
    ensures rt == LoginRoute <==> path == "/login"
    ensures rt == RootRoute <==> path == "/"
    ensures rt == AdminLoginRoute <==> path == "/admin/login"
    ensures rt == AdminRoute <==> path == "/admin"
    ensures rt == AdminExamsRoute <==> path == "/admin/exams"
    ensures rt == AdminUsersRoute <==> path == "/admin/users"
    ensures rt == AdminPaymentsRoute <==> path == "/admin/payments"
    ensures rt.ExamRoute? ==> path == "/exam/" + rt.id && rt.id != "" && '/' !in rt.id
    ensures forall id :: id != "" && '/' !in id && path == "/exam/" + id ==> rt == ExamRoute(id)
    ensures rt == Other <==> path !in FixedPaths() && !IsExamPath(path)
  {
    if path == "/login" then LoginRoute
    else if path == "/" then RootRoute
    else if |path| > 6 && path[..6] == "/exam/" && '/' !in path[6..] then ExamRoute(path[6..])
    else if path == "/admin/login" then AdminLoginRoute
    else if path == "/admin" then AdminRoute
    else if path == "/admin/exams" then AdminExamsRoute
    else if path == "/admin/users" then AdminUsersRoute
    else if path == "/admin/payments" then AdminPaymentsRoute
    else Other
  }

  /** Signed in and holding the given role. */
  predicate Holds(signedIn: bool, role: Option<string>, name: string) {
    signedIn && role == Some(name)
  }

  /** An admin-only page: shown to a signed-in admin, otherwise a redirect to the admin sign-in. */
  function AdminOnly(p: Page, signedIn: bool, role: Option<string>): Element {
    if Holds(signedIn, role, "admin") then Show(p) else Redirect("/admin/login")
  }

  /** The admin page a route leads to, for the four admin-only routes. */
  function AdminPageOf(rt: Route): Option<Page> {
    match rt
    case AdminRoute => Some(AdminDashboardPage)
    case AdminExamsRoute => Some(AdminExamManagerPage)
    case AdminUsersRoute => Some(AdminUsersPage)
    case AdminPaymentsRoute => Some(AdminPaymentsPage)
    case _ => None
  }

  /**
   * The route table as written. Each page is shown exactly to those entitled
   * to it on its own route: the sign-in pages to the signed-out, the home page
   * to signed-in non-admins, the exam window to signed-in students, the admin
   * pages to signed-in admins. Everyone else is sent to a fixed path per route.
   */
  function RouteElement(path: string, signedIn: bool, role: Option<string>): (r: Element)
    ensures r == Show(UserLoginPage) <==> MatchPath(path) == LoginRoute && !signedIn
    ensures r == Show(AdminLoginPage) <==> MatchPath(path) == AdminLoginRoute && !signedIn
    ensures r == Show(UserHomePage) <==> MatchPath(path) == RootRoute && signedIn && role != Some("admin")
    ensures r.Show? && r.page.ExamWindowPage? <==> MatchPath(path).ExamRoute? && Holds(signedIn, role, "user")
    ensures r.Show? && r.page.ExamWindowPage? ==> MatchPath(path) == ExamRoute(r.page.examId)
    ensures r.Show? && IsAdminPage(r.page) <==> AdminPageOf(MatchPath(path)).Some? && Holds(signedIn, role, "admin")
    ensures r.Show? && IsAdminPage(r.page) ==> AdminPageOf(MatchPath(path)) == Some(r.page)
    ensures MatchPath(path) == LoginRoute && signedIn ==> r == Redirect("/")
    ensures MatchPath(path) == RootRoute && !signedIn ==> r == Redirect("/login")
    ensures MatchPath(path) == RootRoute && Holds(signedIn, role, "admin") ==> r == Redirect("/admin")
    ensures MatchPath(path).ExamRoute? && !Holds(signedIn, role, "user") ==> r == Redirect("/login")
    ensures MatchPath(path) == AdminLoginRoute && signedIn ==> r == Redirect("/admin")
    ensures AdminPageOf(MatchPath(path)).Some? && !Holds(signedIn, role, "admin") ==> r == Redirect("/admin/login")
    ensures MatchPath(path) == Other ==> r == Redirect("/")
  {
    match MatchPath(path)
    case LoginRoute => if !signedIn then Show(UserLoginPage) else Redirect("/")
    case RootRoute =>
      if signedIn then (if role == Some("admin") then Redirect("/admin") else Show(UserHomePage))
      else Redirect("/login")
    case ExamRoute(id) => if Holds(signedIn, role, "user") then Show(ExamWindowPage(id)) else Redirect("/login")
    case AdminLoginRoute => if !signedIn then Show(AdminLoginPage) else Redirect("/admin")
    case AdminRoute => AdminOnly(AdminDashboardPage, signedIn, role)
    case AdminExamsRoute => AdminOnly(AdminExamManagerPage, signedIn, role)
    case AdminUsersRoute => AdminOnly(AdminUsersPage, signedIn, role)
    case AdminPaymentsRoute => AdminOnly(AdminPaymentsPage, signedIn, role)
    case Other => Redirect("/")
  }

  /** Any path outside the route patterns redirects to "/", whoever is signed in. */
  lemma UnknownPathRedirectsHome(path: string, signedIn: bool, role: Option<string>)
    requires path !in FixedPaths() && !IsExamPath(path)
    ensures RouteElement(path, signedIn, role) == Redirect("/")
  {
  }

  /**
   * Following redirects, at most `hops` of them, under the table as written or
   * the corrected one; none if no page is reached.
   */
  function Resolve(path: string, signedIn: bool, role: Option<string>, hops: nat, corrected: bool): Option<Page>
    decreases hops
  {
    var r := if corrected then CorrectedRouteElement(path, signedIn, role) else RouteElement(path, signedIn, role);
    match r
    case Show(p) => Some(p)
    case Redirect(to) => if hops == 0 then None else Resolve(to, signedIn, role, hops - 1, corrected)
  }

  /**
   * As written, a signed-in account that is not an admin is bounced between
   * /admin and /admin/login forever: no number of redirects reaches a page.
   */
  lemma {:induction false} AdminRedirectLoop(role: Option<string>, hops: nat)
    requires role != Some("admin")
    ensures RouteElement("/admin", true, role) == Redirect("/admin/login")
    ensures RouteElement("/admin/login", true, role) == Redirect("/admin")
    ensures Resolve("/admin", true, role, hops, false) == None
    ensures Resolve("/admin/login", true, role, hops, false) == None
    decreases hops
  {
    assert MatchPath("/admin") == AdminRoute;
    assert MatchPath("/admin/login") == AdminLoginRoute;
    if hops > 0 {
      AdminRedirectLoop(role, hops - 1);
    }
  }

  /**
   * The corrected table: a signed-in account that is not an admin is sent from
   * the admin sign-in page to "/" instead of back to /admin. It keeps every
   * entitlement of the table as written.
   */
  function CorrectedRouteElement(path: string, signedIn: bool, role: Option<string>): (r: Element)
    ensures r.Show? && (r.page == UserLoginPage || r.page == AdminLoginPage) ==> !signedIn
    ensures r.Show? && r.page.ExamWindowPage? ==> Holds(signedIn, role, "user")
    ensures r.Show? && IsAdminPage(r.page) ==> Holds(signedIn, role, "admin")
    ensures r.Show? && r.page == UserHomePage ==> signedIn && role != Some("admin")
    ensures r.Redirect? ==> r.to == "/" || r.to == "/login" || r.to == "/admin" || r.to == "/admin/login"
    ensures r != RouteElement(path, signedIn, role) ==> MatchPath(path) == AdminLoginRoute && signedIn && role != Some("admin")
    ensures MatchPath(path) == AdminLoginRoute && signedIn && role != Some("admin") ==> r == Redirect("/")
  {
    if MatchPath(path) == AdminLoginRoute && signedIn && role != Some("admin") then Redirect("/")
    else RouteElement(path, signedIn, role)
  }

  /** Under the corrected table every path reaches a page within three redirects. */
  lemma CorrectedRoutesSettle(path: string, signedIn: bool, role: Option<string>)
    ensures Resolve(path, signedIn, role, 3, true).Some?
  {
    assert MatchPath("/") == RootRoute;
    assert MatchPath("/login") == LoginRoute;
    assert MatchPath("/admin") == AdminRoute;
    assert MatchPath("/admin/login") == AdminLoginRoute;
    var r := CorrectedRouteElement(path, signedIn, role);
    if r.Redirect? {
      var r1 := CorrectedRouteElement(r.to, signedIn, role);
      if r1.Redirect? {
        var r2 := CorrectedRouteElement(r1.to, signedIn, role);
        if r2.Redirect? {
          var r3 := CorrectedRouteElement(r2.to, signedIn, role);
          assert r3.Show?;
        }
      }
    }
  }

  /** The document's role field as stored (`role || 'user'`): absent or empty reads as "user". */
  function DerivedRole(roleField: Option<string>): (r: string)
    ensures r != ""
    ensures roleField.Some? && roleField.value != "" ==> r == roleField.value
    ensures roleField.None? || roleField.value == "" ==> r == "user"
  {
    if roleField.Some? && roleField.value != "" then roleField.value else "user"
  }

  /** What reading the signed-in account's user document gave. */
  datatype UserDocLookup = DocMissing | DocFound(roleField: Option<string>) | DocLookupFailed

  class AppShell {
    var user: Option<string>
    var role: Option<string>
    var loading: bool

    constructor ()
      ensures user == None && role == None && loading
    {
      user := None;
      role := None;
      loading := true;
    }

    /**
     * The sign-in callback: the user is recorded; signing out clears the role;
     * a found user document sets the role from it; a missing one leaves the role
     * as it was; a failed read leaves the role and the loading state as they were.
     */
    method OnAuthStateChanged(current: Option<string>, lookup: UserDocLookup)
      modifies this
      ensures user == current
      ensures current.None? ==> role == None && !loading
      ensures current.Some? && lookup.DocFound? ==> role == Some(DerivedRole(lookup.roleField)) && !loading
      ensures current.Some? && lookup.DocMissing? ==> role == old(role) && !loading
      ensures current.Some? && lookup.DocLookupFailed? ==> role == old(role) && loading == old(loading)
    {
      user := current;
      if current.Some? {
        match lookup {
          case DocFound(field) => role := Some(DerivedRole(field));
          case DocMissing =>
          case DocLookupFailed => return;
        }
      } else {
        role := None;
      }
      loading := false;
    }

    /** The screen for `path`: a spinner (none) while loading, else the route table as written. */
    function View(path: string): (v: Option<Element>)
      reads this
      ensures v.Some? <==> !loading
      ensures v.Some? ==> v.value == RouteElement(path, user.Some?, role)
      ensures v.Some? && v.value.Show? && IsAdminPage(v.value.page) ==> user.Some? && role == Some("admin")
    {
      if loading then None else Some(RouteElement(path, user.Some?, role))
    }

    /**
     * The screen under the corrected table: the same as `View` except that a
     * signed-in non-admin at /admin/login is sent to "/", and every path then
     * settles on a page.
     */
    function CorrectedView(path: string): (v: Option<Element>)
      reads this
      ensures v.Some? <==> !loading
      ensures v.Some? ==> v.value == CorrectedRouteElement(path, user.Some?, role)
      ensures v != View(path) ==> !loading && MatchPath(path) == AdminLoginRoute && user.Some? && role != Some("admin")
      ensures v.Some? ==> Resolve(path, user.Some?, role, 3, true).Some?
    {
      CorrectedRoutesSettle(path, user.Some?, role);
      if loading then None else Some(CorrectedRouteElement(path, user.Some?, role))
    }
  }
}
