/**
 * The client-side route dispatcher: the body of the effect in `AppContent`
 * (app.jsx:45-273). Given the current path and the four authentication flags
 * the effect depends on, it either shows the loading placeholder, schedules
 * exactly one redirect, or renders one view, with or without the shared
 * page chrome (`MainLayout`). The deferred `window.location.replace` is the
 * `Redirect` outcome; an exception raised while the view elements are built
 * is the `viewThrows` input.
 */
module Routing {
  import opened JsValues

  /** The top-level views the dispatcher can mount. */
  datatype View =
    | HomePage
    | FindFoodPage(initialCategory: Option<string>)
    | NearMePage
    | Blog
    | SuccessPage
    | HowItWorks
    | TermsOfService
    | PrivacyPolicy
    | CookiesPolicy
    | LoginPage
    | SignupPage
    | ProfilePage
    | UserDashboard
    | ShareFoodPage
    | ClaimFoodForm
    | CommunityPage
    | UserSettings
    | NotificationsPage
    | UserListings
    | PageNotFound
    | AdminLogin
    | AdminDashboard
    | UserManagement
    | ContentModeration
    | FoodDistributionManagement
    | AdminReports
    | AdminSettings
    | AdminProfile
    | DistributionAttendees
    | AdminPageNotFound

  /** Whether a rendered view is wrapped in `MainLayout`. */
  datatype Chrome = Bare | WithMainLayout

  /** What one evaluation of the effect produces. */
  datatype Outcome =
    | LoadingPlaceholder
    | Redirect(target: string)
    | Render(view: View, chrome: Chrome)
    | ErrorPlaceholder

  /** The values of the authentication context the effect reads. */
  datatype AuthFlags = AuthFlags(isAuthenticated: bool, isAdmin: bool, loading: bool, initialized: bool)

  const AdminLoginPath := "/admin/login"

  /** Paths that require a signed-in user. */
  const ProtectedRoutes: seq<string> :=
    ["/profile", "/share", "/community", "/settings", "/notifications", "/dashboard", "/listings"]

  /** The exact-match admin table, `/admin/login` included. */
  const AdminTable: map<string, View> := map[
    "/admin/login" := AdminLogin,
    "/admin" := AdminDashboard,
    "/admin/users" := UserManagement,
    "/admin/content" := ContentModeration,
    "/admin/distribution" := FoodDistributionManagement,
    "/admin/reports" := AdminReports,
    "/admin/settings" := AdminSettings,
    "/admin/profile" := AdminProfile
  ]

  /** The exact-match table for every other path. */
  const PublicTable: map<string, View> := map[
    "/" := HomePage,
    "/find" := FindFoodPage(None),
    "/near-me" := NearMePage,
    "/blog" := Blog,
    "/success" := SuccessPage,
    "/how-it-works" := HowItWorks,
    "/terms" := TermsOfService,
    "/privacy" := PrivacyPolicy,
    "/cookies" := CookiesPolicy,
    "/login" := LoginPage,
    "/signup" := SignupPage,
    "/forgot-password" := SignupPage,
    "/profile" := ProfilePage,
    "/dashboard" := UserDashboard,
    "/share" := ShareFoodPage,
    "/claim" := ClaimFoodForm,
    "/community" := CommunityPage,
    "/settings" := UserSettings,
    "/notifications" := NotificationsPage,
    "/listings" := UserListings
  ]

  /** The public paths that are returned without `MainLayout`. */
  const AuthPages: set<string> := {"/login", "/signup", "/forgot-password"}

  /** `path.startsWith('/admin')`: a prefix test, so `/administration` is one too. */
  predicate IsAdminRoute(path: string)
  {
    "/admin" <= path
  }

  // ---------------------------------------------------------------------
  // The unanchored pattern /\/admin\/distribution\/\d+\/attendees/
  // ---------------------------------------------------------------------

  const AttendeesHead := "/admin/distribution/"
  const AttendeesTail := "/attendees"

  ghost predicate AllDigits(s: string)
  {
    forall k :: 0 <= k < |s| ==> IsDigit(s[k])
  }

  /** The pattern occurs in `path` with its digits at positions [i+20, j). */
  ghost predicate AttendeesOccursAt(path: string, i: int, j: int)
  {
    && 0 <= i
    && i + |AttendeesHead| < j
    && j + |AttendeesTail| <= |path|
    && path[i..i + |AttendeesHead|] == AttendeesHead
    && AllDigits(path[i + |AttendeesHead|..j])
    && path[j..j + |AttendeesTail|] == AttendeesTail
  }

  /** The language of the pattern, as a reference definition: it occurs anywhere. */
  ghost predicate MatchesAttendees(path: string)
  {
    exists i, j :: AttendeesOccursAt(path, i, j)
  }

  /** Length of the longest run of digits starting at `p`. */
  function DigitRun(s: string, p: nat): (n: nat)
    requires p <= |s|
    ensures p + n <= |s|
    ensures AllDigits(s[p..p + n])
    ensures p + n < |s| ==> !IsDigit(s[p + n])
    decreases |s| - p
  {
    if p < |s| && IsDigit(s[p]) then
      var m := DigitRun(s, p + 1);
      assert s[p..p + 1 + m] == [s[p]] + s[p + 1..p + 1 + m];
      1 + m
    else 0
  }

  /** Does the pattern match starting exactly at `i`? */
  predicate AttendeesMatchAt(path: string, i: nat)
    requires i <= |path|
  {
    && AttendeesHead <= path[i..]
    && var p := i + |AttendeesHead|;
       var n := DigitRun(path, p);
       && n > 0
       && AttendeesTail <= path[p + n..]
  }

  lemma AttendeesMatchAtIsOccurrence(path: string, i: nat)
    requires i <= |path|
    ensures AttendeesMatchAt(path, i) <==> exists j :: AttendeesOccursAt(path, i, j)
  {
    var p := i + |AttendeesHead|;
    if AttendeesMatchAt(path, i) {
      var n := DigitRun(path, p);
      assert path[p + n..][..|AttendeesTail|] == path[p + n..p + n + |AttendeesTail|];
      assert path[i..][..|AttendeesHead|] == path[i..p];
      assert AttendeesOccursAt(path, i, p + n);
    }
    if j :| AttendeesOccursAt(path, i, j) {
      assert path[i..][..|AttendeesHead|] == path[i..p];
      var n := DigitRun(path, p);
      // the digits of the occurrence and the maximal run end at the same place
      if j < p + n {
        assert path[p..p + n][j - p] == path[j];
        assert path[j] == AttendeesTail[0];
      }
      assert path[p + n..][..|AttendeesTail|] == path[j..j + |AttendeesTail|];
    }
  }

  /** A left-to-right search for the pattern, as `String.prototype.match` does. */
  function FindAttendees(path: string, from: nat): (found: bool)
    requires from <= |path|
    ensures found <==> exists i, j :: from <= i && AttendeesOccursAt(path, i, j)
    decreases |path| - from
  {
    AttendeesMatchAtIsOccurrence(path, from);
    AttendeesMatchAt(path, from) || (from < |path| && FindAttendees(path, from + 1))
  }

  // ---------------------------------------------------------------------
  // The anchored pattern /^\/find\/category\/([a-zA-Z-]+)$/
  // ---------------------------------------------------------------------

  const CategoryPrefix := "/find/category/"

  predicate IsCategoryChar(c: char)
  {
    ('a' <= c <= 'z') || ('A' <= c <= 'Z') || c == '-'
  }

  /** A segment the capture group accepts. */
  ghost predicate IsCategorySegment(s: string)
  {
    |s| > 0 && forall k :: 0 <= k < |s| ==> IsCategoryChar(s[k])
  }

  /** Are all characters from `k` on accepted by `[a-zA-Z-]`? */
  function CategoryCharsFrom(s: string, k: nat): (ok: bool)
    requires k <= |s|
    ensures ok <==> forall m :: k <= m < |s| ==> IsCategoryChar(s[m])
    decreases |s| - k
  {
    k == |s| || (IsCategoryChar(s[k]) && CategoryCharsFrom(s, k + 1))
  }

  /** The match of the pattern and its captured segment. */
  function CategoryMatch(path: string): (m: Option<string>)
    ensures m.Some? <==> exists c :: IsCategorySegment(c) && path == CategoryPrefix + c
    ensures m.Some? ==> IsCategorySegment(m.value) && path == CategoryPrefix + m.value
  {
    if CategoryPrefix <= path && |path| > |CategoryPrefix| then
      var c := path[|CategoryPrefix|..];
      assert path == CategoryPrefix + c;
      if CategoryCharsFrom(c, 0) then Some(c)
      else
        assert forall c' :: path == CategoryPrefix + c' ==> c' == c;
        None
    else
      assert forall c' :: IsCategorySegment(c') ==> |CategoryPrefix + c'| > |CategoryPrefix|;
      assert forall c' :: CategoryPrefix <= CategoryPrefix + c';
      None
  }

  // ---------------------------------------------------------------------
  // The dispatcher
  // ---------------------------------------------------------------------

  /** The three redirect guards, tried in order; the first that fires wins. */
  function Guard(path: string, isAuthenticated: bool, isAdmin: bool): Option<string>
  {
    if IsAdminRoute(path) && !isAdmin && path != AdminLoginPath then Some(AdminLoginPath)
    else if path in ProtectedRoutes && !isAuthenticated then Some("/login")
    else if (path == "/login" || path == "/signup") && isAuthenticated then
      Some(if isAdmin then "/admin" else "/dashboard")
    else None
  }

  /** View selection under `/admin`. */
  function AdminView(path: string): View
  {
    if path in AdminTable then AdminTable[path]
    else if FindAttendees(path, 0) then DistributionAttendees
    else AdminPageNotFound
  }

  /** View selection for every path outside `/admin`. */
  function PublicPage(path: string): Outcome
  {
    if path in PublicTable then
      Render(PublicTable[path], if path in AuthPages then Bare else WithMainLayout)
    else
      match CategoryMatch(path)
      case Some(c) => Render(FindFoodPage(Some(c)), WithMainLayout)
      case None => Render(PageNotFound, WithMainLayout)
  }

  /** `renderPage()` */
  function RenderPage(path: string): Outcome
  {
    if IsAdminRoute(path) then Render(AdminView(path), Bare) else PublicPage(path)
  }

  /** One evaluation of the effect. */
  function Dispatch(path: string, flags: AuthFlags, viewThrows: bool): Outcome
  {
    if !flags.initialized || flags.loading then LoadingPlaceholder
    else
      match Guard(path, flags.isAuthenticated, flags.isAdmin)
      case Some(target) => Redirect(target)
      case None => if viewThrows then ErrorPlaceholder else RenderPage(path)
  }

  predicate Ready(flags: AuthFlags)
  {
    flags.initialized && !flags.loading
  }

  // ---------------------------------------------------------------------
  // Properties
  // ---------------------------------------------------------------------

  /** While the authentication context is not ready nothing else happens. */
  lemma LoadingWhileNotReady(path: string, flags: AuthFlags, viewThrows: bool)
    requires !Ready(flags)
    ensures Dispatch(path, flags, viewThrows) == LoadingPlaceholder
  {
  }

  /** A redirect is scheduled exactly when one of the three guards fires. */
  lemma RedirectIffGuardFires(path: string, flags: AuthFlags, viewThrows: bool)
    ensures Dispatch(path, flags, viewThrows).Redirect? <==>
      Ready(flags) &&
      ( (IsAdminRoute(path) && !flags.isAdmin && path != AdminLoginPath)
        || (path in ProtectedRoutes && !flags.isAuthenticated)
        || ((path == "/login" || path == "/signup") && flags.isAuthenticated))
  {
  }

  lemma ProtectedRoutesAreNotAdmin(path: string)
    requires path in ProtectedRoutes
    ensures !IsAdminRoute(path) && path in PublicTable && path !in AuthPages
  {
    assert path in {"/profile", "/share", "/community", "/settings", "/notifications", "/dashboard", "/listings"};
    assert path[1] != 'a';
    assert "/admin"[1] == 'a';
  }

  /** A non-admin session anywhere under the `/admin` prefix, except the admin
      login page, is sent to the admin login page; the prefix test also
      catches paths such as `/administration`. */
  lemma NonAdminSentToAdminLogin(path: string, flags: AuthFlags, viewThrows: bool)
    requires Ready(flags) && !flags.isAdmin
    requires IsAdminRoute(path) && path != AdminLoginPath
    ensures Dispatch(path, flags, viewThrows) == Redirect(AdminLoginPath)
    ensures Dispatch("/administration", flags, viewThrows) == Redirect(AdminLoginPath)
  {
    assert IsAdminRoute("/administration");
  }

  /** The redirect to `/login` happens exactly on the protected paths when
      nobody is signed in; `/claim`, for one, is never redirected. */
  lemma LoginRedirectOnlyForProtected(path: string, flags: AuthFlags, viewThrows: bool)
    ensures Dispatch(path, flags, viewThrows) == Redirect("/login") <==>
      Ready(flags) && path in ProtectedRoutes && !flags.isAuthenticated
    ensures Dispatch("/claim", flags, viewThrows) != Redirect("/login")
  {
    if path in ProtectedRoutes {
      ProtectedRoutesAreNotAdmin(path);
    }
  }

  /** A signed-in user on the login or signup page goes home. */
  lemma SignedInLeavesAuthPages(path: string, flags: AuthFlags, viewThrows: bool)
    requires Ready(flags) && flags.isAuthenticated
    requires path == "/login" || path == "/signup"
    ensures Dispatch(path, flags, viewThrows) ==
      Redirect(if flags.isAdmin then "/admin" else "/dashboard")
  {
    assert path[1] != "/admin"[1];
    assert path !in ProtectedRoutes;
  }

  /** With no guard firing, an admin path renders its admin view, bare. */
  lemma AdminPathsRenderAdminViews(path: string, flags: AuthFlags)
    requires Ready(flags) && IsAdminRoute(path)
    requires flags.isAdmin || path == AdminLoginPath
    ensures Dispatch(path, flags, false) == Render(AdminView(path), Bare)
    ensures path in AdminTable ==> AdminView(path) == AdminTable[path]
    ensures path !in AdminTable ==>
      (AdminView(path) == DistributionAttendees <==> MatchesAttendees(path))
    ensures path !in AdminTable ==>
      (AdminView(path) == AdminPageNotFound <==> !MatchesAttendees(path))
  {
    if path in ProtectedRoutes {
      ProtectedRoutesAreNotAdmin(path);
    }
    assert path[1] == 'a';
  }

  /** The admin login page is reachable whatever the session. */
  lemma AdminLoginAlwaysRenders(flags: AuthFlags)
    requires Ready(flags)
    ensures Dispatch(AdminLoginPath, flags, false) == Render(AdminLogin, Bare)
  {
  }

  /** The attendees pattern is unanchored: anything may follow it. */
  lemma AttendeesPatternUnanchored(id: string, rest: string)
    requires |id| > 0 && AllDigits(id)
    ensures MatchesAttendees(AttendeesHead + id + AttendeesTail + rest)
  {
    var path := AttendeesHead + id + AttendeesTail + rest;
    var j := |AttendeesHead| + |id|;
    assert path[0..|AttendeesHead|] == AttendeesHead;
    assert path[|AttendeesHead|..j] == id;
    assert path[j..j + |AttendeesTail|] == AttendeesTail;
    assert AttendeesOccursAt(path, 0, j);
  }

  /** `/find/category/<segment>` renders the find page filtered by the segment. */
  lemma CategoryPathRendersFind(c: string, flags: AuthFlags)
    requires Ready(flags) && IsCategorySegment(c)
    ensures Dispatch(CategoryPrefix + c, flags, false) == Render(FindFoodPage(Some(c)), WithMainLayout)
  {
    var path := CategoryPrefix + c;
    assert path[1] == 'f';
    assert !IsAdminRoute(path) by { assert "/admin"[1] == 'a'; }
    assert path !in PublicTable by {
      assert |path| >= 16;
      assert path[..16] != "/forgot-password"[..16] by { assert path[2] == 'i'; }
    }
    assert path !in ProtectedRoutes;
  }

  /** Conversely, a category view comes only from a path of that shape. */
  lemma CategoryViewOnlyFromPattern(path: string, flags: AuthFlags, viewThrows: bool, c: string, chrome: Chrome)
    requires Dispatch(path, flags, viewThrows) == Render(FindFoodPage(Some(c)), chrome)
    ensures path == CategoryPrefix + c && IsCategorySegment(c) && chrome == WithMainLayout
  {
  }

  /** Any other unmatched public path renders the public 404 page in the chrome. */
  lemma UnmatchedPublicPathIsNotFound(path: string, flags: AuthFlags)
    requires Ready(flags) && !IsAdminRoute(path) && path !in PublicTable
    requires !exists c :: IsCategorySegment(c) && path == CategoryPrefix + c
    ensures Dispatch(path, flags, false) == Render(PageNotFound, WithMainLayout)
  {
  }

  /** Outside `/admin`, a view is bare exactly on the three authentication pages. */
  lemma PublicChrome(path: string)
    requires !IsAdminRoute(path)
    ensures RenderPage(path).Render?
    ensures RenderPage(path).chrome == Bare <==> path in AuthPages
  {
  }

  /** An exception while the view is built yields the error placeholder. */
  lemma ViewFailureIsContained(path: string, flags: AuthFlags)
    requires Ready(flags) && Guard(path, flags.isAuthenticated, flags.isAdmin).None?
    ensures Dispatch(path, flags, true) == ErrorPlaceholder
  {
  }
}
