/** The router shell (src/App.tsx): the guard in front of every page but the login
    page, and the router's base path. */
module App {
  import opened Wrappers
  import opened Api
  import opened AuthContext

  /** What `ProtectedRoute` renders. */
  datatype RouteView = Spinner | RedirectToLogin | Children

  /** `ProtectedRoute`: a spinner while the session loads, then the login page
      without an admin and the protected pages with one. */
  function ProtectedRoute(admin: Option<Admin>, loading: bool): (v: RouteView)
    ensures v == Spinner <==> loading
    ensures v == RedirectToLogin <==> !loading && admin.None?
    ensures v == Children <==> !loading && admin.Some?
  {
    if loading then Spinner else if admin.None? then RedirectToLogin else Children
  }

  /** The guard's decision over a session. */
  function Guard(s: SessionState): (v: RouteView)
    ensures v == Children <==> !s.loading && s.admin.Some?
    ensures s.loading ==> v == Spinner
  {
    ProtectedRoute(s.admin, s.loading)
  }

  /** The router `basename`: the raw setting when it is not empty, otherwise the
      default; unlike ADMIN_BASENAME nothing is trimmed or normalised. */
  function RouterBasename(env: Option<string>): (r: string)
    ensures r != ""
    ensures env.Some? && env.value != "" ==> r == env.value
    ensures env.None? || env == Some("") ==> r == DefaultAdminBasename
  {
    if env.Some? && env.value != "" then env.value else DefaultAdminBasename
  }

  /** The router and the API client agree on the base path when the setting is
      unset, empty or already in normal form. */
  lemma RouterAgreesWhenNormal(env: Option<string>)
    requires env.None? || env == Some("") || (env.value != "" && NormalizeBasename(env) == env.value)
    ensures RouterBasename(env) == AdminBasename(env)
  {
    if env.None? || env == Some("") {
      assert SettingText(env) == "";
    }
  }

  /** They disagree on a setting without its leading slash or with a trailing one. */
  lemma RouterDisagreesOnUnnormalised()
    ensures RouterBasename(Some("admin/")) == "admin/"
    ensures AdminBasename(Some("admin/")) == "/admin"
  {
    NormalizeBasenameAddsLeadingSlash();
  }

  /** A session that has never loaded shows the spinner, whatever is stored. */
  lemma InitialShowsSpinner(stored: Option<string>)
    ensures Guard(Initial(stored)) == Spinner
  {
  }

  /** Without a stored token the first decision after mounting is the login page. */
  lemma StartupWithoutTokenRedirects(stored: Option<string>, me: Option<Admin>)
    requires !HasToken(stored)
    ensures Guard(AfterStartup(Initial(stored), me)) == RedirectToLogin
  {
  }

  /** With a stored token the protected pages appear exactly when the admin was fetched. */
  lemma StartupWithToken(stored: Option<string>, me: Option<Admin>)
    requires HasToken(stored)
    ensures Guard(AfterStartup(Initial(stored), me)) == (if me.Some? then Children else RedirectToLogin)
  {
  }

  /** After the "unauthorized" event the guard always sends the operator to log in. */
  lemma UnauthorizedRedirects(s: SessionState)
    ensures Guard(AfterUnauthorized(s)) == RedirectToLogin
  {
  }

  /** After logging out, once loading has settled, the guard sends the operator to log in. */
  lemma LogoutRedirects(s: SessionState)
    requires !s.loading
    ensures Guard(AfterLogout(s)) == RedirectToLogin
  {
  }

  /** A successful login on a settled session opens the protected pages. */
  lemma LoginOpensPages(s: SessionState, r: LoginResponse)
    requires !s.loading
    ensures Guard(AfterLogin(s, Some(r))) == Children
  {
  }
}
