/** The signed-in session (src/context/AuthContext.tsx): the admin record, the
    loading flag and the bearer token kept in `localStorage`. Each transition is a
    function over `SessionState`; the `AuthProvider` class performs it in place. */
module AuthContext {
  import opened Wrappers
  import opened Storage
  import opened Api

  datatype Admin = Admin(id: int, email: string, fullName: string, role: string, isActive: bool)

  /** What `/admin/auth/login` answers on success. */
  datatype LoginResponse = LoginResponse(accessToken: string, admin: Admin)

  /** The stored token, the `admin` state and the `loading` state. */
  datatype SessionState = SessionState(token: Option<string>, admin: Option<Admin>, loading: bool)

  /** The provider's first render: no admin yet, still loading. */
  function Initial(stored: Option<string>): (s: SessionState)
    ensures s.token == stored && s.admin.None? && s.loading
  {
    SessionState(stored, None, true)
  }

  /** `fetchAdmin`, given the answer of `/admin/auth/me` (`None` when it failed):
      success records the admin, failure drops the token and keeps the admin as it
      was; either way loading ends. */
  function AfterFetch(s: SessionState, me: Option<Admin>): (t: SessionState)
    ensures !t.loading
    ensures me.Some? ==> t.admin == me && t.token == s.token
    ensures me.None? ==> t.token.None? && t.admin == s.admin
  {
    match me
    case Some(a) => SessionState(s.token, Some(a), false)
    case None => SessionState(None, s.admin, false)
  }

  /** The mount effect: with a stored token, fetch the admin; without one, stop
      loading and fetch nothing. */
  function AfterStartup(s: SessionState, me: Option<Admin>): (t: SessionState)
    ensures !t.loading
    ensures !HasToken(s.token) ==> t == s.(loading := false)
    ensures HasToken(s.token) ==> t == AfterFetch(s, me)
  {
    if HasToken(s.token) then AfterFetch(s, me) else s.(loading := false)
  }

  /** `login`'s own code: a failed request changes nothing here (a 401 has already
      gone through the interceptor, see `FailedLogin401SignsOut`); success stores
      the access token and the admin, and leaves loading alone. */
  function AfterLogin(s: SessionState, response: Option<LoginResponse>): (t: SessionState)
    ensures response.None? ==> t == s
    ensures response.Some? ==>
      t.token == Some(response.value.accessToken) && t.admin == Some(response.value.admin) && t.loading == s.loading
  {
    match response
    case None => s
    case Some(r) => SessionState(Some(r.accessToken), Some(r.admin), s.loading)
  }

  /** `logout`: no token, no admin, loading untouched. */
  function AfterLogout(s: SessionState): (t: SessionState)
    ensures t.token.None? && t.admin.None? && t.loading == s.loading
  {
    SessionState(None, None, s.loading)
  }

  /** The "unauthorized" event handler: no token, no admin, not loading. */
  function AfterUnauthorized(s: SessionState): (t: SessionState)
    ensures t == SessionState(None, None, false)
  {
    SessionState(None, None, false)
  }

  /** The session after the response interceptor has seen a failed request: a 401
      either reaches the "unauthorized" handler or, when dispatching throws, removes
      the token before the page is sent away. */
  function AfterResponseError(s: SessionState, status: Option<int>, dispatchThrows: bool, env: Option<string>): (t: SessionState)
    ensures status != Some(401) ==> t == s
    ensures status == Some(401) ==> t.token.None?
    ensures status == Some(401) && !dispatchThrows ==> t == AfterUnauthorized(s)
  {
    match ResponseErrorEffect(status, dispatchThrows, env)
    case NoEffect => s
    case DispatchUnauthorized => AfterUnauthorized(s)
    case ForcedLogin(_) => s.(token := None)
  }

  /** Logging out twice is logging out once. */
  lemma LogoutIdempotent(s: SessionState)
    ensures AfterLogout(AfterLogout(s)) == AfterLogout(s)
  {
  }

  /** A 401 on the `/admin/auth/me` request that the interceptor reports leaves a
      fully signed-out, settled session, whatever the session was. */
  lemma UnauthorizedFetchSignsOut(s: SessionState, env: Option<string>)
    ensures AfterFetch(AfterResponseError(s, Some(401), false, env), None) == SessionState(None, None, false)
  {
  }

  /** A 401 from `/admin/auth/login` (a wrong password) also passes through the
      response interceptor: `login` itself changes nothing on failure, but the
      "unauthorized" handler has already signed the session out. */
  lemma FailedLogin401SignsOut(s: SessionState, env: Option<string>)
    ensures AfterLogin(AfterResponseError(s, Some(401), false, env), None) == SessionState(None, None, false)
  {
  }

  /** So for a signed-in session, a 401 on login is not the "nothing changes" of
      `login`'s own failure path. */
  lemma FailedLogin401DiffersFromOwnFailure(s: SessionState, env: Option<string>)
    requires s.admin.Some?
    ensures AfterLogin(AfterResponseError(s, Some(401), false, env), None) != AfterLogin(s, None)
  {
    FailedLogin401SignsOut(s, env);
  }

  /** A failed refresh drops the token but keeps showing the admin already loaded. */
  lemma FailedRefreshKeepsAdmin(s: SessionState)
    requires s.admin.Some?
    ensures AfterFetch(s, None).admin == s.admin && AfterFetch(s, None).token.None?
  {
  }

  /** `useAuth`: the context value, or the error thrown outside a provider. */
  function UseAuth<T>(context: Option<T>): (r: Result<T, string>)
    ensures r.Failure? <==> context.None?
    ensures context.Some? ==> r == Success(context.value)
    ensures r.Failure? ==> r.error == "useAuth must be used within an AuthProvider"
  {
    match context
    case Some(c) => Success(c)
    case None => Failure("useAuth must be used within an AuthProvider")
  }

  /** The provider's state. The token lives in `storage`; `navigations` records the
      routes the provider navigates to. */
  class AuthProvider {
    var admin: Option<Admin>
    var loading: bool
    var navigations: seq<string>
    const storage: LocalStorage

    /** The session as the rest of the application sees it. */
    function State(): SessionState
      reads this, storage
    {
      SessionState(storage.GetItem(TokenKey), admin, loading)
    }

    /** Keys of `localStorage` other than the token's are never touched. */
    twostate predicate OtherKeysUnchanged()
      reads storage
    {
      storage.items - {TokenKey} == old(storage.items) - {TokenKey}
    }

    constructor (storage: LocalStorage)
      ensures this.storage == storage
      ensures State() == Initial(storage.GetItem(TokenKey))
      ensures navigations == []
    {
      this.storage := storage;
      admin := None;
      loading := true;
      navigations := [];
    }

    /** `fetchAdmin` with the outcome of `/admin/auth/me`. */
    method FetchAdmin(me: Option<Admin>)
      modifies this, storage
      ensures State() == AfterFetch(old(State()), me)
      ensures OtherKeysUnchanged() && navigations == old(navigations)
    {
      if me.Some? {
        admin := me;
      } else {
        storage.RemoveItem(TokenKey);
      }
      loading := false;
    }

    /** `refreshAdmin`: the same request as `fetchAdmin`. */
    method RefreshAdmin(me: Option<Admin>)
      modifies this, storage
      ensures State() == AfterFetch(old(State()), me)
      ensures OtherKeysUnchanged() && navigations == old(navigations)
    {
      FetchAdmin(me);
    }

    /** The mount effect; `fetched` tells whether `/admin/auth/me` was requested. */
    method Startup(me: Option<Admin>) returns (fetched: bool)
      modifies this, storage
      ensures fetched == HasToken(old(State()).token)
      ensures State() == AfterStartup(old(State()), me)
      ensures OtherKeysUnchanged() && navigations == old(navigations)
    {
      var token := storage.GetItem(TokenKey);
      fetched := token.Some? && token.value != "";
      if fetched {
        FetchAdmin(me);
      } else {
        loading := false;
      }
    }

    /** `login` with the outcome of `/admin/auth/login`; a failure is rethrown. */
    method Login(response: Result<LoginResponse, HttpError>) returns (thrown: Option<HttpError>)
      modifies this, storage
      ensures thrown == if response.Failure? then Some(response.error) else None
      ensures State() == AfterLogin(old(State()), if response.Success? then Some(response.value) else None)
      ensures OtherKeysUnchanged() && navigations == old(navigations)
    {
      match response {
        case Failure(e) =>
          thrown := Some(e);
        case Success(r) =>
          storage.SetItem(TokenKey, r.accessToken);
          admin := Some(r.admin);
          thrown := None;
      }
    }

    method Logout()
      modifies this, storage
      ensures State() == AfterLogout(old(State()))
      ensures OtherKeysUnchanged() && navigations == old(navigations)
    {
      storage.RemoveItem(TokenKey);
      admin := None;
    }

    /** The "unauthorized" listener: sign out and navigate to the login page. */
    method HandleUnauthorized()
      modifies this, storage
      ensures State() == AfterUnauthorized(old(State()))
      ensures OtherKeysUnchanged() && navigations == old(navigations) + ["/login"]
    {
      storage.RemoveItem(TokenKey);
      admin := None;
      loading := false;
      navigations := navigations + ["/login"];
    }
  }
}
