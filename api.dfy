/** The shared HTTP client (src/lib/api.ts): the application's base path, the API
    base URL, and the request and response interceptors. */
module Api {
  import opened Wrappers
  import opened Text
  import opened Storage
  import opened JsonValue

  /** The base path the console is served under when none is configured. */
  const DefaultAdminBasename := "/__admin_portal_93c2f7"

  /** `String(input || "").trim()` of a build-time setting that may be unset. */
  function SettingText(input: Option<string>): (r: string)
    ensures r == "" <==> AllWhitespace(input.GetOr(""))
    ensures r != "" ==> !IsWhitespace(r[0]) && !IsWhitespace(r[|r| - 1])
    ensures input.None? ==> r == ""
  {
    TrimEmptyIffAllWhitespace(input.GetOr(""));
    Trim(input.GetOr(""))
  }

  predicate StartsWithSlash(s: string) { s != [] && s[0] == '/' }

  predicate EndsWithSlash(s: string) { s != [] && s[|s| - 1] == '/' }

  /** `raw.startsWith("/") ? raw : "/" + raw`. */
  function WithLeadingSlash(raw: string): (r: string)
    ensures StartsWithSlash(r)
    ensures StartsWithSlash(raw) ==> r == raw
    ensures !StartsWithSlash(raw) ==> r == "/" + raw
  {
    if StartsWithSlash(raw) then raw else "/" + raw
  }

  /** `s.replace(/\/$/, "")`: one trailing slash, if there is one, is removed. */
  function StripTrailingSlash(s: string): (r: string)
    ensures EndsWithSlash(s) ==> r + "/" == s
    ensures !EndsWithSlash(s) ==> r == s
  {
    if EndsWithSlash(s) then s[..|s| - 1] else s
  }

  /** `normalizeBasename`: a blank setting gives "", anything else gets a leading
      slash and loses exactly one trailing slash. */
  function NormalizeBasename(input: Option<string>): (r: string)
    ensures r == "" <==> SettingText(input) == "" || SettingText(input) == "/"
    ensures r != "" ==> StartsWithSlash(r)
    ensures SettingText(input) != "" ==>
      var w := WithLeadingSlash(SettingText(input));
      (EndsWithSlash(w) ==> r + "/" == w) && (!EndsWithSlash(w) ==> r == w)
  {
    var raw := SettingText(input);
    if raw == "" then "" else StripTrailingSlash(WithLeadingSlash(raw))
  }

  /** A blank or unset setting, or one that is only a slash, normalises to "". */
  lemma NormalizeBasenameEmptyCases()
    ensures NormalizeBasename(None) == ""
    ensures NormalizeBasename(Some("  ")) == ""
    ensures NormalizeBasename(Some("/")) == ""
  {
    TrimEmptyIffAllWhitespace("  ");
    TrimNoop("/");
  }

  /** A missing leading slash is added and one trailing slash is removed. */
  lemma NormalizeBasenameAddsLeadingSlash()
    ensures NormalizeBasename(Some("admin/")) == "/admin"
  {
    var raw := SettingText(Some("admin/"));
    assert raw == "admin/" by { TrimNoop("admin/"); }
    var w := WithLeadingSlash(raw);
    assert w == "/admin/";
    assert StripTrailingSlash(w) == "/admin";
  }

  /** Surrounding whitespace is trimmed first. */
  lemma NormalizeBasenameTrims()
    ensures NormalizeBasename(Some(" /admin ")) == "/admin"
  {
    assert TrimStart(" /admin ") == TrimStart("/admin ") == "/admin ";
    assert TrimEnd("/admin ") == TrimEnd("/admin") == "/admin";
  }

  /** Only one trailing slash is removed. */
  lemma NormalizeBasenameStripsOneSlash()
    ensures NormalizeBasename(Some("/admin//")) == "/admin/"
  {
    var raw := SettingText(Some("/admin//"));
    assert raw == "/admin//" by { TrimNoop("/admin//"); }
    var w := WithLeadingSlash(raw);
    assert w == "/admin//";
    assert StripTrailingSlash(w) == "/admin/";
  }

  /** `ADMIN_BASENAME`: the normalised setting, or the default when that is empty. */
  function AdminBasename(env: Option<string>): (r: string)
    ensures StartsWithSlash(r)
    ensures NormalizeBasename(env) != "" ==> r == NormalizeBasename(env)
    ensures NormalizeBasename(env) == "" ==> r == DefaultAdminBasename
  {
    var n := NormalizeBasename(env);
    if n != "" then n else DefaultAdminBasename
  }

  /** `DEFAULT_API_BASE`: the local development server, or `/api` on the page's own
      origin (`window.location.origin`, a parameter here). */
  function DefaultApiBase(dev: bool, origin: string): (r: string)
    ensures |r| >= 4 && r[|r| - 4..] == "/api"
    ensures !dev ==> |r| == |origin| + 4 && r[..|origin|] == origin
  {
    if dev then "http://localhost:3001/api" else origin + "/api"
  }

  /** `API_BASE`: the configured API URL (not trimmed; only the empty string counts
      as unset) or the default, with one trailing slash removed. */
  function ApiBase(apiUrl: Option<string>, dev: bool, origin: string): (r: string)
    ensures var source := if apiUrl.Some? && apiUrl.value != "" then apiUrl.value else DefaultApiBase(dev, origin);
      (EndsWithSlash(source) ==> r + "/" == source) && (!EndsWithSlash(source) ==> r == source)
    ensures (apiUrl.None? || apiUrl == Some("")) && dev ==> r == "http://localhost:3001/api"
  {
    var source := if apiUrl.Some? && apiUrl.value != "" then apiUrl.value else DefaultApiBase(dev, origin);
    StripTrailingSlash(source)
  }

  /** `if (token)` on a value read from `localStorage`: present and not empty. */
  predicate HasToken(token: Option<string>)
    ensures HasToken(token) <==> token.Some? && Truthy(JStr(token.value))
  {
    token.Some? && token.value != ""
  }

  /** The headers after the request interceptor: an Authorization header carrying
      the bearer token when there is one, and nothing changed otherwise. */
  function WithBearer(headers: map<string, string>, token: Option<string>): (r: map<string, string>)
    ensures HasToken(token) ==> r.Keys == headers.Keys + {"Authorization"}
    ensures HasToken(token) ==> r["Authorization"] == "Bearer " + token.value
    ensures forall k :: k in headers && k != "Authorization" ==> k in r && r[k] == headers[k]
    ensures !HasToken(token) ==> r == headers
  {
    if HasToken(token) then headers["Authorization" := "Bearer " + token.value] else headers
  }

  /** An outgoing request's configuration, whose headers the interceptor edits in place. */
  class RequestConfig {
    var headers: map<string, string>

    constructor (headers: map<string, string>)
      ensures this.headers == headers
    {
      this.headers := headers;
    }
  }

  /** The request interceptor: reads the stored token and sets the header on `config`. */
  method AttachToken(config: RequestConfig, storage: LocalStorage)
    modifies config
    ensures config.headers == WithBearer(old(config.headers), storage.GetItem(TokenKey))
  {
    var token := storage.GetItem(TokenKey);
    if token.Some? && token.value != "" {
      config.headers := config.headers["Authorization" := "Bearer " + token.value];
    }
  }

  /** A failed response: its HTTP status, `undefined` when no response arrived. */
  datatype HttpError = HttpError(status: Option<int>, detail: Option<string>)

  /** What the response interceptor does besides re-rejecting the error. */
  datatype ErrorEffect =
    | NoEffect
      /** The "unauthorized" window event was dispatched. */
    | DispatchUnauthorized
      /** Dispatching threw: the token was removed and the page sent to `href`. */
    | ForcedLogin(href: string)

  /** Only a 401 has an effect; it dispatches "unauthorized", or, where dispatching
      throws, falls back to a hard redirect to the login page under ADMIN_BASENAME. */
  function ResponseErrorEffect(status: Option<int>, dispatchThrows: bool, env: Option<string>): (e: ErrorEffect)
    ensures e != NoEffect <==> status == Some(401)
    ensures e.DispatchUnauthorized? <==> status == Some(401) && !dispatchThrows
    ensures e.ForcedLogin? ==> e.href == AdminBasename(env) + "/login" && StartsWithSlash(e.href)
  {
    if status == Some(401) then
      if dispatchThrows then ForcedLogin(AdminBasename(env) + "/login") else DispatchUnauthorized
    else NoEffect
  }

  /** The response interceptor's error path. The error is always rejected again,
      unchanged; only the fallback of a 401 touches the token store. */
  method OnResponseError(storage: LocalStorage, error: HttpError, dispatchThrows: bool, env: Option<string>)
    returns (effect: ErrorEffect, rejected: HttpError)
    modifies storage
    ensures effect == ResponseErrorEffect(error.status, dispatchThrows, env)
    ensures rejected == error
    ensures storage.items == if effect.ForcedLogin? then old(storage.items) - {TokenKey} else old(storage.items)
  {
    effect := NoEffect;
    if error.status == Some(401) {
      if dispatchThrows {
        storage.RemoveItem(TokenKey);
        effect := ForcedLogin(AdminBasename(env) + "/login");
      } else {
        effect := DispatchUnauthorized;
      }
    }
    rejected := error;
  }
}
