/**
 * AuthProvider (src/components/forms/AuthContext.jsx): the user state of the
 * session, kept in step with the "user" storage key.
 */
module AuthContext {
  import opened Wrappers
  import opened JsValues
  import opened Http
  import Json
  import WebStorage
  import LoginApi
  import AxiosCustom

  /** What the provider and the browser hold together. */
  datatype AuthState = AuthState(storage: map<string, string>, location: string, user: JsValue)

  /**
   * The mount effect. A stored, non-empty "user" is parsed into the state
   * (JSON.parse throws on malformed text, and the effect then changes nothing);
   * otherwise the router goes to the login page.
   */
  function MountStep(s: AuthState): (r: Result<AuthState, Error>)
    ensures r.Failure? ==> r.error.SyntaxError?
    ensures r.Success? ==> r.value.storage == s.storage
  {
    match WebStorage.Item(s.storage, WebStorage.UserKey)
    case None => Success(s.(location := WebStorage.LoginPath))
    case Some(text) =>
      if text == "" then Success(s.(location := WebStorage.LoginPath))
      else
        match Json.Parse(text)
        case Success(u) => Success(s.(user := u))
        case Failure(m) => Failure(SyntaxError(m))
  }

  /** localStorage.setItem("user", JSON.stringify(u)): setItem stores String(undefined) as "undefined". */
  function StoredText(u: JsValue): string {
    match Json.Stringify(u)
    case Some(t) => t
    case None => "undefined"
  }

  function LoginStep(s: AuthState, u: JsValue): AuthState {
    AuthState(s.storage[WebStorage.UserKey := StoredText(u)], s.location, u)
  }

  function LogoutStep(s: AuthState): AuthState {
    AuthState(s.storage - {WebStorage.UserKey}, WebStorage.LoginPath, Null)
  }

  class AuthProvider {
    var user: JsValue
    const browser: WebStorage.Browser

    function State(): AuthState
      reads this, browser
    {
      AuthState(browser.storage, browser.location, user)
    }

    /** useState(null) */
    constructor (browser: WebStorage.Browser)
      ensures user == Null && this.browser == browser
    {
      user := Null;
      this.browser := browser;
    }

    method Mount() returns (thrown: Option<Error>)
      modifies this, browser
      ensures MountStep(old(State())).Failure? ==> thrown == Some(MountStep(old(State())).error) && State() == old(State())
      ensures MountStep(old(State())).Success? ==> thrown.None? && State() == MountStep(old(State())).value
    {
      var stored := browser.GetItem(WebStorage.UserKey);
      if stored.Some? && stored.value != "" {
        var parsed := Json.Parse(stored.value);
        if parsed.Failure? {
          return Some(SyntaxError(parsed.error));
        }
        user := parsed.value;
      } else {
        browser.Navigate(WebStorage.LoginPath);
      }
      thrown := None;
    }

    method Login(u: JsValue)
      modifies this, browser
      ensures State() == LoginStep(old(State()), u)
    {
      browser.SetItem(WebStorage.UserKey, StoredText(u));
      user := u;
    }

    method Logout()
      modifies this, browser
      ensures State() == LogoutStep(old(State()))
    {
      browser.RemoveItem(WebStorage.UserKey);
      user := Null;
      browser.Navigate(WebStorage.LoginPath);
    }
  }

  // ---------------------------------------------------------------- properties

  /** Without a stored user the provider stays logged out and goes to the login page. */
  lemma MountWithoutUser(s: AuthState)
    requires WebStorage.UserKey !in s.storage || s.storage[WebStorage.UserKey] == ""
    ensures MountStep(s) == Success(AuthState(s.storage, WebStorage.LoginPath, s.user))
  {
  }

  /** The mount effect and loginApi.getUser read the same user, or fail alike. */
  lemma MountAgreesWithGetUser(s: AuthState)
    requires WebStorage.UserKey in s.storage && s.storage[WebStorage.UserKey] != ""
    ensures LoginApi.GetUser(s.storage).Success? ==> MountStep(s) == Success(s.(user := LoginApi.GetUser(s.storage).value))
    ensures LoginApi.GetUser(s.storage).Failure? ==> MountStep(s) == Failure(LoginApi.GetUser(s.storage).error)
  {
  }

  /** login(u) stores u so that getUser gives it back. */
  lemma LoginThenGetUser(s: AuthState, u: JsValue)
    requires Json.Serializable(u)
    ensures LoginApi.GetUser(LoginStep(s, u).storage) == Success(u)
    ensures LoginStep(s, u).user == u
  {
    LoginApi.GetUserAfterStringify(s.storage, u);
  }

  /** After login(u) and a reload, the mount effect restores u. */
  lemma LoginThenReload(s: AuthState, u: JsValue, location: string)
    requires Json.Serializable(u)
    ensures MountStep(AuthState(LoginStep(s, u).storage, location, Null)) == Success(AuthState(LoginStep(s, u).storage, location, u))
  {
    Json.ParseStringify(u);
  }

  /** login(u) writes "user" and nothing else. */
  lemma LoginTouchesOnlyUser(s: AuthState, u: JsValue, k: string)
    requires k != WebStorage.UserKey
    ensures k in LoginStep(s, u).storage <==> k in s.storage
    ensures k in s.storage ==> LoginStep(s, u).storage[k] == s.storage[k]
    ensures LoginStep(s, u).location == s.location
  {
  }

  /** Logging out twice is the same as logging out once. */
  lemma LogoutIdempotent(s: AuthState)
    ensures LogoutStep(LogoutStep(s)) == LogoutStep(s)
  {
  }

  /** login(u) then logout() leaves no "user", the other keys as they were, and a null user. */
  lemma LoginThenLogout(s: AuthState, u: JsValue)
    ensures LogoutStep(LoginStep(s, u)) == LogoutStep(s)
    ensures WebStorage.UserKey !in LogoutStep(LoginStep(s, u)).storage
    ensures forall k :: k in s.storage && k != WebStorage.UserKey ==> k in LogoutStep(LoginStep(s, u)).storage && LogoutStep(LoginStep(s, u)).storage[k] == s.storage[k]
  {
    assert LoginStep(s, u).storage - {WebStorage.UserKey} == s.storage - {WebStorage.UserKey};
  }

  /** After logout every request fails in the request interceptor. */
  lemma LogoutThenLockedOut(s: AuthState)
    ensures AxiosCustom.SessionToken(LogoutStep(s).storage).Failure?
    ensures AxiosCustom.SessionToken(LogoutStep(s).storage).error.TypeError?
  {
  }

  /** A logged-in user object with a truthy token authorizes the requests that follow. */
  lemma LoginAuthorizes(s: AuthState, props: seq<Prop>, token: JsValue)
    requires Json.Serializable(Obj(props)) && Lookup(props, "token") == Some(token) && Truthy(token)
    ensures AxiosCustom.SessionToken(LoginStep(s, Obj(props)).storage) == Success(token)
  {
    LoginThenGetUser(s, Obj(props));
  }
}
