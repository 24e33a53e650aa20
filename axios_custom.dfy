/**
 * The shared axios instance (src/libs/axios-custom.js): a request interceptor
 * that adds the stored user's bearer token, a response interceptor that ends
 * the session on 401, and the "authToken" helpers.
 *
 * The bearer header follows section 2.1 of RFC 6750: "Authorization: Bearer <token>".
 */
module AxiosCustom {
  import opened Wrappers
  import opened JsValues
  import opened Http
  import WebStorage
  import LoginApi

  const AuthorizationHeader := "Authorization"

  /** The request config the interceptors see; the request interceptor edits its headers in place. */
  class RequestConfig {
    var verb: Verb
    var baseUrl: string
    var url: string
    var params: JsValue
    var data: JsValue
    var headers: map<string, string>

    constructor (call: Call)
      ensures verb == call.verb && baseUrl == BaseUrl && url == call.path
      ensures params == call.params && data == call.body && headers == map[]
    {
      verb := call.verb;
      baseUrl := BaseUrl;
      url := call.path;
      params := call.params;
      data := call.body;
      headers := map[];
    }
  }

  /** A request as it leaves the client. */
  datatype Request = Request(verb: Verb, url: string, params: JsValue, data: JsValue, headers: map<string, string>)

  /** loginApi.getUser().token, which throws a TypeError when no user is stored. */
  function SessionToken(storage: map<string, string>): (r: Result<JsValue, Error>)
    ensures LoginApi.GetUser(storage) == Success(Null) ==> r.Failure? && r.error.TypeError?
    ensures LoginApi.GetUser(storage).Failure? ==> r == Failure(LoginApi.GetUser(storage).error)
    ensures LoginApi.GetUser(storage).Success? && LoginApi.GetUser(storage).value.Obj? ==>
              r == Success(Lookup(LoginApi.GetUser(storage).value.props, "token").GetOr(Undefined))
  {
    match LoginApi.GetUser(storage)
    case Failure(e) => Failure(e)
    case Success(user) =>
      match Get(user, "token")
      case Failure(m) => Failure(TypeError(m))
      case Success(t) => Success(t)
  }

  /** The headers after the request interceptor has seen a token. */
  function WithBearer(headers: map<string, string>, token: JsValue): (h: map<string, string>)
    ensures Truthy(token) ==> AuthorizationHeader in h && h[AuthorizationHeader] == "Bearer " + ToStr(token)
    ensures !Truthy(token) ==> h == headers
    ensures forall k :: k in headers && k != AuthorizationHeader ==> k in h && h[k] == headers[k]
    ensures forall k :: k in h && k != AuthorizationHeader ==> k in headers
  {
    if Truthy(token) then headers[AuthorizationHeader := "Bearer " + ToStr(token)] else headers
  }

  /**
   * The request interceptor. None: the config goes on, with the bearer header
   * when the token is truthy. Some(e): the handler threw e, and axios rejects
   * the request with e without sending it.
   */
  method InterceptRequest(config: RequestConfig, browser: WebStorage.Browser) returns (thrown: Option<Error>)
    modifies config
    ensures thrown.Some? <==> SessionToken(browser.storage).Failure?
    ensures thrown.Some? ==> thrown.value == SessionToken(browser.storage).error
    ensures config.headers == if thrown.None? then WithBearer(old(config.headers), SessionToken(browser.storage).value) else old(config.headers)
    ensures config.verb == old(config.verb) && config.baseUrl == old(config.baseUrl) && config.url == old(config.url)
    ensures config.params == old(config.params) && config.data == old(config.data)
  {
    var token := SessionToken(browser.storage);
    if token.Failure? {
      return Some(token.error);
    }
    if Truthy(token.value) {
      config.headers := config.headers[AuthorizationHeader := "Bearer " + ToStr(token.value)];
    }
    thrown := None;
  }

  /** The request interceptor's error handler: the error is passed on unchanged. */
  function OnRequestError(e: Error): (r: Settled<Request>)
    ensures r.Rejected? && r.reason == e
  {
    Rejected(e)
  }

  /** The response interceptor's success handler: the response is passed on unchanged. */
  function OnResponse(res: Response): (r: Settled<Response>)
    ensures r.Resolved? && r.value == res
  {
    Resolved(res)
  }

  /** What the response interceptor's error handler leaves in storage. */
  function StorageAfterError(storage: map<string, string>, e: Error): (s: map<string, string>)
    ensures IsUnauthorized(e) ==> s == storage - {WebStorage.UserKey}
    ensures !IsUnauthorized(e) ==> s == storage
  {
    if IsUnauthorized(e) then storage - {WebStorage.UserKey} else storage
  }

  function LocationAfterError(location: string, e: Error): (l: string)
    ensures IsUnauthorized(e) ==> l == WebStorage.LoginPath
    ensures !IsUnauthorized(e) ==> l == location
  {
    if IsUnauthorized(e) then WebStorage.LoginPath else location
  }

  /** The response interceptor's error handler: a 401 ends the session; the error is always rejected again. */
  method OnResponseError(browser: WebStorage.Browser, e: Error) returns (r: Settled<Response>)
    modifies browser
    ensures r == Rejected(e)
    ensures browser.storage == StorageAfterError(old(browser.storage), e)
    ensures browser.location == LocationAfterError(old(browser.location), e)
  {
    if e.AxiosError? && e.response.Some? && e.response.value.status == 401 {
      browser.RemoveItem(WebStorage.UserKey);
      browser.Navigate(WebStorage.LoginPath);
    }
    r := Rejected(e);
  }

  /** One round trip through the instance, as a value: what settles, what was sent, and the browser after. */
  datatype Exchange = Exchange(outcome: Settled<Response>, sent: Option<Request>, storage: map<string, string>, location: string)

  function Transfer(storage: map<string, string>, location: string, call: Call, reply: Reply): Exchange {
    var token := SessionToken(storage);
    if token.Failure? then
      var e := token.error;
      Exchange(Rejected(e), None, StorageAfterError(storage, e), LocationAfterError(location, e))
    else
      var request := Request(call.verb, call.path, call.params, call.body, WithBearer(map[], token.value));
      match Dispatch(reply)
      case Resolved(res) => Exchange(OnResponse(res), Some(request), storage, location)
      case Rejected(e) => Exchange(Rejected(e), Some(request), StorageAfterError(storage, e), LocationAfterError(location, e))
  }

  /**
   * httpClient.request(call): the request interceptor, the server's reply, then
   * the response interceptor.
   */
  method Send(browser: WebStorage.Browser, call: Call, reply: Reply) returns (outcome: Settled<Response>, sent: Option<Request>)
    modifies browser
    ensures Exchange(outcome, sent, browser.storage, browser.location) == Transfer(old(browser.storage), old(browser.location), call, reply)
  {
    var config := new RequestConfig(call);
    var thrown := InterceptRequest(config, browser);
    if thrown.Some? {
      sent := None;
      outcome := OnResponseError(browser, thrown.value);
      return;
    }
    sent := Some(Request(config.verb, config.url, config.params, config.data, config.headers));
    match Dispatch(reply)
    case Resolved(res) =>
      outcome := OnResponse(res);
    case Rejected(e) =>
      outcome := OnResponseError(browser, e);
  }

  // ---------------------------------------------------------------- properties of a round trip

  /** With no stored user, nothing is sent: the request is rejected with a TypeError and the session is untouched. */
  lemma NoUserNoRequest(storage: map<string, string>, location: string, call: Call, reply: Reply)
    requires LoginApi.GetUser(storage) == Success(Null)
    ensures var x := Transfer(storage, location, call, reply);
      x.sent.None? && x.outcome.Rejected? && x.outcome.reason.TypeError? && x.storage == storage && x.location == location
  {
  }

  /** A truthy token is sent as a bearer credential, and no other header is added. */
  lemma BearerSent(storage: map<string, string>, location: string, call: Call, reply: Reply)
    requires SessionToken(storage).Success? && Truthy(SessionToken(storage).value)
    ensures var x := Transfer(storage, location, call, reply);
      x.sent.Some? && x.sent.value.headers == map[AuthorizationHeader := "Bearer " + ToStr(SessionToken(storage).value)]
  {
    var h := Transfer(storage, location, call, reply).sent.value.headers;
    assert h.Keys == {AuthorizationHeader};
  }

  /** A falsy token sends the request with no Authorization header. */
  lemma NoTokenNoHeader(storage: map<string, string>, location: string, call: Call, reply: Reply)
    requires SessionToken(storage).Success? && !Truthy(SessionToken(storage).value)
    ensures var x := Transfer(storage, location, call, reply);
      x.sent.Some? && AuthorizationHeader !in x.sent.value.headers
  {
  }

  /** The call reaches the server as the API helper described it. */
  lemma SentAsCalled(storage: map<string, string>, location: string, call: Call, reply: Reply)
    requires SessionToken(storage).Success?
    ensures var x := Transfer(storage, location, call, reply);
      x.sent.Some? && x.sent.value.verb == call.verb && x.sent.value.url == call.path
      && x.sent.value.params == call.params && x.sent.value.data == call.body
  {
  }

  /** A 2xx answer resolves with the response itself, and the session is untouched. */
  lemma SuccessPassesThrough(storage: map<string, string>, location: string, call: Call, res: Response)
    requires SessionToken(storage).Success? && 200 <= res.status < 300
    ensures Transfer(storage, location, call, Answered(res)) == Exchange(Resolved(res), Transfer(storage, location, call, Answered(res)).sent, storage, location)
  {
  }

  /** A 401 answer is rejected with that answer, removes "user" and goes to the login page. */
  lemma UnauthorizedEndsSession(storage: map<string, string>, location: string, call: Call, res: Response)
    requires SessionToken(storage).Success? && res.status == 401
    ensures var x := Transfer(storage, location, call, Answered(res));
      x.outcome == Rejected(AxiosError(Some(res))) && x.storage == storage - {WebStorage.UserKey}
      && x.location == WebStorage.LoginPath
  {
  }

  /** Any other failure is rejected as it came and changes neither storage nor location. */
  lemma OtherFailuresKeepSession(storage: map<string, string>, location: string, call: Call, reply: Reply)
    requires reply.Answered? ==> reply.response.status != 401
    ensures var x := Transfer(storage, location, call, reply);
      x.storage == storage && x.location == location
    ensures var x := Transfer(storage, location, call, reply);
      x.outcome.Rejected? ==> x.outcome.reason == (if x.sent.None? then SessionToken(storage).error else Dispatch(reply).reason)
  {
  }

  /** After a 401 every further request fails before it is sent, until "user" is written again. */
  lemma UnauthorizedThenLockedOut(storage: map<string, string>, location: string, call: Call, res: Response, next: Call, reply: Reply)
    requires SessionToken(storage).Success? && res.status == 401
    ensures var x := Transfer(storage, location, call, Answered(res));
      var y := Transfer(x.storage, x.location, next, reply);
      y.sent.None? && y.outcome.Rejected? && y.outcome.reason.TypeError?
  {
    var x := Transfer(storage, location, call, Answered(res));
    assert WebStorage.UserKey !in x.storage;
    NoUserNoRequest(x.storage, x.location, next, reply);
  }

  // ---------------------------------------------------------------- the "authToken" helpers

  /** The storage setAuthToken(token) leaves. A token is stored as String(token). */
  function StoreAuthToken(storage: map<string, string>, token: JsValue): (s: map<string, string>)
    ensures Truthy(token) ==> s == storage[WebStorage.AuthTokenKey := ToStr(token)]
    ensures !Truthy(token) ==> s == storage - {WebStorage.AuthTokenKey}
  {
    if Truthy(token) then storage[WebStorage.AuthTokenKey := ToStr(token)] else storage - {WebStorage.AuthTokenKey}
  }

  method SetAuthToken(browser: WebStorage.Browser, token: JsValue)
    modifies browser
    ensures browser.storage == StoreAuthToken(old(browser.storage), token)
    ensures browser.location == old(browser.location)
  {
    if Truthy(token) {
      browser.SetItem(WebStorage.AuthTokenKey, ToStr(token));
    } else {
      browser.RemoveItem(WebStorage.AuthTokenKey);
    }
  }

  method GetAuthToken(browser: WebStorage.Browser) returns (r: Option<string>)
    ensures r.Some? <==> WebStorage.AuthTokenKey in browser.storage
    ensures r.Some? ==> r.value == browser.storage[WebStorage.AuthTokenKey]
  {
    r := browser.GetItem(WebStorage.AuthTokenKey);
  }

  /** !!localStorage.getItem("authToken"): a stored, non-empty string. */
  predicate Authenticated(storage: map<string, string>) {
    WebStorage.AuthTokenKey in storage && storage[WebStorage.AuthTokenKey] != ""
  }

  method IsAuthenticated(browser: WebStorage.Browser) returns (b: bool)
    ensures b <==> WebStorage.AuthTokenKey in browser.storage && browser.storage[WebStorage.AuthTokenKey] != ""
  {
    var item := browser.GetItem(WebStorage.AuthTokenKey);
    b := item.Some? && item.value != "";
  }

  /** getAuthToken after setAuthToken(t) gives String(t) back, or nothing for a falsy t. */
  lemma AuthTokenRoundTrip(storage: map<string, string>, token: JsValue)
    ensures WebStorage.Item(StoreAuthToken(storage, token), WebStorage.AuthTokenKey)
         == if Truthy(token) then Some(ToStr(token)) else None
  {
  }

  /**
   * isAuthenticated after setAuthToken(t) holds exactly when t is truthy and its
   * text is not empty; only a truthy array such as [] or [null] has empty text.
   */
  lemma AuthenticatedAfterSet(storage: map<string, string>, token: JsValue)
    ensures Authenticated(StoreAuthToken(storage, token)) <==> Truthy(token) && ToStr(token) != ""
    ensures !token.Arr? ==> (Authenticated(StoreAuthToken(storage, token)) <==> Truthy(token))
  {
    if Truthy(token) && !token.Arr? {
      TruthyToStrNonEmpty(token);
    }
  }

  /** setAuthToken does not change the token the request interceptor sends: the two use different keys. */
  lemma AuthTokenIndependentOfSession(storage: map<string, string>, token: JsValue)
    ensures SessionToken(StoreAuthToken(storage, token)) == SessionToken(storage)
  {
    var s := StoreAuthToken(storage, token);
    assert WebStorage.UserKey != WebStorage.AuthTokenKey;
    LoginApi.GetUserReadsOnlyUser(s, storage);
  }
}
