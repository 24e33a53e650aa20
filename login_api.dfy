/**
 * The account endpoints and the stored-user reader (src/apis/LoginApi.js).
 */
module LoginApi {
  import opened Wrappers
  import opened JsValues
  import opened Http
  import Json
  import WebStorage

  function Login(data: JsValue): (c: Call)
    ensures c.verb == POST && c.path == "/users/authenticate" && c.body == data && c.params.Undefined?
  {
    Call(POST, "/users/authenticate", Undefined, data)
  }

  function Register(data: JsValue): (c: Call)
    ensures c.verb == POST && c.path == "/users/register" && c.body == data && c.params.Undefined?
  {
    Call(POST, "/users/register", Undefined, data)
  }

  /**
   * loginApi.getUser(): null when "user" is absent or empty (both falsy), the
   * parsed value otherwise; JSON.parse throws a SyntaxError on a malformed value.
   */
  function GetUser(storage: map<string, string>): (r: Result<JsValue, Error>)
    ensures WebStorage.UserKey !in storage ==> r == Success(Null)
    ensures WebStorage.UserKey in storage && storage[WebStorage.UserKey] == "" ==> r == Success(Null)
    ensures r.Failure? ==> r.error.SyntaxError?
  {
    match WebStorage.Item(storage, WebStorage.UserKey)
    case None => Success(Null)
    case Some(text) =>
      if text == "" then Success(Null)
      else
        match Json.Parse(text)
        case Success(v) => Success(v)
        case Failure(m) => Failure(SyntaxError(m))
  }

  /** getUser reads the "user" key and nothing else. */
  lemma GetUserReadsOnlyUser(s1: map<string, string>, s2: map<string, string>)
    requires WebStorage.UserKey in s1 <==> WebStorage.UserKey in s2
    requires WebStorage.UserKey in s1 ==> s1[WebStorage.UserKey] == s2[WebStorage.UserKey]
    ensures GetUser(s1) == GetUser(s2)
  {
  }

  /** A stored non-empty text yields exactly what JSON.parse makes of it. */
  lemma GetUserParses(storage: map<string, string>)
    requires WebStorage.UserKey in storage && storage[WebStorage.UserKey] != ""
    ensures Json.Parse(storage[WebStorage.UserKey]).Success? ==> GetUser(storage) == Success(Json.Parse(storage[WebStorage.UserKey]).value)
    ensures Json.Parse(storage[WebStorage.UserKey]).Failure? ==> GetUser(storage).Failure?
  {
  }

  /** What JSON.stringify wrote under "user" reads back as the same value. */
  lemma GetUserAfterStringify(storage: map<string, string>, u: JsValue)
    requires Json.Serializable(u)
    ensures GetUser(storage[WebStorage.UserKey := Json.Stringify(u).value]) == Success(u)
  {
    Json.ParseStringify(u);
  }
}
