/**
 * LoginForm (src/components/forms/LoginForm.jsx): the login schema and the
 * request its submit handler makes. The e-mail check belongs to a library and
 * is a parameter.
 */
module LoginForm {
  import opened Wrappers
  import opened JsValues
  import opened Http
  import Zod
  import LoginApi
  import AxiosCustom
  import WebStorage

  datatype Credentials = Credentials(email: string, password: string)

  function EmailError(isEmail: string -> bool, e: string): (r: Option<string>)
    ensures r.None? <==> isEmail(e)
  {
    if isEmail(e) then None else Some("Invalid email address")
  }

  /** z.string().min(1, ...) */
  function PasswordError(p: string): (r: Option<string>)
    ensures r.None? <==> p != ""
    ensures r.Some? ==> r.value == "Password must be at least 1 characters"
  {
    if Utf16Length(p) < 1 then Some("Password must be at least 1 characters") else None
  }

  function LoginIssues(isEmail: string -> bool, f: Credentials): (r: seq<Zod.Issue>)
    ensures r == [] <==> isEmail(f.email) && f.password != ""
  {
    (if EmailError(isEmail, f.email).Some? then [Zod.Issue("email", EmailError(isEmail, f.email).value)] else [])
    + (if PasswordError(f.password).Some? then [Zod.Issue("password", PasswordError(f.password).value)] else [])
  }

  /** The validated values zod hands to onSubmit. */
  function Body(f: Credentials): JsValue {
    Obj([Prop("email", Str(f.email)), Prop("password", Str(f.password))])
  }

  /** handleSubmit(onSubmit): loginApi.login(data) for valid input, the field errors otherwise. */
  function Submit(isEmail: string -> bool, f: Credentials): Result<Call, seq<Zod.Issue>> {
    var issues := LoginIssues(isEmail, f);
    if issues == [] then Success(LoginApi.Login(Body(f))) else Failure(issues)
  }

  // ---------------------------------------------------------------- properties

  /** The defaults {email: "", password: ""} fail on the password, and on the e-mail when "" is no address. */
  lemma DefaultsRefused(isEmail: string -> bool)
    requires !isEmail("")
    ensures LoginIssues(isEmail, Credentials("", "")) ==
      [Zod.Issue("email", "Invalid email address"), Zod.Issue("password", "Password must be at least 1 characters")]
    ensures Submit(isEmail, Credentials("", "")).Failure?
  {
  }

  /** A valid submit posts exactly the validated e-mail and password to the authenticate route. */
  lemma SubmitPostsCredentials(isEmail: string -> bool, f: Credentials)
    requires isEmail(f.email) && f.password != ""
    ensures Submit(isEmail, f) == Success(Call(POST, "/users/authenticate", Undefined, Body(f)))
    ensures Get(Body(f), "email") == Success(Str(f.email)) && Get(Body(f), "password") == Success(Str(f.password))
  {
  }

  /**
   * The response is only logged: however the login request ends, "user" is
   * never written. It is removed only when the request was sent and answered
   * 401, and no other key changes.
   */
  lemma SubmitWritesNoSession(isEmail: string -> bool, f: Credentials, storage: map<string, string>, location: string, reply: Reply)
    requires Submit(isEmail, f).Success?
    ensures var x := AxiosCustom.Transfer(storage, location, Submit(isEmail, f).value, reply);
      x.storage == if x.sent.Some? && reply.Answered? && reply.response.status == 401
                   then storage - {WebStorage.UserKey} else storage
  {
  }

  /** The shared client demands a stored session, so from a browser with no "user" the login request is never sent. */
  lemma LoggedOutLoginNotSent(isEmail: string -> bool, f: Credentials, storage: map<string, string>, location: string, reply: Reply)
    requires Submit(isEmail, f).Success? && WebStorage.UserKey !in storage
    ensures var x := AxiosCustom.Transfer(storage, location, Submit(isEmail, f).value, reply);
      x.sent.None? && x.outcome.Rejected? && x.outcome.reason.TypeError?
  {
    assert LoginApi.GetUser(storage) == Success(Null);
    AxiosCustom.NoUserNoRequest(storage, location, Submit(isEmail, f).value, reply);
  }
}
