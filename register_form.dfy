/**
 * RegisterForm (src/components/forms/RegisterForm.jsx): the sign-up schema and
 * the payload its submit handler builds. String lengths are JavaScript lengths
 * (UTF-16 code units). The e-mail check belongs to a library and is a parameter.
 */
module RegisterForm {
  import opened Wrappers
  import opened JsValues
  import Zod

  /** The four text fields of the form. */
  datatype Signup = Signup(username: string, email: string, password: string, confirmPassword: string)

  predicate IsWordChar(c: char) {
    ('a' <= c <= 'z') || ('A' <= c <= 'Z') || ('0' <= c <= '9') || c == '_'
  }

  /** /^[a-zA-Z0-9_]+$/ */
  predicate IsWord(s: string) {
    s != [] && forall i :: 0 <= i < |s| ==> IsWordChar(s[i])
  }

  /** /[A-Z]/, /[a-z]/, /[0-9]/: some character in the range. */
  predicate Contains(s: string, lo: char, hi: char) {
    exists i :: 0 <= i < |s| && lo <= s[i] <= hi
  }

  /** The first failing check of the username, in the order the schema lists them. */
  function UsernameError(u: string): Option<string> {
    if Utf16Length(u) < 3 then Some("Username must be at least 3 characters")
    else if Utf16Length(u) > 20 then Some("Username must be no more than 20 characters")
    else if !IsWord(u) then Some("Username can only contain letters, numbers, and underscores")
    else None
  }

  function EmailError(isEmail: string -> bool, e: string): Option<string> {
    if isEmail(e) then None else Some("Invalid email address")
  }

  function PasswordError(p: string): Option<string> {
    if Utf16Length(p) < 8 then Some("Password must be at least 8 characters")
    else if !Contains(p, 'A', 'Z') then Some("Password must contain at least one uppercase letter")
    else if !Contains(p, 'a', 'z') then Some("Password must contain at least one lowercase letter")
    else if !Contains(p, '0', '9') then Some("Password must contain at least one number")
    else None
  }

  /** The refine on the whole object, reported on confirmPassword. */
  function ConfirmError(p: string, c: string): Option<string> {
    if p == c then None else Some("Passwords don't match")
  }

  function Report(path: string, e: Option<string>): seq<Zod.Issue> {
    if e.Some? then [Zod.Issue(path, e.value)] else []
  }

  /** The error shown under each field; the refine runs because every field is a string. */
  function SignupIssues(isEmail: string -> bool, f: Signup): (r: seq<Zod.Issue>)
    ensures r == [] <==> UsernameError(f.username).None? && EmailError(isEmail, f.email).None?
                         && PasswordError(f.password).None? && ConfirmError(f.password, f.confirmPassword).None?
  {
    Report("username", UsernameError(f.username)) + Report("email", EmailError(isEmail, f.email))
    + Report("password", PasswordError(f.password)) + Report("confirmPassword", ConfirmError(f.password, f.confirmPassword))
  }

  /** The values zod hands to onSubmit, in the shape's order. */
  function Parsed(f: Signup): seq<Prop> {
    [ Prop("username", Str(f.username)), Prop("email", Str(f.email)), Prop("password", Str(f.password)),
      Prop("confirmPassword", Str(f.confirmPassword)) ]
  }

  /** const { key, ...rest } = o: every own property but key, in order. */
  function Without(props: seq<Prop>, key: string): (r: seq<Prop>)
    ensures |r| <= |props|
  {
    if props == [] then []
    else if props[0].key == key then Without(props[1..], key)
    else [props[0]] + Without(props[1..], key)
  }

  /** What handleSubmit(onSubmit) computes: the payload for the back end, or the field errors. */
  function Submit(isEmail: string -> bool, f: Signup): Result<seq<Prop>, seq<Zod.Issue>> {
    var issues := SignupIssues(isEmail, f);
    if issues == [] then Success(Without(Parsed(f), "confirmPassword")) else Failure(issues)
  }

  // ---------------------------------------------------------------- properties

  lemma {:induction false} Utf16LengthAscii(s: string)
    requires forall i :: 0 <= i < |s| ==> s[i] as int <= 0x7F
    ensures Utf16Length(s) == |s|
  {
    if s != [] {
      Utf16LengthAscii(s[1..]);
    }
  }

  /** A username passes exactly when it has 3 to 20 characters, all letters, digits or underscores. */
  lemma UsernameAccepted(u: string)
    ensures UsernameError(u).None? <==> 3 <= |u| <= 20 && IsWord(u)
  {
    if IsWord(u) {
      Utf16LengthAscii(u);
    } else if 3 <= Utf16Length(u) <= 20 {
      assert UsernameError(u).Some?;
    }
  }

  /** A password passes exactly when it is 8 units long or more and has an upper-case letter, a lower-case letter and a digit. */
  lemma PasswordAccepted(p: string)
    ensures PasswordError(p).None? <==>
      Utf16Length(p) >= 8 && Contains(p, 'A', 'Z') && Contains(p, 'a', 'z') && Contains(p, '0', '9')
    ensures PasswordError(p).None? ==> |p| >= 1
  {
  }

  /** A mismatched confirmation is reported on confirmPassword, whatever the other fields hold. */
  lemma MismatchReported(isEmail: string -> bool, f: Signup)
    requires f.password != f.confirmPassword
    ensures Zod.Issue("confirmPassword", "Passwords don't match") in SignupIssues(isEmail, f)
    ensures Submit(isEmail, f).Failure?
  {
    var r := SignupIssues(isEmail, f);
    assert r[|r| - 1] == Zod.Issue("confirmPassword", "Passwords don't match");
  }

  lemma {:induction false} WithoutLookup(props: seq<Prop>, key: string, k: string)
    ensures Lookup(Without(props, key), k) == if k == key then None else Lookup(props, k)
  {
    if props != [] {
      WithoutLookup(props[1..], key, k);
    }
  }

  /** The payload is the form data with confirmPassword removed and every other field kept. */
  lemma PayloadOmitsConfirmation(isEmail: string -> bool, f: Signup)
    requires SignupIssues(isEmail, f) == []
    ensures Submit(isEmail, f) == Success([Prop("username", Str(f.username)), Prop("email", Str(f.email)), Prop("password", Str(f.password))])
    ensures forall k :: Lookup(Submit(isEmail, f).value, k) == if k == "confirmPassword" then None else Lookup(Parsed(f), k)
  {
    var p := Parsed(f);
    var last := p[3..];
    assert last == [Prop("confirmPassword", Str(f.confirmPassword))] && last[1..] == [];
    assert Without(last, "confirmPassword") == [];
    assert p[2..] == [p[2]] + last && p[2..][1..] == last;
    assert p[1..] == [p[1]] + p[2..] && p[1..][1..] == p[2..];
    assert Without(p[2..], "confirmPassword") == [p[2]];
    assert Without(p[1..], "confirmPassword") == [p[1], p[2]];
    assert Without(p, "confirmPassword") == [p[0], p[1], p[2]];
    forall k ensures Lookup(Submit(isEmail, f).value, k) == if k == "confirmPassword" then None else Lookup(Parsed(f), k) {
      WithoutLookup(p, "confirmPassword", k);
    }
  }

  /** The empty defaults are refused: at least the username and the password have errors. */
  lemma DefaultsRefused(isEmail: string -> bool)
    ensures var issues := SignupIssues(isEmail, Signup("", "", "", ""));
      Zod.Issue("username", "Username must be at least 3 characters") in issues
      && Zod.Issue("password", "Password must be at least 8 characters") in issues
    ensures Submit(isEmail, Signup("", "", "", "")).Failure?
  {
    var issues := SignupIssues(isEmail, Signup("", "", "", ""));
    assert issues[0] == Zod.Issue("username", "Username must be at least 3 characters");
  }
}
