/**
 * The login page: its schema, the page it returns to after signing in, and
 * the submit handler that signs in, adopts the user and navigates.
 */
module Login {
  import opened Wrappers
  import opened Forms
  import opened Api
  import opened Storage
  import opened Session
  import opened Guards
  import Users
  import Text

  datatype LoginValues = LoginValues(email: string, password: string)

  /** zod's own message for a malformed email, the schema giving none of its own. */
  const InvalidEmailMessage: string := "Invalid email"
  const LoginFailedMessage: string := "Login failed"

  /** The schema's issues; `isEmail` is the email grammar. */
  function LoginIssues(v: LoginValues, isEmail: string -> bool): seq<Issue>
  {
    (if !isEmail(v.email) then [Issue("email", InvalidEmailMessage)] else []) +
    (if Text.Utf16Length(v.password) < 4 then [Issue("password", "Минимум 4 символа")] else [])
  }

  /**
   * Login accepts a well-formed email with a password of at least four UTF-16
   * code units, so a password of four or five units signs in but is refused
   * when an administrator creates a user.
   */
  lemma SchemaIff(v: LoginValues, isEmail: string -> bool, fullName: string)
    ensures LoginIssues(v, isEmail) == [] <==> isEmail(v.email) && Text.Utf16Length(v.password) >= 4
    ensures 4 <= Text.Utf16Length(v.password) < 6 && isEmail(v.email) ==>
      LoginIssues(v, isEmail) == [] &&
      Users.CreateIssues(Users.CreateValues(v.email, v.password, fullName, false, true), isEmail) != []
  {
  }

  /** `"😀ab"` is three characters but four code units: long enough to sign in with. */
  lemma EmojiPasswordLongEnough(email: string, isEmail: string -> bool)
    ensures Issue("password", "Минимум 4 символа") !in LoginIssues(LoginValues(email, "\U{1F600}ab"), isEmail)
  {
    assert "\U{1F600}ab" == "\U{1F600}" + "ab";
    Text.Utf16LengthAppend("\U{1F600}", "ab");
    assert "\U{1F600}"[..0] == "";
    assert forall i :: 0 <= i < |"ab"| ==> "ab"[i] <= '\U{FFFF}';
  }

  /** `location.state?.from?.pathname || "/"` */
  function RedirectTarget(from: Option<Location>): (target: string)
    ensures from.Some? && from.value.pathname != "" ==> target == from.value.pathname
    ensures !(from.Some? && from.value.pathname != "") ==> target == HomePath
  {
    if from.Some? && from.value.pathname != "" then from.value.pathname else HomePath
  }

  /** A visitor stopped by the guard on some page comes back to that page after signing in. */
  lemma GuardThenLogin(token: Option<string>, location: Location)
    requires !Present(token)
    ensures RequireAuth(token, location).Navigate?
    ensures RequireAuth(token, location).to == LoginPath
    ensures RedirectTarget(RequireAuth(token, location).from) ==
      (if location.pathname != "" then location.pathname else HomePath)
  {
  }

  /** `err?.message ?? "Login failed"`: an empty message is shown as it is. */
  function SubmitErrorOf(e: Thrown): (shown: string)
    ensures e.message.Some? ==> shown == e.message.value
    ensures e.message.None? ==> shown == LoginFailedMessage
  {
    e.message.GetOr(LoginFailedMessage)
  }

  class LoginPage {
    var submitError: Option<string>
    /** The last `navigate(to, { replace })` the page made. */
    var navigation: Option<(string, bool)>
    const from: string

    constructor(state: Option<Location>)
      ensures submitError == None && navigation == None && from == RedirectTarget(state)
    {
      submitError := None;
      navigation := None;
      from := RedirectTarget(state);
    }

    /**
     * `onSubmit`: clear the error, sign in; on success adopt the user and
     * replace the history entry with the target page, on failure show the
     * error and stay.
     */
    method OnSubmit(auth: AuthProvider, browser: Browser, values: LoginValues, settled: Outcome<LoginResponse>)
      returns (call: Call)
      requires browser.localStorage == Persisted(browser.localStorage, auth.user, auth.encode)
      modifies this`submitError, this`navigation, auth`user, browser
      ensures call == CallOf(Api.Login(LoginRequest(values.email, values.password)))
      ensures settled.Ok? ==>
        submitError == None && navigation == Some((from, true)) && auth.user == Some(settled.value.user) &&
        browser.Token() == Some(settled.value.token) &&
        browser.localStorage == Persisted(old(browser.localStorage), auth.user, auth.encode)
      ensures settled.Fail? ==>
        submitError == Some(SubmitErrorOf(settled.error)) && navigation == old(navigation) &&
        auth.user == old(auth.user) && browser.cookies == old(browser.cookies) &&
        browser.localStorage == old(browser.localStorage)
    {
      submitError := None;
      var result;
      call, result := ApiLogin(browser, LoginRequest(values.email, values.password), settled);
      if result.Ok? {
        auth.SetUser(browser, Some(result.value));
        navigation := Some((from, true));
      } else {
        submitError := Some(SubmitErrorOf(result.error));
      }
    }

    /** `handleSubmit(onSubmit)`: the handler runs only on values the schema accepts. */
    method HandleSubmit(auth: AuthProvider, browser: Browser, values: LoginValues, isEmail: string -> bool,
                        settled: Outcome<LoginResponse>)
      returns (issues: seq<Issue>, call: Option<Call>)
      requires browser.localStorage == Persisted(browser.localStorage, auth.user, auth.encode)
      modifies this`submitError, this`navigation, auth`user, browser
      ensures issues == LoginIssues(values, isEmail)
      ensures issues != [] ==>
        call == None && submitError == old(submitError) && navigation == old(navigation) &&
        auth.user == old(auth.user) && browser.cookies == old(browser.cookies) &&
        browser.localStorage == old(browser.localStorage)
      ensures issues == [] ==> call == Some(CallOf(Api.Login(LoginRequest(values.email, values.password))))
      ensures issues == [] && settled.Ok? ==> navigation == Some((from, true)) && auth.user == Some(settled.value.user)
    {
      issues := LoginIssues(values, isEmail);
      if issues == [] {
        var c := OnSubmit(auth, browser, values, settled);
        call := Some(c);
      } else {
        call := None;
      }
    }
  }
}
