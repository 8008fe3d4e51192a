/** The Signup page controller. The register request and the automatic
    login are oracles: `onSubmit` receives their outcomes as parameters and
    reports the requests it makes and where it navigates. */
module SignupPage {
  import opened Common
  import opened JsText
  import opened PasswordRules
  import opened SignupErrors

  const PasswordHint := "Password must be at least 8 chars and include uppercase, lowercase, and a number or symbol."
  const UsernameRequired := "Username is required."
  const LoginFailed := "Registered successfully but automatic login failed \U{2014} please log in."

  /** The outcome of `POST /register/`: accepted, or rejected with the reply
      body (`None` when there is no response or no body). */
  datatype RegisterReply = Registered | RegisterRejected(body: Option<Json>)

  /** The body of `POST /register/`; `None` is `null`. */
  datatype RegisterRequest = RegisterRequest(username: Option<string>, password: string)

  /** The arguments of `login(username, password)`. */
  datatype Credentials = Credentials(username: string, password: string)

  /** `username.trim() || null`. */
  function NullIfEmpty(s: string): (r: Option<string>)
    ensures r.None? <==> s == ""
    ensures r.Some? ==> r.value == s
  {
    if s == "" then None else Some(s)
  }

  /** The live hint shown while typing a password. */
  function LiveHint(v: string): (r: string)
    ensures r == PasswordHint <==> v != "" && !ValidatePassword(v)
    ensures r == "" <==> v == "" || ValidatePassword(v)
  {
    if JsLength(v) > 0 && !ValidatePassword(v) then PasswordHint else ""
  }

  /** Which way `onSubmit` goes before any request. */
  datatype Guard = BlankUsername | WeakPassword | Proceed(name: string)

  /** The two guards of `onSubmit`, in their order: a username that is empty
      once trimmed stops the submission whatever the password; otherwise a
      password failing the rule stops it; otherwise the trimmed username goes
      ahead. */
  function SubmitGuard(username: string, password: string): (g: Guard)
    ensures g.BlankUsername? <==> Trim(username) == ""
    ensures g.WeakPassword? <==> Trim(username) != "" && !ValidatePassword(password)
    ensures g.Proceed? <==> Trim(username) != "" && ValidatePassword(password)
    ensures g.Proceed? ==> g.name == Trim(username) && g.name != ""
  {
    var name := Trim(username);
    if name == "" then BlankUsername
    else if !ValidatePassword(password) then WeakPassword
    else Proceed(name)
  }

  /** A username of white space only is refused like an empty one, whatever
      the password. */
  lemma BlankUsernameRefused(username: string, password: string)
    requires AllWhiteSpace(username)
    ensures SubmitGuard(username, password) == BlankUsername
  {
    TrimEmptyIff(username);
  }

  /** What the `try` block of `onSubmit` does for the trimmed name `name`:
      the request it sends, the login it attempts, where it navigates and
      the error it leaves (`""` when none). */
  datatype Attempt = Attempt(request: RegisterRequest, login: Option<Credentials>, navigation: Option<string>, error: string)

  /** The trimmed name is sent as is; a login follows exactly a successful
      registration; the home page is reached exactly when both succeed, the
      login page with an explanation when only the login fails, and a
      rejection stays on the page with the reply's message. */
  function TryRegister(name: string, password: string, registerReply: RegisterReply, loginOk: bool): (a: Attempt)
    requires name != ""
    ensures a.request == RegisterRequest(Some(name), password)
    ensures a.login.Some? <==> registerReply.Registered?
    ensures a.login.Some? ==> a.login.value == Credentials(name, password)
    ensures a.navigation == Some("/") <==> registerReply.Registered? && loginOk
    ensures a.navigation == Some("/") ==> a.error == ""
    ensures a.navigation == Some("/login") <==> registerReply.Registered? && !loginOk
    ensures a.navigation == Some("/login") ==> a.error == LoginFailed
    ensures a.navigation.None? <==> registerReply.RegisterRejected?
    ensures registerReply.RegisterRejected? ==> a.error == ErrorMessage(registerReply.body)
  {
    var request := RegisterRequest(NullIfEmpty(name), password);
    match registerReply
    case Registered =>
      if loginOk then Attempt(request, Some(Credentials(name, password)), Some("/"), "")
      else Attempt(request, Some(Credentials(name, password)), Some("/login"), LoginFailed)
    case RegisterRejected(body) => Attempt(request, None, None, ErrorMessage(body))
  }

  class Page {
    var username: string
    var password: string
    var showPassword: bool
    var error: string
    var pwHint: string
    var loading: bool

    constructor ()
      ensures username == "" && password == "" && !showPassword
      ensures error == "" && pwHint == "" && !loading
    {
      username, password, showPassword := "", "", false;
      error, pwHint, loading := "", "", false;
    }

    method EditUsername(v: string)
      modifies this`username
      ensures username == v
    {
      username := v;
    }

    /** The password box's `onChange`: store the value and set the live hint
      exactly when the value is non-empty and fails the rule. */
    method OnPasswordInput(v: string)
      modifies this`password, this`pwHint
      ensures password == v
      ensures pwHint == LiveHint(v)
    {
      password := v;
      if JsLength(v) > 0 && !ValidatePassword(v) {
        pwHint := PasswordHint;
      } else {
        pwHint := "";
      }
    }

    /** The "Show" / "Hide" button. */
    method ToggleShowPassword()
      modifies this`showPassword
      ensures showPassword == !old(showPassword)
    {
      showPassword := !showPassword;
    }

    /** `onSubmit`: the guards, then the `try` block when both pass. */
    method OnSubmit(registerReply: RegisterReply, loginOk: bool)
      returns (request: Option<RegisterRequest>, login: Option<Credentials>, navigation: Option<string>)
      modifies this`error, this`pwHint, this`loading
      ensures Submitted(SubmitGuard(old(username), old(password)), registerReply, loginOk,
                        old(loading), request, login, navigation)
    {
      var guard := SubmitGuard(username, password);
      request, login, navigation := Submit(guard, registerReply, loginOk);
    }

    /** What `onSubmit` leaves behind once its guards have chosen `guard`. */
    predicate Submitted(guard: Guard, registerReply: RegisterReply, loginOk: bool, loadingBefore: bool,
                        request: Option<RegisterRequest>, login: Option<Credentials>, navigation: Option<string>)
      requires guard.Proceed? ==> guard.name != ""
      reads this
    {
      match guard
      case BlankUsername =>
        request.None? && login.None? && navigation.None?
        && error == UsernameRequired && pwHint == "" && loading == loadingBefore
      case WeakPassword =>
        request.None? && login.None? && navigation.None?
        && error == "" && pwHint == PasswordHint && loading == loadingBefore
      case Proceed(name) =>
        var a := TryRegister(name, password, registerReply, loginOk);
        pwHint == "" && !loading
        && request == Some(a.request) && login == a.login && navigation == a.navigation && error == a.error
    }

    /** The body of `onSubmit` after the guards: the error and the hint are
      cleared, then one is set, or the `try` block runs. */
    method Submit(guard: Guard, registerReply: RegisterReply, loginOk: bool)
      returns (request: Option<RegisterRequest>, login: Option<Credentials>, navigation: Option<string>)
      requires guard.Proceed? ==> guard.name != ""
      modifies this`error, this`pwHint, this`loading
      ensures Submitted(guard, registerReply, loginOk, old(loading), request, login, navigation)
    {
      error := "";
      pwHint := "";
      match guard
      case BlankUsername =>
        error := UsernameRequired;
        request, login, navigation := None, None, None;
      case WeakPassword =>
        pwHint := PasswordHint;
        request, login, navigation := None, None, None;
      case Proceed(name) =>
        request, login, navigation := RegisterAndLogIn(name, registerReply, loginOk);
    }

    /** The `try` / `catch` / `finally` of `onSubmit`, entered with the error
      already cleared: register the trimmed name, then log in; `loading` is
      set for the duration and ends false. */
    method RegisterAndLogIn(name: string, registerReply: RegisterReply, loginOk: bool)
      returns (request: Option<RegisterRequest>, login: Option<Credentials>, navigation: Option<string>)
      requires name != "" && error == ""
      modifies this`error, this`loading
      ensures var a := TryRegister(name, password, registerReply, loginOk);
        !loading && request == Some(a.request) && login == a.login && navigation == a.navigation && error == a.error
    {
      loading := true;
      request := Some(RegisterRequest(NullIfEmpty(name), password));
      login, navigation := None, None;
      if registerReply.Registered? {
        login := Some(Credentials(name, password));
        if loginOk {
          navigation := Some("/");
        } else {
          error := LoginFailed;
          navigation := Some("/login");
        }
      } else {
        error := ErrorMessage(registerReply.body);
      }
      loading := false;
    }
  }
}
