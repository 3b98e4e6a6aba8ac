/**
 * The login window: input checks, the branches on the login response
 * (with or without a second factor), Remember Me stored in the
 * application's settings, and the password visibility toggle.
 */
module Login {
  import opened Wrappers
  import opened Text

  /** A value in the settings store, as the window writes it. */
  datatype Setting = Flag(b: bool) | Text(s: string)

  /** The two keys the window uses, `remember_me` and `username`. */
  datatype Key = RememberMe | Username

  /** The `QSettings("StockaDoodle", "IMS")` store, restricted to the window's keys. */
  type Settings = map<Key, Setting>

  /** `settings.value(key, default, type=bool)`. */
  function ReadFlag(settings: Settings, key: Key, default: bool): bool {
    if key in settings && settings[key].Flag? then settings[key].b else default
  }

  /** `settings.value(key, default, type=str)`. */
  function ReadText(settings: Settings, key: Key, default: string): string {
    if key in settings && settings[key].Text? then settings[key].s else default
  }

  /** `save_credentials()`: with Remember Me, the flag and the username as typed; without, the flag off and no username. */
  function SavedCredentials(settings: Settings, remember: bool, username: string): Settings {
    if remember then settings[RememberMe := Flag(true)][Username := Text(username)]
    else settings[RememberMe := Flag(false)] - {Username}
  }

  /** The store as `save_credentials()` leaves it, key by key. */
  predicate SavedAs(settings: Settings, remember: bool, username: string) {
    && RememberMe in settings && settings[RememberMe] == Flag(remember)
    && (Username in settings <==> remember)
    && (remember ==> settings[Username] == Text(username))
  }

  /** Saving leaves the store as described, and nothing else does: on the window's two keys the description fixes the store. */
  lemma SavedAsExactly(settings: Settings, saved: Settings, remember: bool, username: string)
    ensures saved == SavedCredentials(settings, remember, username) <==> SavedAs(saved, remember, username)
  {
    var expected := SavedCredentials(settings, remember, username);
    if SavedAs(saved, remember, username) {
      forall k: Key
        ensures (k in saved <==> k in expected) && (k in saved ==> saved[k] == expected[k])
      {
        match k
        case RememberMe =>
        case Username =>
      }
    }
  }

  /** `load_saved_credentials()`: the username to fill in and whether Remember Me is checked, if anything. */
  function LoadedCredentials(settings: Settings): (r: Option<string>)
    ensures r.Some? <==> ReadFlag(settings, RememberMe, false)
    ensures r.Some? ==> r.value == ReadText(settings, Username, "")
  {
    if ReadFlag(settings, RememberMe, false) then Some(ReadText(settings, Username, "")) else None
  }

  /** Remember Me round-trips: the next window fills in the username saved; unchecking forgets it. */
  lemma RememberRoundTrip(settings: Settings, remember: bool, username: string)
    ensures remember ==> LoadedCredentials(SavedCredentials(settings, true, username)) == Some(username)
    ensures !remember ==> LoadedCredentials(SavedCredentials(settings, false, username)).None?
    ensures Username !in SavedCredentials(settings, false, username)
  {
    var saved := SavedCredentials(settings, remember, username);
    if remember {
      assert saved[RememberMe] == Flag(true);
    } else {
      assert saved[RememberMe] == Flag(false);
    }
  }

  datatype EchoMode = Password | Normal

  /** `toggle_password()`: the other echo mode and the button's new label. */
  function Toggle(mode: EchoMode): (r: (EchoMode, string))
    ensures r.0 != mode
    ensures r.0 == Normal <==> r.1 == "🙈"
    ensures r.0 == Password <==> r.1 == "👁"
  {
    if mode == Password then (Normal, "🙈") else (Password, "👁")
  }

  /** Toggling twice restores the echo mode, and the label with it. */
  lemma ToggleTwice(mode: EchoMode)
    ensures Toggle(Toggle(mode).0).0 == mode
    ensures Toggle(Toggle(mode).0).1 == (if mode == Password then "👁" else "🙈")
  {
  }

  /** A user dict, with its keys and values as text. */
  type UserDict = map<string, string>

  /** The `api.login` call: it raises with a message, or returns a response dict (None is a missing key). */
  datatype LoginResponse =
    | LoginRaised(message: string)
    | LoginResult(mfaRequired: bool, username: Option<string>, email: Option<string>, user: Option<UserDict>)

  /** What the verification window ends with: accepted with its user data, or closed. */
  datatype MfaResult = MfaAccepted(userData: Option<UserDict>) | MfaClosed

  /** What `on_login` does. */
  datatype LoginOutcome =
    | UsernameRequired
    | PasswordRequired
    | ErrorShown(message: string)
    | MfaCancelled(username: string, email: string)
    | LoggedIn

  const EmailNotFound := "Email not found. Please contact administrator."
  const LoginFailed := "Login failed. Please try again."

  /** The branch the `try` block of `on_login` takes for the stripped username, the login response and the verification window's end. */
  function ResponseOutcome(username: string, response: LoginResponse, mfa: MfaResult): LoginOutcome {
    match response
    case LoginRaised(message) => ErrorShown(message)
    case LoginResult(mfaRequired, mfaUsername, email, user) =>
      if mfaRequired then
        if email.GetOr("") == [] then ErrorShown(EmailNotFound)
        else if mfa.MfaAccepted? then LoggedIn
        else MfaCancelled(mfaUsername.GetOr(username), email.GetOr(""))
      else if user.Some? && user.value != map[] then LoggedIn
      else ErrorShown(LoginFailed)
  }

  /** The branch `on_login` takes for the two fields, the login response and the verification window's end. */
  function LoginOutcomeFor(usernameText: string, passwordText: string, response: LoginResponse, mfa: MfaResult)
    : LoginOutcome
  {
    if Strip(usernameText) == [] then UsernameRequired
    else if passwordText == [] then PasswordRequired
    else ResponseOutcome(Strip(usernameText), response, mfa)
  }

  /** The outcome's rules: the input checks come first, and the login succeeds exactly when the response (and the second factor, if asked for) accept it. */
  lemma LoginOutcomeRules(usernameText: string, passwordText: string, response: LoginResponse, mfa: MfaResult, o: LoginOutcome)
    requires o == LoginOutcomeFor(usernameText, passwordText, response, mfa)
    ensures IsBlank(usernameText) ==> o == UsernameRequired
    ensures !IsBlank(usernameText) && passwordText == [] ==> o == PasswordRequired
    ensures o == LoggedIn <==>
      && !IsBlank(usernameText) && passwordText != [] && response.LoginResult?
      && (if response.mfaRequired then response.email.GetOr("") != [] && mfa.MfaAccepted?
          else response.user.Some? && response.user.value != map[])
    ensures response.LoginResult? && response.mfaRequired && response.email.GetOr("") == [] ==>
      o == UsernameRequired || o == PasswordRequired || o == ErrorShown(EmailNotFound)
    ensures o.MfaCancelled? ==>
      && response.LoginResult? && response.mfaRequired && mfa.MfaClosed?
      && o.username == response.username.GetOr(Strip(usernameText)) && o.email == response.email.GetOr("") != []
    ensures o.ErrorShown? && response.LoginRaised? ==> o.message == response.message
  {
  }

  class Window {
    var settings: Settings
    var usernameText: string
    var passwordText: string
    var echoMode: EchoMode
    var toggleText: string
    var rememberChecked: bool
    var loginEnabled: bool
    var errorText: Option<string>
    var userData: Option<UserDict>
    var accepted: bool

    /** `LoginWindow()`: empty fields, the password hidden, then the saved credentials loaded. */
    constructor (settings: Settings)
      ensures this.settings == settings && passwordText == [] && echoMode == Password && toggleText == "👁"
      ensures LoadedCredentials(settings).Some? ==> usernameText == LoadedCredentials(settings).value && rememberChecked
      ensures LoadedCredentials(settings).None? ==> usernameText == [] && !rememberChecked
      ensures loginEnabled && errorText.None? && userData.None? && !accepted
    {
      this.settings := settings;
      usernameText, passwordText := [], [];
      echoMode, toggleText := Password, "👁";
      rememberChecked := false;
      loginEnabled := true;
      errorText := None;
      userData := None;
      accepted := false;
      var loaded := LoadedCredentials(settings);
      if loaded.Some? {
        usernameText := loaded.value;
        rememberChecked := true;
      }
    }

    method TogglePassword()
      modifies this
      ensures (echoMode, toggleText) == Toggle(old(echoMode))
      ensures passwordText == old(passwordText) && usernameText == old(usernameText) && settings == old(settings)
    {
      var t := Toggle(echoMode);
      echoMode, toggleText := t.0, t.1;
    }

    /**
     * `on_login()` with the response `api.login` gives (asked for only
     * when both fields are filled) and, when it asks for a second factor,
     * how the verification window ends.
     */
    method OnLogin(response: LoginResponse, mfa: MfaResult) returns (o: LoginOutcome)
      requires loginEnabled && !accepted
      modifies this
      ensures usernameText == old(usernameText) && passwordText == old(passwordText) && rememberChecked == old(rememberChecked)
      ensures o == LoginOutcomeFor(old(usernameText), old(passwordText), response, mfa)
      ensures o.UsernameRequired? || o.PasswordRequired? ==> errorText.Some? && loginEnabled && userData == old(userData)
      ensures o.LoggedIn? ==>
        && accepted && !loginEnabled
        && SavedAs(settings, old(rememberChecked), old(usernameText))
        && userData == (if response.mfaRequired then mfa.userData else response.user)
      ensures !o.LoggedIn? ==> !accepted && unchanged(this`settings) && loginEnabled
      ensures o.ErrorShown? ==> errorText == Some(o.message)
      ensures o.MfaCancelled? ==> errorText.None?
    {
      var username := Strip(usernameText);
      if username == [] {
        errorText := Some("Please enter your username.");
        return UsernameRequired;
      }
      if passwordText == [] {
        errorText := Some("Please enter your password.");
        return PasswordRequired;
      }
      loginEnabled := false;
      errorText := None;
      o := Submit(username, response, mfa);
    }

    /** The `try` block of `on_login()`, once both fields are filled and the button is disabled. */
    method Submit(username: string, response: LoginResponse, mfa: MfaResult) returns (o: LoginOutcome)
      requires !accepted && !loginEnabled && errorText.None?
      modifies this
      ensures usernameText == old(usernameText) && passwordText == old(passwordText) && rememberChecked == old(rememberChecked)
      ensures o == ResponseOutcome(username, response, mfa)
      ensures o.LoggedIn? ==>
        && accepted && !loginEnabled
        && SavedAs(settings, old(rememberChecked), old(usernameText))
        && userData == (if response.mfaRequired then mfa.userData else response.user)
      ensures !o.LoggedIn? ==> !accepted && unchanged(this`settings) && loginEnabled
      ensures o.ErrorShown? ==> errorText == Some(o.message)
      ensures o.MfaCancelled? ==> errorText.None?
    {
      if response.LoginRaised? {
        errorText := Some(response.message);
        loginEnabled := true;
        return ErrorShown(response.message);
      }
      if response.mfaRequired {
        var mfaUsername := response.username.GetOr(username);
        var mfaEmail := response.email.GetOr("");
        if mfaEmail == [] {
          errorText := Some(EmailNotFound);
          loginEnabled := true;
          return ErrorShown(EmailNotFound);
        }
        if mfa.MfaAccepted? {
          userData := mfa.userData;
          settings := SavedCredentials(settings, rememberChecked, usernameText);
          accepted := true;
          o := LoggedIn;
        } else {
          loginEnabled := true;
          o := MfaCancelled(mfaUsername, mfaEmail);
        }
      } else {
        userData := response.user;
        if response.user.Some? && response.user.value != map[] {
          settings := SavedCredentials(settings, rememberChecked, usernameText);
          accepted := true;
          o := LoggedIn;
        } else {
          errorText := Some(LoginFailed);
          loginEnabled := true;
          o := ErrorShown(LoginFailed);
        }
      }
    }

    /** `get_user_data()`: the stored user, or `{}` when there is none. */
    function GetUserData(): (u: UserDict)
      reads this
      ensures userData.None? ==> u == map[]
      ensures userData.Some? ==> u == userData.value
    {
      if userData.Some? then userData.value else map[]
    }
  }
}
