/**
 * The login page (frontend/js/login-handler.js): the two field checks that
 * gate the submit, the request's outcome deciding where the session token is
 * stored and which page comes next, the loading state of the form, and the
 * check of an already stored session when the page opens.
 */
module Login {
  import opened Text
  import opened Browser
  import FV = FormValidator

  /** The page the role is sent to after a successful login. */
  function RedirectFor(role: string): (page: string)
    ensures page == UserManagementPage <==> role == "Owner" || role == "Admin"
    ensures page == PosPage <==> role == "Cashier"
    ensures page == DashboardPage <==> role != "Owner" && role != "Admin" && role != "Cashier"
  {
    if role == "Owner" || role == "Admin" then UserManagementPage
    else if role == "Cashier" then PosPage
    else DashboardPage
  }

  /** Of the four roles the registration form accepts, only the inventory clerk lands on the dashboard. */
  lemma RegisteredRolesRedirect()
    ensures RedirectFor(FV.ValidRoles[0]) == UserManagementPage
    ensures RedirectFor(FV.ValidRoles[1]) == UserManagementPage
    ensures RedirectFor(FV.ValidRoles[2]) == DashboardPage
    ensures RedirectFor(FV.ValidRoles[3]) == PosPage
  {
  }

  const SuccessMessage: string := "Login successful! Redirecting..."
  const RefusedFallback: string := "Login failed. Please try again."
  const NetworkMessage: string := "Network error. Please check your connection and try again."
  const FixErrorsMessage: string := "Please fix the errors before submitting"
  const PasswordRequired: string := "Password is required"

  /** What the body sent to `/api/login` carries. */
  datatype Credentials = Credentials(username: string, password: string, rememberMe: bool)

  /**
   * How the login request ends: `response.ok && result.success` with the
   * token and role; any other parsed answer with its message (`""` when it
   * has none); or an exception (network failure or a body that is not JSON).
   */
  datatype LoginOutcome = Accepted(sessionId: string, role: string) | Refused(message: string) | NetworkFailure

  /**
   * How the stored-session check ends: the server confirms the session
   * (`result.success && result.valid`), answers anything else, or the
   * request throws.
   */
  datatype SessionCheck = Confirmed | NotConfirmed | CheckFailed

  /** The storage pair after a successful login: the token goes to exactly one area. */
  function StoreToken(local: Storage, session: Storage, rememberMe: bool, token: string): (r: (Storage, Storage))
    ensures rememberMe ==> r.0 == local[SessionKey := token] && r.1 == session
    ensures !rememberMe ==> r.0 == local && r.1 == session[SessionKey := token]
  {
    if rememberMe then (local[SessionKey := token], session) else (local, session[SessionKey := token])
  }

  /**
   * After a login with "remember me", the page finds the new token; without
   * it, the page finds it too unless an older local token shadows it.
   */
  lemma StoredTokenIsFoundAgain(local: Storage, session: Storage, rememberMe: bool, token: string)
    requires token != ""
    ensures var (l, s) := StoreToken(local, session, rememberMe, token);
      (rememberMe || !(SessionKey in local && local[SessionKey] != "")) ==> StoredSessionId(l, s) == Some(token)
  {
    if rememberMe {
      LocalTokenIsFound(local, session, token);
    } else {
      SessionTokenIsFound(local, session, token);
    }
  }

  /** The submit gate: the trimmed username passes the registration rules and a password is given. */
  predicate FieldsPass(username: string, password: string)
  {
    FV.ValidateUsername(Trim(username)).valid && password != ""
  }

  /** What is sent: the trimmed username, the raw password and the checkbox. */
  function LoginCredentials(username: string, password: string, rememberMe: bool): Credentials
  {
    Credentials(Trim(username), password, rememberMe)
  }

  /**
   * What setFormLoading toggles: the `disabled` flags of the login button and
   * of both inputs, and whether the spinner replaces the button text.
   */
  datatype Controls = Controls(loginDisabled: bool, usernameDisabled: bool, passwordDisabled: bool, spinnerShown: bool)

  /** The login page's state. */
  class LoginPage {
    // form values
    var username: string
    var password: string
    var rememberMe: bool
    // what the page shows
    var usernameMark: Mark
    var passwordMark: Mark
    var alert: Option<Alert>
    var controls: Controls
    // storage, navigation and the redirect timer
    var local: Storage
    var session: Storage
    var location: string
    var pendingRedirect: Option<string>

    /** The page as it opens, with whatever the two storage areas already hold. */
    constructor (local: Storage, session: Storage)
      ensures this.local == local && this.session == session
      ensures username == "" && password == "" && !rememberMe
      ensures usernameMark == Unmarked && passwordMark == Unmarked && alert == None
      ensures controls == Controls(false, false, false, false)
      ensures location == Browser.LoginPage && pendingRedirect == None
    {
      this.local := local;
      this.session := session;
      username := "";
      password := "";
      rememberMe := false;
      usernameMark := Unmarked;
      passwordMark := Unmarked;
      alert := None;
      controls := Controls(false, false, false, false);
      location := Browser.LoginPage;
      pendingRedirect := None;
    }

    /** Typing in the username input: its `input` listener clears the field's mark. */
    method InputUsername(username: string)
      modifies this`username, this`usernameMark
      ensures this.username == username && usernameMark == Unmarked
    {
      this.username := username;
      usernameMark := Unmarked;
    }

    /** Typing in the password input: its `input` listener clears the field's mark. */
    method InputPassword(password: string)
      modifies this`password, this`passwordMark
      ensures this.password == password && passwordMark == Unmarked
    {
      this.password := password;
      passwordMark := Unmarked;
    }

    /** Ticking the remember-me box, which has no listener of its own. */
    method SetRememberMe(rememberMe: bool)
      modifies this`rememberMe
      ensures this.rememberMe == rememberMe
    {
      this.rememberMe := rememberMe;
    }

    /** Page load: a stored session is sent for validation and, if confirmed, the user moves on. */
    method CheckStoredSession(outcome: SessionCheck)
      modifies this`location
      ensures location == (if IsTruthy(StoredSessionId(local, session)) && outcome == Confirmed
                           then UserManagementPage else old(location))
    {
      var sessionId := StoredSessionId(local, session);
      if IsTruthy(sessionId) {
        if outcome == Confirmed {
          location := UserManagementPage;
        }
      }
    }

    /** validateUsername: the trimmed name against the registration rules. */
    method ValidateUsernameField() returns (ok: bool)
      modifies this`usernameMark
      ensures ok == FV.ValidateUsername(Trim(username)).valid
      ensures usernameMark == MarkFor(ok, FV.ValidateUsername(Trim(username)).message)
    {
      var validation := FV.ValidateUsername(Trim(username));
      usernameMark := MarkFor(validation.valid, validation.message);
      ok := validation.valid;
    }

    /** validatePassword: only presence is checked here. */
    method ValidatePasswordField() returns (ok: bool)
      modifies this`passwordMark
      ensures ok <==> password != ""
      ensures passwordMark == MarkFor(ok, PasswordRequired)
    {
      ok := password != "";
      passwordMark := MarkFor(ok, PasswordRequired);
    }

    /** setFormLoading: the button and both inputs are disabled exactly while loading. */
    method SetFormLoading(isLoading: bool)
      modifies this`controls
      ensures controls == Controls(isLoading, isLoading, isLoading, isLoading)
    {
      controls := Controls(isLoading, isLoading, isLoading, isLoading);
    }

    /**
     * submitLogin. On acceptance the token is stored in the area "remember
     * me" selects, the redirect for the role is scheduled and the form stays
     * disabled; on refusal or failure nothing is stored and the form is
     * enabled again.
     */
    method SubmitLogin(creds: Credentials, outcome: LoginOutcome)
      modifies this`controls
      modifies this`alert, this`local, this`session, this`pendingRedirect
      ensures outcome.Accepted? ==>
        && (local, session) == StoreToken(old(local), old(session), creds.rememberMe, outcome.sessionId)
        && pendingRedirect == Some(RedirectFor(outcome.role))
        && alert == Some(Alert(SuccessMessage, SuccessAlert))
        && controls == Controls(true, true, true, true)
      ensures !outcome.Accepted? ==>
        && local == old(local) && session == old(session) && pendingRedirect == old(pendingRedirect)
        && controls == Controls(false, false, false, false)
      ensures outcome.Refused? ==>
        alert == Some(Alert(MessageOr(outcome.message, RefusedFallback), ErrorAlert))
      ensures outcome.NetworkFailure? ==>
        alert == Some(Alert(NetworkMessage, ErrorAlert))
    {
      SetFormLoading(true);
      alert := None;
      match outcome {
        case Accepted(sessionId, role) =>
          alert := Some(Alert(SuccessMessage, SuccessAlert));
          if creds.rememberMe {
            local := local[SessionKey := sessionId];
          } else {
            session := session[SessionKey := sessionId];
          }
          pendingRedirect := Some(RedirectFor(role));
        case Refused(message) =>
          alert := Some(Alert(MessageOr(message, RefusedFallback), ErrorAlert));
          SetFormLoading(false);
        case NetworkFailure =>
          alert := Some(Alert(NetworkMessage, ErrorAlert));
          SetFormLoading(false);
      }
    }

    /** The 1.5-second timer after a successful login. */
    method RedirectTimerFires()
      modifies this`location
      ensures location == (if pendingRedirect.Some? then pendingRedirect.value else old(location))
    {
      if pendingRedirect.Some? {
        location := pendingRedirect.value;
      }
    }

    /** The submit gate: both checks always run, so both fields get a mark. */
    method CheckFields() returns (ok: bool)
      modifies this`usernameMark, this`passwordMark
      ensures ok <==> FieldsPass(username, password)
      ensures usernameMark == MarkFor(FV.ValidateUsername(Trim(username)).valid, FV.ValidateUsername(Trim(username)).message)
      ensures passwordMark == MarkFor(password != "", PasswordRequired)
    {
      var usernameOk := ValidateUsernameField();
      var passwordOk := ValidatePasswordField();
      ok := usernameOk && passwordOk;
    }

    /**
     * The submit handler: both fields are always checked and marked; the
     * request is sent, with the trimmed username and the raw password, only
     * when both field checks pass, and then ends as SubmitLogin states.
     */
    method Submit(outcome: LoginOutcome) returns (sent: Option<Credentials>)
      modifies this`usernameMark, this`passwordMark
      modifies this`controls
      modifies this`alert, this`local, this`session, this`pendingRedirect
      ensures sent.Some? <==> FieldsPass(username, password)
      ensures sent.Some? ==> sent.value == LoginCredentials(username, password, rememberMe)
      ensures sent.None? ==>
        && alert == Some(Alert(FixErrorsMessage, ErrorAlert))
        && local == old(local) && session == old(session) && pendingRedirect == old(pendingRedirect)
        && controls == old(controls)
      ensures usernameMark == MarkFor(FV.ValidateUsername(Trim(username)).valid, FV.ValidateUsername(Trim(username)).message)
      ensures passwordMark == MarkFor(password != "", PasswordRequired)
      ensures sent.Some? && outcome.Accepted? ==>
        && (local, session) == StoreToken(old(local), old(session), rememberMe, outcome.sessionId)
        && pendingRedirect == Some(RedirectFor(outcome.role))
        && alert == Some(Alert(SuccessMessage, SuccessAlert))
        && controls == Controls(true, true, true, true)
      ensures sent.Some? && !outcome.Accepted? ==>
        && local == old(local) && session == old(session) && pendingRedirect == old(pendingRedirect)
        && controls == Controls(false, false, false, false)
      ensures sent.Some? && outcome.Refused? ==>
        alert == Some(Alert(MessageOr(outcome.message, RefusedFallback), ErrorAlert))
      ensures sent.Some? && outcome.NetworkFailure? ==>
        alert == Some(Alert(NetworkMessage, ErrorAlert))
    {
      var ok := CheckFields();
      sent := SendIfChecked(ok, outcome);
    }

    /** The rest of the submit handler once both checks have run and returned `ok`. */
    method SendIfChecked(ok: bool, outcome: LoginOutcome) returns (sent: Option<Credentials>)
      modifies this`controls
      modifies this`alert, this`local, this`session, this`pendingRedirect
      ensures sent.Some? <==> ok
      ensures sent.Some? ==> sent.value == LoginCredentials(username, password, rememberMe)
      ensures sent.None? ==>
        && alert == Some(Alert(FixErrorsMessage, ErrorAlert))
        && local == old(local) && session == old(session) && pendingRedirect == old(pendingRedirect)
        && controls == old(controls)
      ensures sent.Some? && outcome.Accepted? ==>
        && (local, session) == StoreToken(old(local), old(session), rememberMe, outcome.sessionId)
        && pendingRedirect == Some(RedirectFor(outcome.role))
        && alert == Some(Alert(SuccessMessage, SuccessAlert))
        && controls == Controls(true, true, true, true)
      ensures sent.Some? && !outcome.Accepted? ==>
        && local == old(local) && session == old(session) && pendingRedirect == old(pendingRedirect)
        && controls == Controls(false, false, false, false)
      ensures sent.Some? && outcome.Refused? ==>
        alert == Some(Alert(MessageOr(outcome.message, RefusedFallback), ErrorAlert))
      ensures sent.Some? && outcome.NetworkFailure? ==>
        alert == Some(Alert(NetworkMessage, ErrorAlert))
    {
      if !ok {
        alert := Some(Alert(FixErrorsMessage, ErrorAlert));
        return None;
      }
      var creds := LoginCredentials(username, password, rememberMe);
      SubmitLogin(creds, outcome);
      sent := Some(creds);
    }
  }
}
