/**
 * The browser state the login and registration pages read and write: the
 * two Web Storage areas, the alert box, the valid/invalid mark a field shows,
 * and JavaScript's `||` on values that may be missing or empty.
 */
module Browser {
  import opened Text

  /** A Web Storage area (`localStorage` or `sessionStorage`): key to value. */
  type Storage = map<string, string>

  /** The storage key under which the pages keep the session token. */
  const SessionKey: string := "sessionId"

  const LoginPage: string := "/frontend/pages/login.html"
  const UserManagementPage: string := "/frontend/pages/user-management.html"
  const PosPage: string := "/frontend/pages/pos.html"
  const DashboardPage: string := "/frontend/pages/dashboard.html"

  datatype AlertKind = SuccessAlert | ErrorAlert

  /** The message box at the top of a form. */
  datatype Alert = Alert(message: string, kind: AlertKind)

  /** What a field shows after its check: nothing, an error message, or success. */
  datatype Mark = Unmarked | Invalid(message: string) | Valid

  /** The mark a field shows for a verdict. */
  function MarkFor(valid: bool, message: string): (m: Mark)
    ensures m != Unmarked
    ensures m.Valid? <==> valid
    ensures m.Invalid? <==> !valid
    ensures m.Invalid? ==> m.message == message
  {
    if valid then Valid else Invalid(message)
  }

  /** `storage.getItem(key)`: `null` when the key is absent. */
  function GetItem(storage: Storage, key: string): (r: Option<string>)
    ensures r.Some? <==> key in storage
    ensures r.Some? ==> r.value == storage[key]
  {
    if key in storage then Some(storage[key]) else None
  }

  /** JavaScript truthiness of a string that may be `null`. */
  predicate IsTruthy(s: Option<string>)
  {
    s.Some? && s.value != ""
  }

  /** `a || b` on strings that may be `null`. */
  function Or(a: Option<string>, b: Option<string>): (r: Option<string>)
    ensures IsTruthy(a) ==> r == a
    ensures !IsTruthy(a) ==> r == b
  {
    if IsTruthy(a) then a else b
  }

  /** `result.message || fallback`, with an absent message written `""`. */
  function MessageOr(message: string, fallback: string): (r: string)
    ensures message != "" ==> r == message
    ensures message == "" ==> r == fallback
  {
    if message != "" then message else fallback
  }

  /**
   * `localStorage.getItem('sessionId') || sessionStorage.getItem('sessionId')`:
   * the local token when it is present and non-empty, else the session one.
   */
  function StoredSessionId(local: Storage, session: Storage): (r: Option<string>)
    ensures IsTruthy(r) <==>
      (SessionKey in local && local[SessionKey] != "") || (SessionKey in session && session[SessionKey] != "")
    ensures SessionKey in local && local[SessionKey] != "" ==> r == Some(local[SessionKey])
  {
    Or(GetItem(local, SessionKey), GetItem(session, SessionKey))
  }

  /** A token just written to local storage is what the lookup finds. */
  lemma LocalTokenIsFound(local: Storage, session: Storage, token: string)
    requires token != ""
    ensures StoredSessionId(local[SessionKey := token], session) == Some(token)
  {
  }

  /**
   * A token written to session storage is found unless local storage holds
   * a non-empty token, which then wins.
   */
  lemma SessionTokenIsFound(local: Storage, session: Storage, token: string)
    ensures !(SessionKey in local && local[SessionKey] != "") ==>
      StoredSessionId(local, session[SessionKey := token]) == Some(token)
    ensures SessionKey in local && local[SessionKey] != "" ==>
      StoredSessionId(local, session[SessionKey := token]) == Some(local[SessionKey])
  {
  }

  /** With the token removed from both areas, no session is found. */
  lemma ClearedStorageHasNoSession(local: Storage, session: Storage)
    ensures StoredSessionId(local - {SessionKey}, session - {SessionKey}) == None
  {
  }
}
