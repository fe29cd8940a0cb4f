/**
 * `SessionManager`: the login session kept in the secure store under the
 * session keys. Its single-shot flows are modelled as plain reads of the
 * store; the map-level functions below give their meaning, and the class
 * performs the same writes and removes as the source, one call at a time.
 */
module Session {
  import opened Wrappers
  import opened KotlinText
  import opened Storage
  import opened StorageKeys

  /** The getters' mapping of a stored string: null when it is empty. */
  function NonEmpty(s: string): (r: Option<string>)
    ensures r.None? <==> s == ""
    ensures r.Some? ==> r.value == s
  {
    if s != "" then Some(s) else None
  }

  /** The store after `saveSession`: four strings under their keys, the flag set, nothing else changed. */
  function SaveSessionPrefs(m: Prefs, token: string, userId: string, name: string, email: string): (m': Prefs)
    ensures StringOr(m', AUTH_TOKEN, "") == token && StringOr(m', USER_ID, "") == userId
    ensures StringOr(m', USER_NAME, "") == name && StringOr(m', USER_EMAIL, "") == email
    ensures BoolOr(m', IS_LOGGED_IN, false)
    ensures m'.Keys == m.Keys + SessionKeys
    ensures forall k :: k in m && k !in SessionKeys ==> m'[k] == m[k]
  {
    m[AUTH_TOKEN := StringValue(token)]
     [USER_ID := StringValue(userId)]
     [USER_NAME := StringValue(name)]
     [USER_EMAIL := StringValue(email)]
     [IS_LOGGED_IN := BoolValue(true)]
  }

  /** The store after `logout`: the four strings removed, the flag false, nothing else changed. */
  function LogoutPrefs(m: Prefs): (m': Prefs)
    ensures forall k :: k in SessionFields ==> k !in m'
    ensures IS_LOGGED_IN in m' && m'[IS_LOGGED_IN] == BoolValue(false)
    ensures m'.Keys == m.Keys - SessionKeys + {IS_LOGGED_IN}
    ensures forall k :: k in m && k !in SessionKeys ==> m'[k] == m[k]
  {
    (m - {AUTH_TOKEN, USER_ID, USER_NAME, USER_EMAIL})[IS_LOGGED_IN := BoolValue(false)]
  }

  // What the getters and checks read from a given store.

  function StoredToken(m: Prefs): Option<string> {
    NonEmpty(StringOr(m, AUTH_TOKEN, ""))
  }

  function StoredUserId(m: Prefs): Option<string> {
    NonEmpty(StringOr(m, USER_ID, ""))
  }

  function StoredUserName(m: Prefs): Option<string> {
    NonEmpty(StringOr(m, USER_NAME, ""))
  }

  function StoredUserEmail(m: Prefs): Option<string> {
    NonEmpty(StringOr(m, USER_EMAIL, ""))
  }

  /** `isLoggedIn`: the token is neither null nor blank. */
  predicate LoggedIn(m: Prefs) {
    match StoredToken(m)
    case None => false
    case Some(t) => !IsBlank(t)
  }

  /** `isSessionValid`: the stored token is not empty. */
  predicate SessionValid(m: Prefs) {
    StringOr(m, AUTH_TOKEN, "") != ""
  }

  /** `isLoggedIn` holds exactly when the stored token is not blank (an absent token reads as `""`). */
  lemma LoggedInIffTokenNotBlank(m: Prefs)
    ensures LoggedIn(m) <==> !IsBlank(StringOr(m, AUTH_TOKEN, ""))
  {
  }

  /**
   * The two checks disagree exactly on a stored token that is non-empty but
   * blank: `isSessionValid` accepts it and `isLoggedIn` does not.
   */
  lemma ValidityVersusLoggedIn(m: Prefs)
    ensures LoggedIn(m) ==> SessionValid(m)
    ensures SessionValid(m) && !LoggedIn(m) <==>
              StringOr(m, AUTH_TOKEN, "") != "" && IsBlank(StringOr(m, AUTH_TOKEN, ""))
  {
  }

  /** A whitespace-only token: the session is "valid" but nobody is logged in. */
  lemma WhitespaceTokenValidButLoggedOut(m: Prefs, userId: string, name: string, email: string)
    ensures var m' := SaveSessionPrefs(m, " ", userId, name, email);
            SessionValid(m') && !LoggedIn(m') && BoolOr(m', IS_LOGGED_IN, false)
  {
  }

  /** Each getter returns exactly what `saveSession` stored, or null for an empty string. */
  lemma GettersAfterSave(m: Prefs, token: string, userId: string, name: string, email: string)
    ensures var m' := SaveSessionPrefs(m, token, userId, name, email);
            && StoredToken(m') == NonEmpty(token) && StoredUserId(m') == NonEmpty(userId)
            && StoredUserName(m') == NonEmpty(name) && StoredUserEmail(m') == NonEmpty(email)
  {
  }

  /** `saveSession` with a non-blank token logs the user in and `getToken` returns that token. */
  lemma SaveSessionLogsIn(m: Prefs, token: string, userId: string, name: string, email: string)
    requires !IsBlank(token)
    ensures var m' := SaveSessionPrefs(m, token, userId, name, email);
            LoggedIn(m') && StoredToken(m') == Some(token) && SessionValid(m')
  {
  }

  /** `saveSession("")` sets the logged-in flag although `isLoggedIn` is false. */
  lemma EmptyTokenFlagDisagrees(m: Prefs, userId: string, name: string, email: string)
    ensures var m' := SaveSessionPrefs(m, "", userId, name, email);
            BoolOr(m', IS_LOGGED_IN, false) && !LoggedIn(m') && !SessionValid(m')
  {
  }

  /** After `logout` every getter is null, both checks fail and the flag reads false. */
  lemma LogoutEndsSession(m: Prefs)
    ensures var m' := LogoutPrefs(m);
            && StoredToken(m') == None && StoredUserId(m') == None
            && StoredUserName(m') == None && StoredUserEmail(m') == None
            && !LoggedIn(m') && !SessionValid(m') && !BoolOr(m', IS_LOGGED_IN, true)
  {
  }

  /** Logging out twice is the same as logging out once. */
  lemma LogoutIdempotent(m: Prefs)
    ensures LogoutPrefs(LogoutPrefs(m)) == LogoutPrefs(m)
  {
  }

  class SessionManager {
    const storage: SecureStorage

    constructor (storage: SecureStorage)
      ensures this.storage == storage
    {
      this.storage := storage;
    }

    method SaveSession(token: string, userId: string, name: string, email: string)
      modifies storage
      ensures storage.prefs == SaveSessionPrefs(old(storage.prefs), token, userId, name, email)
    {
      storage.StoreString(AUTH_TOKEN, token);
      storage.StoreString(USER_ID, userId);
      storage.StoreString(USER_NAME, name);
      storage.StoreString(USER_EMAIL, email);
      storage.StoreBoolean(IS_LOGGED_IN, true);
    }

    function GetToken(): Option<string>
      reads storage
    {
      StoredToken(storage.prefs)
    }

    function GetUserId(): Option<string>
      reads storage
    {
      StoredUserId(storage.prefs)
    }

    function GetUserName(): Option<string>
      reads storage
    {
      StoredUserName(storage.prefs)
    }

    function GetUserEmail(): Option<string>
      reads storage
    {
      StoredUserEmail(storage.prefs)
    }

    predicate IsLoggedIn()
      reads storage
    {
      LoggedIn(storage.prefs)
    }

    method Logout()
      modifies storage
      ensures storage.prefs == LogoutPrefs(old(storage.prefs))
    {
      storage.Remove(AUTH_TOKEN);
      storage.Remove(USER_ID);
      storage.Remove(USER_NAME);
      storage.Remove(USER_EMAIL);
      storage.StoreBoolean(IS_LOGGED_IN, false);
    }

    /** `getSessionData`: the non-empty session strings, each under its key; never the flag. */
    method GetSessionData() returns (data: map<string, string>)
      ensures forall k :: k in data <==> k in SessionFields && storage.GetString(k) != ""
      ensures forall k :: k in data ==> data[k] == storage.GetString(k)
      ensures IS_LOGGED_IN !in data
    {
      data := map[];
      var token := storage.GetString(AUTH_TOKEN);
      if token != "" { data := data[AUTH_TOKEN := token]; }
      var userId := storage.GetString(USER_ID);
      if userId != "" { data := data[USER_ID := userId]; }
      var name := storage.GetString(USER_NAME);
      if name != "" { data := data[USER_NAME := name]; }
      var email := storage.GetString(USER_EMAIL);
      if email != "" { data := data[USER_EMAIL := email]; }
    }

    predicate IsSessionValid()
      reads storage
    {
      SessionValid(storage.prefs)
    }
  }
}
