/**
 * `AuthViewModel`: the login state, the logout event flag, the one-shot UI
 * events and the extra session state (`USER_STATE`, timestamps, remembered
 * email) it keeps in the secure store next to the session. `SessionManager`
 * and `SecureStorage` are the same singletons the repository uses, so the
 * store is reached through the repository's session. The wall clock is a
 * `now` parameter. The JSON codec of `UserState` is a pair of functions
 * that give `None` where kotlinx.serialization throws; `UserState` is not
 * annotated `@Serializable`, so the app's own codec fails both ways, and the
 * lemmas below state what happens under it and under a codec that works.
 */
module AuthView {
  import opened Wrappers
  import opened KotlinText
  import opened Http
  import opened ApiResults
  import opened Storage
  import opened StorageKeys
  import opened Session
  import opened AuthRepository

  datatype AuthUiEvent = LoginSuccess | LogoutSuccess | SessionExpired | Unauthorized | ErrorEvent(message: string)

  datatype UserState = UserState(isLoggedIn: bool, name: string, email: string, userId: string)

  /** One logout emission as seen by the store: the repository's hook, then `clearSessionState`. */
  function LogoutStep(m: Prefs): (m': Prefs)
    ensures USER_STATE !in m'
    ensures IS_LOGGED_IN in m' && m'[IS_LOGGED_IN] == BoolValue(false)
    ensures m'.Keys == m.Keys - SessionKeys - {USER_STATE} + {IS_LOGGED_IN}
    ensures forall k :: k in m && k !in SessionKeys && k != USER_STATE ==> m'[k] == m[k]
  {
    LogoutPrefs(m) - {USER_STATE}
  }

  lemma LogoutStepIdempotent(m: Prefs)
    ensures LogoutStep(LogoutStep(m)) == LogoutStep(m)
  {
  }

  /** The store after the view model's `logout`: the timestamp first, then the emissions. */
  function ViewModelLogoutPrefs(m: Prefs, now: int64): Prefs {
    LogoutStep(m[LAST_LOGOUT_TIMESTAMP := LongValue(now)])
  }

  /** The user state `storeSessionState` builds, with the user id read from the store. */
  function SessionUserState(m: Prefs, email: string, name: string): UserState {
    UserState(true, name, email, StringOr(m, USER_ID, ""))
  }

  /**
   * The store after `storeSessionState(email, name)` at time `now`: the
   * three plain writes, then the user state when it can be encoded; when
   * encoding throws, the store is left after the three writes.
   */
  function SessionStatePrefs(m: Prefs, now: int64, email: string, name: string, encode: UserState -> Option<string>): Prefs {
    var m1 := m[LAST_LOGIN_TIMESTAMP := LongValue(now)]
               [LAST_LOGGED_IN_EMAIL := StringValue(email)]
               [USER_NAME := StringValue(name)];
    var json := encode(SessionUserState(m, email, name));
    if json.Some? then m1[USER_STATE := StringValue(json.value)] else m1
  }

  /** `getTimeSinceLastLogin`: null unless a positive timestamp is stored; else the 64-bit difference. */
  function TimeSinceLastLogin(m: Prefs, now: int64): (r: Option<int64>)
    ensures r.None? <==> LongOr(m, LAST_LOGIN_TIMESTAMP, 0) <= 0
    ensures r.Some? ==> r.value as int % 0x1_0000_0000_0000_0000
                        == (now as int - LongOr(m, LAST_LOGIN_TIMESTAMP, 0) as int) % 0x1_0000_0000_0000_0000
    ensures r.Some? && now as int - LongOr(m, LAST_LOGIN_TIMESTAMP, 0) as int >= -0x8000_0000_0000_0000 ==>
              r.value as int == now as int - LongOr(m, LAST_LOGIN_TIMESTAMP, 0) as int
  {
    var last := LongOr(m, LAST_LOGIN_TIMESTAMP, 0);
    if last > 0 then Some(WrapLong(now as int - last as int)) else None
  }

  /** The condition under which `restoreSession` ends the session. */
  predicate RestoreExpires(m: Prefs, decode: string -> Option<UserState>) {
    ObjectOr(m, USER_STATE, decode).Some? && BoolOr(m, IS_LOGGED_IN, false) && !SessionValid(m)
  }

  /**
   * The view model's logout ends the session, drops `USER_STATE` and records
   * the logout time, and keeps the remembered email and the last login time.
   */
  lemma ViewModelLogoutKeepsHistory(m: Prefs, now: int64, later: int64, decode: string -> Option<UserState>)
    ensures var m' := ViewModelLogoutPrefs(m, now);
            && !LoggedIn(m') && StoredToken(m') == None && !BoolOr(m', IS_LOGGED_IN, true)
            && ObjectOr(m', USER_STATE, decode) == None
            && LongOr(m', LAST_LOGOUT_TIMESTAMP, 0) == now
            && StringOr(m', LAST_LOGGED_IN_EMAIL, "") == StringOr(m, LAST_LOGGED_IN_EMAIL, "")
            && TimeSinceLastLogin(m', later) == TimeSinceLastLogin(m, later)
  {
    LogoutEndsSession(m[LAST_LOGOUT_TIMESTAMP := LongValue(now)]);
  }

  /**
   * For a serializable user state: after `storeSessionState` the getters
   * read back what was stored, given that the codec round-trips the user
   * state it wrote.
   */
  lemma SessionStateReadBack(m: Prefs, now: int64, later: int64, email: string, name: string,
                             encode: UserState -> Option<string>, decode: string -> Option<UserState>)
    requires var us := SessionUserState(m, email, name);
             encode(us).Some? && encode(us).value != "" && decode(encode(us).value) == Some(us)
    ensures var m' := SessionStatePrefs(m, now, email, name, encode);
            && ObjectOr(m', USER_STATE, decode) == Some(UserState(true, name, email, StringOr(m, USER_ID, "")))
            && StringOr(m', LAST_LOGGED_IN_EMAIL, "") == email
            && StringOr(m', USER_NAME, "") == name
            && (TimeSinceLastLogin(m', later).Some? <==> now > 0)
            && StoredToken(m') == StoredToken(m)
  {
  }

  /**
   * With the app's `UserState`, which has no serializer, `storeSessionState`
   * throws after the three plain writes: the login time, email and name are
   * stored, and `USER_STATE` keeps whatever it held before.
   */
  lemma UnserializableSessionStateStopsEarly(m: Prefs, now: int64, later: int64, email: string, name: string,
                                             encode: UserState -> Option<string>)
    requires forall us :: encode(us).None?
    ensures var m' := SessionStatePrefs(m, now, email, name, encode);
            && (USER_STATE in m' <==> USER_STATE in m)
            && (USER_STATE in m ==> m'[USER_STATE] == m[USER_STATE])
            && StringOr(m', LAST_LOGGED_IN_EMAIL, "") == email
            && StringOr(m', USER_NAME, "") == name
            && (TimeSinceLastLogin(m', later).Some? <==> now > 0)
  {
    assert encode(SessionUserState(m, email, name)).None?;
  }

  /**
   * With a serializable user state, the session saved with an empty token
   * plus a stored user state is the state `restoreSession` treats as expired.
   */
  lemma EmptyTokenSessionIsExpiredOnRestore(m: Prefs, userId: string, name: string, email: string,
                                            now: int64, encode: UserState -> Option<string>, decode: string -> Option<UserState>)
    requires var us := UserState(true, name, email, userId);
             encode(us).Some? && encode(us).value != "" && decode(encode(us).value) == Some(us)
    ensures RestoreExpires(SessionStatePrefs(SaveSessionPrefs(m, "", userId, name, email), now, email, name, encode), decode)
  {
    var m0 := SaveSessionPrefs(m, "", userId, name, email);
    assert SessionUserState(m0, email, name) == UserState(true, name, email, userId);
    SessionStateReadBack(m0, now, now, email, name, encode, decode);
  }

  /**
   * With the app's `UserState`, which has no serializer, `getObject` never
   * yields a user state, so `getUserState` is always null and
   * `restoreSession` never ends a session, whatever the store holds.
   */
  lemma UnserializableUserStateNeverRestored(m: Prefs, decode: string -> Option<UserState>)
    requires forall json :: decode(json).None?
    ensures ObjectOr(m, USER_STATE, decode) == None
    ensures !RestoreExpires(m, decode)
  {
    NoSerializerReadsAsNull(m, USER_STATE, decode);
  }

  class AuthViewModel {
    const repository: AuthRepositoryImpl
    const encode: UserState -> Option<string>
    const decode: string -> Option<UserState>
    var loginState: ApiResult<()>
    /** Every value `loginState` has taken, in order. */
    var loginStates: seq<ApiResult<()>>
    var logoutEvent: bool
    /** Every `AuthUiEvent` emitted, in order. */
    var uiEvents: seq<AuthUiEvent>

    function Stored(): Prefs
      reads repository.session.storage
    {
      repository.session.storage.prefs
    }

    constructor (repository: AuthRepositoryImpl, encode: UserState -> Option<string>, decode: string -> Option<UserState>)
      ensures this.repository == repository && this.encode == encode && this.decode == decode
      ensures loginState == Initial && loginStates == [] && !logoutEvent && uiEvents == []
    {
      this.repository := repository;
      this.encode := encode;
      this.decode := decode;
      loginState := Initial;
      loginStates := [];
      logoutEvent := false;
      uiEvents := [];
    }

    /**
     * `login`: `Loading`, then `Success(Unit)`, then `LoginSuccess`. The
     * credentials are not used and neither the network nor the store is touched.
     */
    method Login(email: string, password: string)
      modifies this
      ensures loginState == Success(())
      ensures loginStates == old(loginStates) + [Loading, Success(())]
      ensures uiEvents == old(uiEvents) + [LoginSuccess]
      ensures logoutEvent == old(logoutEvent)
    {
      loginState := Loading;
      loginStates := loginStates + [Loading];
      loginState := Success(());
      loginStates := loginStates + [Success(())];
      uiEvents := uiEvents + [LoginSuccess];
    }

    /**
     * `storeSessionState`: timestamp, email, name, then the user state with
     * the stored user id; `thrown` reports the exception `storeObject`
     * raises when the user state cannot be encoded.
     */
    method StoreSessionState(now: int64, email: string, name: string) returns (thrown: bool)
      modifies repository.session.storage
      ensures thrown <==> encode(SessionUserState(old(Stored()), email, name)).None?
      ensures Stored() == SessionStatePrefs(old(Stored()), now, email, name, encode)
    {
      var storage := repository.session.storage;
      ghost var m := Stored();
      storage.StoreLong(LAST_LOGIN_TIMESTAMP, now);
      storage.StoreString(LAST_LOGGED_IN_EMAIL, email);
      storage.StoreString(USER_NAME, name);
      var userState := UserState(true, name, email, storage.GetString(USER_ID));
      assert userState == SessionUserState(m, email, name);
      thrown := storage.StoreObject(USER_STATE, userState, encode);
    }

    /** `clearSessionState`: only `USER_STATE` is removed. */
    method ClearSessionState()
      modifies repository.session.storage
      ensures Stored() == old(Stored()) - {USER_STATE}
    {
      repository.session.storage.Remove(USER_STATE);
    }

    /**
     * `logout`: record the time, then for each emission of the repository's
     * logout (two, whatever the outcome) clear the session, raise the event
     * flag, drop `USER_STATE` and emit `LogoutSuccess`.
     */
    method Logout(now: int64, o: Outcome<()>)
      modifies this, repository.session.storage
      ensures Stored() == ViewModelLogoutPrefs(old(Stored()), now)
      ensures logoutEvent
      ensures uiEvents == old(uiEvents) + [LogoutSuccess, LogoutSuccess]
      ensures loginState == old(loginState) && loginStates == old(loginStates)
    {
      repository.session.storage.StoreLong(LAST_LOGOUT_TIMESTAMP, now);
      var m1 := Stored();
      var es := SafeApiCall(o);
      var i := 0;
      while i < |es|
        invariant 0 <= i <= |es|
        invariant Stored() == if i == 0 then m1 else LogoutStep(m1)
        invariant i > 0 ==> logoutEvent
        invariant uiEvents == old(uiEvents) + seq(i, _ => LogoutSuccess)
        invariant loginState == old(loginState) && loginStates == old(loginStates)
      {
        repository.OnLogoutEmission(es[i]);
        logoutEvent := true;
        ClearSessionState();
        if i > 0 {
          LogoutStepIdempotent(m1);
        }
        assert seq(i + 1, _ => LogoutSuccess) == seq(i, _ => LogoutSuccess) + [LogoutSuccess];
        uiEvents := uiEvents + [LogoutSuccess];
        i := i + 1;
      }
      assert seq(2, _ => LogoutSuccess) == [LogoutSuccess, LogoutSuccess];
    }

    /** `resetLogoutEvent`: only the flag changes. */
    method ResetLogoutEvent()
      modifies this
      ensures !logoutEvent
      ensures loginState == old(loginState) && loginStates == old(loginStates) && uiEvents == old(uiEvents)
    {
      logoutEvent := false;
    }

    /**
     * `checkAuthStatus`: `cachedLoggedIn` is the current value of the
     * `isLoggedIn` state flow, which starts at false before it has observed
     * the store. When it is false: `Unauthorized`, and the logout that
     * `logout()` launches runs after it.
     */
    method CheckAuthStatus(cachedLoggedIn: bool, now: int64, o: Outcome<()>)
      modifies this, repository.session.storage
      ensures loginState == old(loginState) && loginStates == old(loginStates)
      ensures cachedLoggedIn ==>
                Stored() == old(Stored()) && uiEvents == old(uiEvents) && logoutEvent == old(logoutEvent)
      ensures !cachedLoggedIn ==>
                Stored() == ViewModelLogoutPrefs(old(Stored()), now) && logoutEvent &&
                uiEvents == old(uiEvents) + [Unauthorized, LogoutSuccess, LogoutSuccess]
    {
      if !cachedLoggedIn {
        uiEvents := uiEvents + [Unauthorized];
        Logout(now, o);
      }
    }

    /** `handleSessionExpiry`: `SessionExpired`, and the launched logout after it. */
    method HandleSessionExpiry(now: int64, o: Outcome<()>)
      modifies this, repository.session.storage
      ensures Stored() == ViewModelLogoutPrefs(old(Stored()), now) && logoutEvent
      ensures uiEvents == old(uiEvents) + [SessionExpired, LogoutSuccess, LogoutSuccess]
      ensures loginState == old(loginState) && loginStates == old(loginStates)
    {
      uiEvents := uiEvents + [SessionExpired];
      Logout(now, o);
    }

    /**
     * `restoreSession`: a decodable user state with the logged-in flag set
     * but an empty token ends the session: `SessionExpired`, and the launched
     * logout after it. In every other case nothing changes.
     */
    method RestoreSession(now: int64, o: Outcome<()>)
      modifies this, repository.session.storage
      ensures loginState == old(loginState) && loginStates == old(loginStates)
      ensures RestoreExpires(old(Stored()), decode) ==>
                Stored() == ViewModelLogoutPrefs(old(Stored()), now) && logoutEvent &&
                uiEvents == old(uiEvents) + [SessionExpired, LogoutSuccess, LogoutSuccess]
      ensures !RestoreExpires(old(Stored()), decode) ==>
                Stored() == old(Stored()) && uiEvents == old(uiEvents) && logoutEvent == old(logoutEvent)
    {
      var storage := repository.session.storage;
      var userState := storage.GetObject(USER_STATE, decode);
      var isLoggedIn := storage.GetBoolean(IS_LOGGED_IN);
      if userState.Some? && isLoggedIn {
        var isValid := repository.session.IsSessionValid();
        if !isValid {
          uiEvents := uiEvents + [SessionExpired];
          Logout(now, o);
        }
      }
    }

    /** `getLastLoggedInEmail`: the remembered email, `""` when there is none. */
    function GetLastLoggedInEmail(): (email: string)
      reads repository.session.storage
      ensures LAST_LOGGED_IN_EMAIL !in Stored() ==> email == ""
      ensures LAST_LOGGED_IN_EMAIL in Stored() && Stored()[LAST_LOGGED_IN_EMAIL].StringValue? ==>
                email == Stored()[LAST_LOGGED_IN_EMAIL].s
    {
      repository.session.storage.GetString(LAST_LOGGED_IN_EMAIL, "")
    }

    /** `getTimeSinceLastLogin`, with the clock read as `now`. */
    function GetTimeSinceLastLogin(now: int64): (elapsed: Option<int64>)
      reads repository.session.storage
      ensures elapsed.None? <==> LongOr(Stored(), LAST_LOGIN_TIMESTAMP, 0) <= 0
      ensures elapsed.Some? ==>
                elapsed.value as int % 0x1_0000_0000_0000_0000
                == (now as int - LongOr(Stored(), LAST_LOGIN_TIMESTAMP, 0) as int) % 0x1_0000_0000_0000_0000
      ensures elapsed.Some? && now as int - LongOr(Stored(), LAST_LOGIN_TIMESTAMP, 0) as int >= -0x8000_0000_0000_0000 ==>
                elapsed.value as int == now as int - LongOr(Stored(), LAST_LOGIN_TIMESTAMP, 0) as int
    {
      TimeSinceLastLogin(Stored(), now)
    }

    /** `getUserState`: the decoded `USER_STATE`, null when it is empty, absent or undecodable. */
    function GetUserState(): (state: Option<UserState>)
      reads repository.session.storage
      ensures StringOr(Stored(), USER_STATE, "") == "" ==> state == None
      ensures state.Some? ==> decode(StringOr(Stored(), USER_STATE, "")) == state
      ensures StringOr(Stored(), USER_STATE, "") != "" && decode(StringOr(Stored(), USER_STATE, "")).Some? ==>
                state == decode(StringOr(Stored(), USER_STATE, ""))
    {
      repository.session.storage.GetObject(USER_STATE, decode)
    }
  }
}
