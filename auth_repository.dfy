/**
 * `AuthRepositoryImpl`: login and logout wrap one `safeApiCall` each and
 * hook the session store into every emission (`onEach`); session expiry
 * clears the session and reports success. The HTTP call of each operation
 * is given by its outcome.
 */
module AuthRepository {
  import opened Wrappers
  import opened KotlinText
  import opened Http
  import opened ApiResults
  import opened Storage
  import opened StorageKeys
  import opened Session

  datatype User = User(id: string, name: string, email: string)

  /** The body of a successful `auth/login` response. */
  datatype AuthResponse = AuthResponse(token: string, user: User)

  /** The `onEach` hook of `login` on one emission: save the session on `Success`, else nothing. */
  function LoginEffect(m: Prefs, r: ApiResult<AuthResponse>): Prefs {
    if r.Success? then
      SaveSessionPrefs(m, r.data.token, r.data.user.id, r.data.user.name, r.data.user.email)
    else m
  }

  /** The store once the hook has seen each emission of `es`, in order. */
  function CollectLogin(m: Prefs, es: seq<ApiResult<AuthResponse>>): Prefs
    decreases |es|
  {
    if es == [] then m else LoginEffect(CollectLogin(m, es[..|es| - 1]), es[|es| - 1])
  }

  /** The store once `logout`'s hook has run on each emission of `es`. */
  function CollectLogout<T>(m: Prefs, es: seq<ApiResult<T>>): Prefs
    decreases |es|
  {
    if es == [] then m else LogoutPrefs(CollectLogout(m, es[..|es| - 1]))
  }

  /** Emissions without a `Success` leave the store as it was. */
  lemma {:induction false} LoginWithoutSuccessKeepsStore(m: Prefs, es: seq<ApiResult<AuthResponse>>)
    requires forall i :: 0 <= i < |es| ==> !es[i].Success?
    ensures CollectLogin(m, es) == m
    decreases |es|
  {
    if es != [] {
      LoginWithoutSuccessKeepsStore(m, es[..|es| - 1]);
    }
  }

  /**
   * Collecting `login` saves the session from the response body exactly
   * when the call succeeds, and otherwise leaves the store unchanged.
   */
  lemma LoginSavesOnlyOnSuccess(m: Prefs, o: Outcome<AuthResponse>)
    ensures Terminal(o).Success? ==>
              var a := o.body.value;
              CollectLogin(m, SafeApiCall(o)) == SaveSessionPrefs(m, a.token, a.user.id, a.user.name, a.user.email)
    ensures !Terminal(o).Success? ==> CollectLogin(m, SafeApiCall(o)) == m
  {
    var es := SafeApiCall(o);
    assert es[..1] == [Loading];
    assert CollectLogin(m, es[..1]) == m;
  }

  /** A timed-out login keeps the previous session state. */
  lemma TimedOutLoginKeepsSession(m: Prefs)
    ensures CollectLogin(m, SafeApiCall<AuthResponse>(Thrown(SocketTimeout))) == m
    ensures Terminal<AuthResponse>(Thrown(SocketTimeout)).errorType == Timeout
  {
    LoginSavesOnlyOnSuccess(m, Thrown(SocketTimeout));
  }

  /** A 200 response with token "T" for user "1": the session then reports that token and user. */
  lemma LoginScenario(m: Prefs)
    ensures var m' := CollectLogin(m, SafeApiCall(Response(200, Some(AuthResponse("T", User("1", "A", "a@b.com"))))));
            StoredToken(m') == Some("T") && StoredUserId(m') == Some("1") && LoggedIn(m')
  {
    LoginSavesOnlyOnSuccess(m, Response(200, Some(AuthResponse("T", User("1", "A", "a@b.com")))));
    assert !IsWhitespace("T"[0]);
    SaveSessionLogsIn(m, "T", "1", "A", "a@b.com");
  }

  /** However many emissions there are, one or more, logout leaves the store as one `logout()` does. */
  lemma {:induction false} LogoutCollectClears<T>(m: Prefs, es: seq<ApiResult<T>>)
    requires |es| > 0
    ensures CollectLogout(m, es) == LogoutPrefs(m)
    decreases |es|
  {
    if |es| > 1 {
      LogoutCollectClears(m, es[..|es| - 1]);
      LogoutIdempotent(m);
    }
  }

  /** Whatever the logout call's outcome, the session is cleared afterwards. */
  lemma LogoutAlwaysClears<T>(m: Prefs, o: Outcome<T>)
    ensures CollectLogout(m, SafeApiCall(o)) == LogoutPrefs(m)
    ensures !LoggedIn(CollectLogout(m, SafeApiCall(o)))
  {
    LogoutCollectClears(m, SafeApiCall(o));
    LogoutEndsSession(m);
  }

  class AuthRepositoryImpl {
    const session: SessionManager

    constructor (session: SessionManager)
      ensures this.session == session
    {
      this.session := session;
    }

    method OnLoginEmission(r: ApiResult<AuthResponse>)
      modifies session.storage
      ensures session.storage.prefs == LoginEffect(old(session.storage.prefs), r)
    {
      if r.Success? {
        var a := r.data;
        session.SaveSession(a.token, a.user.id, a.user.name, a.user.email);
      }
    }

    /** `login`: every emission of the call is passed on unchanged, after the hook has seen it. */
    method Login(o: Outcome<AuthResponse>) returns (emitted: seq<ApiResult<AuthResponse>>)
      modifies session.storage
      ensures emitted == SafeApiCall(o)
      ensures session.storage.prefs == CollectLogin(old(session.storage.prefs), emitted)
    {
      var es := SafeApiCall(o);
      emitted := [];
      var i := 0;
      while i < |es|
        invariant 0 <= i <= |es|
        invariant emitted == es[..i]
        invariant session.storage.prefs == CollectLogin(old(session.storage.prefs), es[..i])
      {
        assert es[..i + 1][..i] == es[..i];
        OnLoginEmission(es[i]);
        emitted := emitted + [es[i]];
        i := i + 1;
      }
      assert es[..|es|] == es;
    }

    method OnLogoutEmission<T>(r: ApiResult<T>)
      modifies session.storage
      ensures session.storage.prefs == LogoutPrefs(old(session.storage.prefs))
    {
      session.Logout();
    }

    /** `logout`: the session is cleared on every emission, whatever the result. */
    method Logout(o: Outcome<()>) returns (emitted: seq<ApiResult<()>>)
      modifies session.storage
      ensures emitted == SafeApiCall(o)
      ensures session.storage.prefs == CollectLogout(old(session.storage.prefs), emitted)
    {
      var es := SafeApiCall(o);
      emitted := [];
      var i := 0;
      while i < |es|
        invariant 0 <= i <= |es|
        invariant emitted == es[..i]
        invariant session.storage.prefs == CollectLogout(old(session.storage.prefs), es[..i])
      {
        assert es[..i + 1][..i] == es[..i];
        OnLogoutEmission(es[i]);
        emitted := emitted + [es[i]];
        i := i + 1;
      }
      assert es[..|es|] == es;
    }

    /** `handleSessionExpiry`: clear the session, then emit one `Success(Unit)`. */
    method HandleSessionExpiry() returns (emitted: seq<ApiResult<()>>)
      modifies session.storage
      ensures emitted == [Success(())]
      ensures session.storage.prefs == LogoutPrefs(old(session.storage.prefs))
    {
      session.Logout();
      emitted := [Success(())];
    }

    /** `isSessionValid` forwards `isLoggedIn`: the blank-token test, not the empty-token one. */
    function IsSessionValid(): (valid: bool)
      reads session.storage
      ensures valid <==> !IsBlank(session.storage.GetString(AUTH_TOKEN))
      ensures valid ==> session.IsSessionValid()
    {
      session.IsLoggedIn()
    }
  }
}
