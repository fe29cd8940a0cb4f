/**
 * `SessionExpiryInterceptor`: after a response arrives, a 401 logs the
 * user out and raises an `IOException`; every other response is passed on.
 * The logout, launched on a background scope in the source, is modelled as
 * completing before the exception is raised.
 */
module SessionExpiry {
  import opened Wrappers
  import opened Http
  import opened ApiResults
  import opened Storage
  import opened Session

  const SessionExpiredMessage := "Session expired. Please login again."

  /** What `intercept` does with a response: hand it on, or raise an exception. */
  datatype Interception = Proceeded(response: RawResponse) | Raised(failure: Failure)

  /** The decision on the status code. Only 401 is intercepted; 403 and all others pass. */
  function Decide(resp: RawResponse): (r: Interception)
    ensures r.Proceeded? <==> resp.code != 401
    ensures r.Proceeded? ==> r.response == resp
    ensures r.Raised? ==> r.failure == OtherIO(Some(SessionExpiredMessage))
  {
    if resp.code == 401 then Raised(OtherIO(Some(SessionExpiredMessage))) else Proceeded(resp)
  }

  /**
   * What `safeApiCall` receives: the converted response, or the exception.
   * `convert` is Retrofit's body conversion.
   */
  function AsOutcome<T>(r: Interception, convert: RawResponse -> Option<T>): Outcome<T> {
    match r
    case Proceeded(resp) => Response(resp.code, convert(resp))
    case Raised(f) => Thrown(f)
  }

  /**
   * A 401 seen by this interceptor reaches the caller as a NETWORK error
   * with no code, never as AUTH_ERROR: the exception is classified by
   * `safeApiCall`'s `IOException` clause before its own 401 check can run.
   */
  lemma UnauthorizedSurfacesAsNetworkError<T>(resp: RawResponse, convert: RawResponse -> Option<T>)
    requires resp.code == 401
    ensures Terminal(AsOutcome(Decide(resp), convert))
            == Error("Network error: " + SessionExpiredMessage, None, Network)
  {
    assert AsOutcome(Decide(resp), convert) == Thrown(OtherIO(Some(SessionExpiredMessage)));
  }

  /**
   * Behind this interceptor no emission carries code 401, while a 403 still
   * arrives as AUTH_ERROR with its code.
   */
  lemma NoUnauthorizedCodeBehindInterceptor<T>(resp: RawResponse, convert: RawResponse -> Option<T>)
    ensures Terminal(AsOutcome(Decide(resp), convert)).Error? ==>
              Terminal(AsOutcome(Decide(resp), convert)).code != Some(401)
    ensures resp.code == 403 ==>
              Terminal(AsOutcome(Decide(resp), convert)).errorType == AuthError &&
              Terminal(AsOutcome(Decide(resp), convert)).code == Some(403)
  {
  }

  class SessionExpiryInterceptor {
    const session: SessionManager

    constructor (session: SessionManager)
      ensures this.session == session
    {
      this.session := session;
    }

    /** `intercept`: forward once; on 401 log out and raise, otherwise return the response. */
    method Intercept(req: Request, proceed: Request -> RawResponse) returns (r: Interception)
      modifies session.storage
      ensures r == Decide(proceed(req))
      ensures session.storage.prefs ==
                if proceed(req).code == 401 then LogoutPrefs(old(session.storage.prefs))
                else old(session.storage.prefs)
      ensures proceed(req).code == 401 ==> !session.IsLoggedIn()
    {
      var resp := proceed(req);
      if resp.code == 401 {
        session.Logout();
        LogoutEndsSession(old(session.storage.prefs));
        r := Raised(OtherIO(Some(SessionExpiredMessage)));
      } else {
        r := Proceeded(resp);
      }
    }
  }
}
