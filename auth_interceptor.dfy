/**
 * `AuthInterceptor`: before a request goes out, read the token once from
 * the session and, when there is one, append a bearer `Authorization`
 * header; then forward the request once and return its response.
 */
module AuthInterceptor {
  import opened Wrappers
  import opened KotlinText
  import opened Http
  import opened Storage
  import opened StorageKeys
  import opened Session

  /** The request as the interceptor's builder leaves it for a given token. */
  function Authorize(token: Option<string>, req: Request): (fwd: Request)
    ensures fwd.verb == req.verb && fwd.url == req.url
    ensures |fwd.headers| == |req.headers| + (if token.Some? then 1 else 0)
    ensures fwd.headers[..|req.headers|] == req.headers
    ensures token.Some? ==> fwd.headers[|req.headers|] == Header("Authorization", "Bearer " + token.value)
  {
    match token
    case Some(t) => req.(headers := req.headers + [Header("Authorization", "Bearer " + t)])
    case None => req
  }

  /**
   * `intercept`: the token is read from the store as it is now, exactly
   * once; the one forwarded request and its unchanged response are returned.
   */
  function Intercept(m: Prefs, req: Request, proceed: Request -> RawResponse): (r: (Request, RawResponse))
    // one header is added exactly when a non-empty token is stored, and it carries that token
    ensures |r.0.headers| == |req.headers| + (if StringOr(m, AUTH_TOKEN, "") != "" then 1 else 0)
    // method, URL and every existing header are forwarded as they came
    ensures r.0.verb == req.verb && r.0.url == req.url && r.0.headers[..|req.headers|] == req.headers
    ensures StringOr(m, AUTH_TOKEN, "") != "" ==>
              r.0.headers[|req.headers|] == Header("Authorization", "Bearer " + StringOr(m, AUTH_TOKEN, ""))
    // the response is the one the chain gives for the forwarded request
    ensures r.1 == proceed(r.0)
  {
    var token := StoredToken(m);
    var fwd := Authorize(token, req);
    (fwd, proceed(fwd))
  }

  /** An empty or absent stored token forwards the request exactly as it came. */
  lemma NoTokenNoHeader(m: Prefs, req: Request, proceed: Request -> RawResponse)
    requires StringOr(m, AUTH_TOKEN, "") == ""
    ensures Intercept(m, req, proceed) == (req, proceed(req))
  {
  }

  /** A stored token `t` is sent as `Authorization: Bearer t`. */
  lemma StoredTokenIsSent(m: Prefs, req: Request, proceed: Request -> RawResponse)
    requires StringOr(m, AUTH_TOKEN, "") != ""
    ensures var fwd := Intercept(m, req, proceed).0;
            Header("Authorization", "Bearer " + StringOr(m, AUTH_TOKEN, "")) in fwd.headers
  {
    var fwd := Intercept(m, req, proceed).0;
    assert fwd.headers[|req.headers|] == Header("Authorization", "Bearer " + StringOr(m, AUTH_TOKEN, ""));
  }

  /**
   * The interceptor tests for an empty token, not a blank one: a
   * whitespace-only token is still sent although `isLoggedIn` is false.
   */
  lemma BlankTokenStillSent(m: Prefs, req: Request, proceed: Request -> RawResponse)
    requires StringOr(m, AUTH_TOKEN, "") == " "
    ensures !LoggedIn(m)
    ensures |Intercept(m, req, proceed).0.headers| == |req.headers| + 1
  {
  }
}
