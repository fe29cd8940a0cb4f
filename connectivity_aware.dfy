/**
 * The branch selection of `ConnectivityAware` and `ApiResultHandler`: which
 * of the network error screen, the content, the content with an error
 * dialog, the loader or nothing a result is shown as, and the dialog text.
 * Layout is not modelled.
 */
module ResultViews {
  import opened Wrappers
  import opened Http
  import opened ApiResults
  import opened Connectivity
  import opened SessionExpiry

  const AuthErrorText := "Authentication error. Please login again."
  const UnexpectedErrorText := "An unexpected error occurred."

  /** What a composition shows. `ErrorDialog` is the content with no data plus the alert. */
  datatype View<T> =
    | NetworkErrorScreen
    | Content(data: Option<T>)
    | ErrorDialog(message: string)
    | Loader
    | Blank

  /** The alert's text: fixed for AUTH_ERROR, otherwise the error's message or a fallback when it is empty. */
  function ApiErrorMessage<T>(e: ApiResult<T>): (text: string)
    requires e.Error?
    ensures text != ""
    ensures e.errorType == AuthError ==> text == AuthErrorText
    ensures e.errorType != AuthError && e.message != "" ==> text == e.message
    ensures e.errorType != AuthError && e.message == "" ==> text == UnexpectedErrorText
  {
    if e.errorType == AuthError then AuthErrorText
    else if e.message == "" then UnexpectedErrorText
    else e.message
  }

  /** Whether an error is shown as the full-screen network error rather than a dialog. */
  predicate ShowsNetworkScreen<T>(e: ApiResult<T>)
    requires e.Error?
  {
    e.errorType == Network
  }

  /** `ConnectivityAware`: the connectivity check first, then the result; a null result shows content with no data. */
  function ConnectivityAwareView<T>(isConnected: bool, result: Option<ApiResult<T>>): (v: View<T>)
    ensures v.NetworkErrorScreen? <==>
              !isConnected || (result.Some? && result.value.Error? && ShowsNetworkScreen(result.value))
    ensures isConnected && result.Some? && result.value.Success? ==> v == Content(Some(result.value.data))
    ensures v.ErrorDialog? <==> isConnected && result.Some? && result.value.Error? && !ShowsNetworkScreen(result.value)
    ensures v.ErrorDialog? ==> v.message == ApiErrorMessage(result.value)
    ensures v.Loader? <==> isConnected && result == Some(Loading)
    ensures v == Content(None) <==> isConnected && (result.None? || result == Some(Initial))
    ensures !v.Blank?
  {
    if !isConnected then NetworkErrorScreen
    else match result
      case Some(Success(d)) => Content(Some(d))
      case Some(Error(_, _, errorType)) =>
        if errorType == Network then NetworkErrorScreen else ErrorDialog(ApiErrorMessage(result.value))
      case Some(Loading) => Loader
      case _ => Content(None)
  }

  /** `ApiResultHandler`: the same selection without the connectivity check; `Initial` shows nothing. */
  function ApiResultHandlerView<T>(result: ApiResult<T>): (v: View<T>)
    ensures v.Blank? <==> result.Initial?
  {
    match result
    case Success(d) => Content(Some(d))
    case Error(_, _, errorType) =>
      if errorType == Network then NetworkErrorScreen else ErrorDialog(ApiErrorMessage(result))
    case Loading => Loader
    case Initial => Blank
  }

  /** The two composables agree on every result except `Initial`, when connected. */
  lemma HandlerAgreesWhenConnected<T>(result: ApiResult<T>)
    ensures !result.Initial? ==> ApiResultHandlerView(result) == ConnectivityAwareView(true, Some(result))
    ensures result.Initial? ==> ApiResultHandlerView(result) == Blank &&
                                ConnectivityAwareView(true, Some(result)) == Content(None)
  {
  }

  /**
   * A timed-out call counts as a network error for `isNetworkError`, yet
   * these screens show it as a dialog rather than the network error screen.
   */
  lemma TimeoutIsDialogHere<T>()
    ensures IsNetworkError(Terminal<T>(Thrown(SocketTimeout)))
    ensures ConnectivityAwareView(true, Some(Terminal<T>(Thrown(SocketTimeout)))) == ErrorDialog(TimedOutMessage)
    ensures ApiResultHandlerView(Terminal<T>(Thrown(SocketTimeout))) == ErrorDialog(TimedOutMessage)
  {
  }

  /**
   * A 401 or 403 that reaches `safeApiCall` as a status code shows the
   * authentication dialog; a 401 turned into an exception by
   * `SessionExpiryInterceptor` shows the network error screen instead.
   */
  lemma UnauthorizedViews<T>(code: int, body: Option<T>, resp: RawResponse, convert: RawResponse -> Option<T>)
    requires code == 401 || code == 403
    requires resp.code == 401
    ensures ApiResultHandlerView(Terminal(Response(code, body))) == ErrorDialog(AuthErrorText)
    ensures ApiResultHandlerView(Terminal(AsOutcome(Decide(resp), convert))) == NetworkErrorScreen
  {
    UnauthorizedSurfacesAsNetworkError(resp, convert);
  }

  /** The remembered `showApiErrorDialog` / `apiErrorMessage` of one composable. */
  class ErrorDialogState {
    var showing: bool
    var message: string
    /** How many times the dialog's retry has called `onRetry`. */
    var retries: nat

    constructor ()
      ensures !showing && message == "" && retries == 0
    {
      showing := false;
      message := "";
      retries := 0;
    }

    /**
     * One composition. A dialog-worthy error sets the text and raises the
     * flag every time, so the flag is up after any composition that shows
     * such an error, whatever it was before; other results leave both alone.
     */
    method Compose<T>(isConnected: bool, result: Option<ApiResult<T>>)
      modifies this
      ensures ConnectivityAwareView(isConnected, result).ErrorDialog? ==>
                showing && message == ConnectivityAwareView(isConnected, result).message
      ensures !ConnectivityAwareView(isConnected, result).ErrorDialog? ==>
                showing == old(showing) && message == old(message)
      ensures retries == old(retries)
    {
      if isConnected && result.Some? && result.value.Error? && result.value.errorType != Network {
        message := ApiErrorMessage(result.value);
        showing := true;
      }
    }

    method Dismiss()
      modifies this
      ensures !showing && message == old(message) && retries == old(retries)
    {
      showing := false;
    }

    method Retry()
      modifies this
      ensures !showing && message == old(message) && retries == old(retries) + 1
    {
      showing := false;
      retries := retries + 1;
    }

    /**
     * Dismissing changes the flag the composition reads, so it composes
     * again; while the result is still a dialog-worthy error, the dialog is
     * back up at once.
     */
    method DismissAndRecompose<T>(isConnected: bool, result: Option<ApiResult<T>>)
      modifies this
      ensures ConnectivityAwareView(isConnected, result).ErrorDialog? ==> showing
      ensures !ConnectivityAwareView(isConnected, result).ErrorDialog? ==> !showing
      ensures message == if ConnectivityAwareView(isConnected, result).ErrorDialog?
                         then ConnectivityAwareView(isConnected, result).message else old(message)
      ensures retries == old(retries)
    {
      Dismiss();
      Compose(isConnected, result);
    }
  }
}
