/**
 * The closed result type of every network call and `safeApiCall`, which
 * turns the outcome of one HTTP call into the emissions `[Loading, terminal]`.
 */
module ApiResults {
  import opened Wrappers
  import opened KotlinText
  import opened Http

  /** `ApiResult.ErrorType`. */
  datatype ErrorType = Network | Timeout | ApiError | AuthError | Unknown

  /**
   * `ApiResult<T>`. An `Error` built without `code` or `errorType` gets
   * `code = null` and `errorType = UNKNOWN`, as in the Kotlin data class.
   */
  datatype ApiResult<+T> =
    | Initial
    | Loading
    | Success(data: T)
    | Error(message: string, code: Option<int> := None, errorType: ErrorType := Unknown)
  {
    predicate IsTerminal() {
      Success? || Error?
    }
  }

  const NoInternetMessage := "No internet connection. Please check your network settings."
  const ConnectFailedMessage := "Failed to connect to server. Please check your network."
  const TimedOutMessage := "Connection timed out. Please try again."
  const NullBodyMessage := "Response body is null"
  const FailedCodePrefix := "API call failed with code: "

  /** A string template `"${m}"` where `m` may be null. */
  function Template(m: Option<string>): string {
    m.GetOr("null")
  }

  /** The status codes that `safeApiCall` reports as `AUTH_ERROR`. */
  predicate IsAuthCode(code: int) {
    code == 401 || code == 403
  }

  /**
   * The one terminal value `safeApiCall` emits after `Loading`, selected by
   * the order of its branches and catch clauses.
   */
  function Terminal<T>(o: Outcome<T>): (r: ApiResult<T>)
    ensures r.IsTerminal()
    ensures r.Success? <==> o.Response? && IsSuccessful(o.code) && o.body.Some?
    ensures r.Success? ==> r.data == o.body.value
    // a status code is reported exactly for a non-2xx response, together with its decimal rendering
    ensures r.Error? && r.code.Some? <==> o.Response? && !IsSuccessful(o.code)
    ensures r.Error? && r.code.Some? ==>
              r.code.value == o.code && r.message == FailedCodePrefix + IntToString(o.code)
    ensures r.Error? ==> (r.errorType == AuthError <==> o.Response? && IsAuthCode(o.code))
    ensures r.Error? ==> (r.errorType == ApiError <==>
              o.Response? && !IsAuthCode(o.code) && (!IsSuccessful(o.code) || o.body.None?))
    ensures r.Error? ==> (r.errorType == Timeout <==> o == Thrown(SocketTimeout))
    ensures r.Error? ==> (r.errorType == Network <==>
              o.Thrown? && (o.failure.UnknownHost? || o.failure.Connect? || o.failure.OtherIO?))
    ensures r.Error? ==> (r.errorType == Unknown <==> o.Thrown? && o.failure.Other?)
    // the message of every other error
    ensures o.Response? && IsSuccessful(o.code) && o.body.None? ==> r == Error(NullBodyMessage, None, ApiError)
    ensures o == Thrown(UnknownHost) ==> r.message == NoInternetMessage
    ensures o == Thrown(Connect) ==> r.message == ConnectFailedMessage
    ensures o == Thrown(SocketTimeout) ==> r.message == TimedOutMessage
    ensures o.Thrown? && o.failure.OtherIO? ==> r.message == "Network error: " + Template(o.failure.message)
    ensures o.Thrown? && o.failure.Other? ==> r.message == "Error: " + Template(o.failure.message)
  {
    match o
    case Response(code, body) =>
      if IsSuccessful(code) then
        match body
        case Some(b) => Success(b)
        case None => Error(NullBodyMessage, errorType := ApiError)
      else
        Error(FailedCodePrefix + IntToString(code), Some(code), if IsAuthCode(code) then AuthError else ApiError)
    case Thrown(e) =>
      match e
      case UnknownHost => Error(NoInternetMessage, errorType := Network)
      case Connect => Error(ConnectFailedMessage, errorType := Network)
      case SocketTimeout => Error(TimedOutMessage, errorType := Timeout)
      case OtherIO(m) => Error("Network error: " + Template(m), errorType := Network)
      case Other(m) => Error("Error: " + Template(m), errorType := Unknown)
  }

  /**
   * `safeApiCall`: the whole emission sequence of one call. It is exactly
   * `Loading` followed by one terminal value.
   */
  function SafeApiCall<T>(o: Outcome<T>): (es: seq<ApiResult<T>>)
    ensures |es| == 2 && es[0] == Loading && es[1] == Terminal(o)
    ensures forall i :: 0 <= i < |es| ==> (es[i].Loading? <==> i == 0)
    ensures forall i :: 0 <= i < |es| ==> (es[i].IsTerminal() <==> i == 1)
    ensures forall i :: 0 <= i < |es| ==> !es[i].Initial?
  {
    [Loading, Terminal(o)]
  }

  /** An exception never yields a status code, whatever the exception. */
  lemma ExceptionsCarryNoCode<T>(f: Failure)
    ensures Terminal<T>(Thrown(f)).Error? && Terminal<T>(Thrown(f)).code == None
  {
  }

  /** The reported code can be read back from the message of a non-2xx error. */
  lemma {:induction false} FailedCodeMessageDeterminesCode<T>(o1: Outcome<T>, o2: Outcome<T>)
    requires Terminal(o1).Error? && Terminal(o1).code.Some?
    requires Terminal(o2).Error? && Terminal(o2).code.Some?
    requires Terminal(o1).message == Terminal(o2).message
    ensures Terminal(o1).code == Terminal(o2).code
  {
    var p := FailedCodePrefix;
    assert IntToString(o1.code) == Terminal(o1).message[|p|..];
    assert IntToString(o2.code) == Terminal(o2).message[|p|..];
    IntToStringInjective(o1.code, o2.code);
  }
}
