/**
 * What one HTTP call can produce, as the app's code sees it: a response
 * with a status code and a body that may be missing, or one of the
 * exceptions that `safeApiCall` tells apart. OkHttp and Retrofit themselves
 * are not modelled; requests and raw responses are plain records.
 */
module Http {
  import opened Wrappers

  /**
   * The exception raised by a call, by the most specific class that one of
   * `safeApiCall`'s catch clauses names. `OtherIO` is any other
   * `java.io.IOException`, `Other` any other `Exception`; both carry
   * `e.message`, which may be null.
   */
  datatype Failure =
    | UnknownHost
    | Connect
    | SocketTimeout
    | OtherIO(message: Option<string>)
    | Other(message: Option<string>)

  /** The outcome of `apiCall()`: a Retrofit response, or a thrown exception. */
  datatype Outcome<T> = Response(code: int, body: Option<T>) | Thrown(failure: Failure)

  /** Retrofit's `Response.isSuccessful`: a status code in [200, 300). */
  predicate IsSuccessful(code: int) {
    200 <= code < 300
  }

  datatype Header = Header(name: string, value: string)

  /** An OkHttp request: the parts an interceptor reads or extends. */
  datatype Request = Request(verb: string, url: string, headers: seq<Header>)

  /** An OkHttp response as an interceptor sees it. */
  datatype RawResponse = RawResponse(code: int, body: string)
}
