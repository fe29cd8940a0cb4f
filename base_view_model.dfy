/**
 * `BaseViewModel`: the connectivity part every view model shares. The OS
 * connectivity query is a `ConnectivityProbe` whose answer the environment
 * sets; the stream of connectivity values is given as a sequence.
 */
module Connectivity {
  import opened Http
  import opened ApiResults

  /** What `isCurrentlyConnected()` would answer right now. */
  class ConnectivityProbe {
    var connected: bool

    constructor (connected: bool)
      ensures this.connected == connected
    {
      this.connected := connected;
    }

    /** The device gains or loses its internet-capable network. */
    method Change(connected: bool)
      modifies this
      ensures this.connected == connected
    {
      this.connected := connected;
    }
  }

  /** `isNetworkError`: NETWORK or TIMEOUT; API, auth and unknown errors are not. */
  predicate IsNetworkError<T>(e: ApiResult<T>)
    requires e.Error?
  {
    e.errorType == Network || e.errorType == Timeout
  }

  /**
   * Among the errors `safeApiCall` produces, the network errors are exactly
   * those caused by an I/O exception: no HTTP status and no other exception.
   */
  lemma NetworkErrorsAreIOFailures<T>(o: Outcome<T>)
    requires Terminal(o).Error?
    ensures IsNetworkError(Terminal(o)) <==> o.Thrown? && !o.failure.Other?
  {
  }

  class BaseViewModel {
    const probe: ConnectivityProbe
    /** `_isConnected`: the cached connectivity flag. */
    var isConnected: bool
    /** The arguments of each `onNetworkConnectivityChanged` call, in order. */
    var notified: seq<bool>

    /** The hook has been told every value the cache took, and the cache holds the latest one. */
    predicate Valid()
      reads this
    {
      |notified| > 0 ==> isConnected == notified[|notified| - 1]
    }

    /** The cache starts at what the probe answers at construction. */
    constructor (probe: ConnectivityProbe)
      ensures this.probe == probe
      ensures isConnected == probe.connected && notified == []
      ensures Valid()
    {
      this.probe := probe;
      isConnected := probe.connected;
      notified := [];
    }

    /**
     * Collecting the connectivity stream: each value is written to the cache
     * and then handed to `onNetworkConnectivityChanged`, in order.
     */
    method Observe(values: seq<bool>)
      requires Valid()
      modifies this
      ensures isConnected == if values == [] then old(isConnected) else values[|values| - 1]
      ensures notified == old(notified) + values
      ensures Valid()
    {
      var i := 0;
      while i < |values|
        invariant 0 <= i <= |values|
        invariant isConnected == if i == 0 then old(isConnected) else values[i - 1]
        invariant notified == old(notified) + values[..i]
        invariant Valid()
      {
        isConnected := values[i];
        OnNetworkConnectivityChanged(values[i]);
        i := i + 1;
      }
      assert values[..|values|] == values;
    }

    /** The default hook: no subclass of the modelled core overrides it. */
    method OnNetworkConnectivityChanged(isConnected: bool)
      modifies this
      ensures notified == old(notified) + [isConnected]
      ensures this.isConnected == old(this.isConnected)
    {
      notified := notified + [isConnected];
    }

    /**
     * `isNetworkAvailable`: asks the probe afresh. It does not read the cache,
     * so the two disagree whenever the probe changed since the last value seen.
     */
    function IsNetworkAvailable(): (available: bool)
      reads probe
      ensures available == probe.connected
    {
      probe.connected
    }
  }
}
