/**
 * `HomeViewModel`: three product sections, each loaded by one
 * `getProducts(limit)` call (a `safeApiCall`), with a 401 diversion to
 * session expiry and a fallback for a flow that fails outright.
 */
module Home {
  import opened Wrappers
  import opened Http
  import opened ApiResults
  import opened Storage
  import opened Session
  import opened AuthRepository
  import opened SessionExpiry
  import opened Connectivity

  /** A product as listed; price and rating are floating point and are not modelled. */
  datatype Product = Product(id: int, name: string, description: string, category: string, imageUrl: string)

  type Products = seq<Product>

  datatype Section = Featured | NewArrivals | Popular

  /** The `limit` each section's load asks for. */
  function Limit(s: Section): (n: int)
    ensures n == (if s == Popular then 10 else 5)
  {
    match s
    case Featured => 5
    case NewArrivals => 5
    case Popular => 10
  }

  /**
   * How one load's flow ends: the HTTP call completes with an outcome, or
   * the flow itself fails after `Loading` with a throwable that
   * `safeApiCall` does not catch (its `catch` takes only `Exception`).
   */
  datatype Fetch = Completed(outcome: Outcome<Products>) | Crashed(message: Option<string>)

  /** The values the section's `collect` receives. */
  function Emissions(f: Fetch): (es: seq<ApiResult<Products>>)
    ensures |es| == (if f.Completed? then 2 else 1)
    ensures es[0] == Loading
    ensures f.Completed? ==> es[1] == Terminal(f.outcome)
    ensures forall i :: 0 <= i < |es| ==> !es[i].Initial?
  {
    match f
    case Completed(o) => SafeApiCall(o)
    case Crashed(_) => [Loading]
  }

  /** The emissions that are diverted to session expiry instead of being stored. */
  predicate IsUnauthorized<T>(r: ApiResult<T>) {
    r.Error? && r.code == Some(401)
  }

  /** The section after `collect` has seen each emission of `es`. */
  function CollectSection(cur: ApiResult<Products>, es: seq<ApiResult<Products>>): ApiResult<Products>
    decreases |es|
  {
    if es == [] then cur
    else
      var before := CollectSection(cur, es[..|es| - 1]);
      if IsUnauthorized(es[|es| - 1]) then before else es[|es| - 1]
  }

  /** The session store after `collect` has seen each emission of `es`. */
  function CollectSession(m: Prefs, es: seq<ApiResult<Products>>): Prefs
    decreases |es|
  {
    if es == [] then m
    else
      var before := CollectSession(m, es[..|es| - 1]);
      if IsUnauthorized(es[|es| - 1]) then LogoutPrefs(before) else before
  }

  /** `handleApiError`: the throwable's message or a fixed text, typed by the network probe. */
  function CrashError(message: Option<string>, networkAvailable: bool): (r: ApiResult<Products>)
    ensures r.Error? && r.code == None
    ensures r.errorType == (if networkAvailable then Unknown else Network)
    ensures message.Some? ==> r.message == message.value
    ensures message.None? ==> r.message == "Unknown error occurred"
  {
    Error(message.GetOr("Unknown error occurred"), errorType := if !networkAvailable then Network else Unknown)
  }

  /** A section after one whole load, starting from `cur`. */
  function AfterLoad(cur: ApiResult<Products>, f: Fetch, networkAvailable: bool): ApiResult<Products> {
    match f
    case Completed(_) => CollectSection(cur, Emissions(f))
    case Crashed(m) => CrashError(m, networkAvailable)
  }

  /**
   * The session is cleared exactly when some emission was a 401 error; any
   * number of such emissions clear it as one logout does.
   */
  lemma {:induction false} CollectSessionClearsOn401(m: Prefs, es: seq<ApiResult<Products>>)
    ensures (exists i :: 0 <= i < |es| && IsUnauthorized(es[i])) ==> CollectSession(m, es) == LogoutPrefs(m)
    ensures (forall i :: 0 <= i < |es| ==> !IsUnauthorized(es[i])) ==> CollectSession(m, es) == m
    decreases |es|
  {
    if es != [] {
      var init := es[..|es| - 1];
      CollectSessionClearsOn401(m, init);
      if exists i :: 0 <= i < |init| && IsUnauthorized(init[i]) {
        LogoutIdempotent(m);
      }
      if forall i :: 0 <= i < |es| ==> !IsUnauthorized(es[i]) {
        assert forall i :: 0 <= i < |init| ==> !IsUnauthorized(init[i]) by {
          forall i | 0 <= i < |init| ensures !IsUnauthorized(init[i]) {
            assert init[i] == es[i];
          }
        }
      }
    }
  }

  /** `collect` never stores `Initial` into a section that did not already hold it. */
  lemma {:induction false} CollectSectionNeverInitial(cur: ApiResult<Products>, es: seq<ApiResult<Products>>)
    requires !cur.Initial?
    requires forall i :: 0 <= i < |es| ==> !es[i].Initial?
    ensures !CollectSection(cur, es).Initial?
    decreases |es|
  {
    if es != [] {
      CollectSectionNeverInitial(cur, es[..|es| - 1]);
    }
  }

  /** A load never leaves a section `Initial` unless it was so before; sections start at `Loading`. */
  lemma LoadNeverYieldsInitial(cur: ApiResult<Products>, f: Fetch, available: bool)
    requires !cur.Initial?
    ensures !AfterLoad(cur, f, available).Initial?
  {
    if f.Completed? {
      CollectSectionNeverInitial(cur, Emissions(f));
    }
  }

  /** A completed load whose result is not a 401 error stores that result, whatever the section held. */
  lemma LoadStoresResultVerbatim(cur: ApiResult<Products>, o: Outcome<Products>, available: bool)
    requires !IsUnauthorized(Terminal(o))
    ensures AfterLoad(cur, Completed(o), available) == Terminal(o)
  {
    assert SafeApiCall(o)[..1] == [Loading];
  }

  /**
   * A 401 response leaves the section at the `Loading` stored just before
   * it, for good, and clears the session.
   */
  lemma UnauthorizedLeavesLoading(cur: ApiResult<Products>, m: Prefs, o: Outcome<Products>, available: bool)
    requires o.Response? && o.code == 401
    ensures AfterLoad(cur, Completed(o), available) == Loading
    ensures CollectSession(m, Emissions(Completed(o))) == LogoutPrefs(m)
  {
    var es := SafeApiCall(o);
    assert es[..1] == [Loading];
    assert CollectSection(cur, es[..1]) == Loading;
    assert IsUnauthorized(es[1]);
    CollectSessionClearsOn401(m, es);
  }

  /**
   * Behind `SessionExpiryInterceptor` the 401 diversion never fires: the
   * section receives the interceptor's NETWORK error and the view model does
   * not touch the session.
   */
  lemma DiversionUnreachableBehindInterceptor(cur: ApiResult<Products>, m: Prefs, resp: RawResponse,
                                              convert: RawResponse -> Option<Products>, available: bool)
    ensures var o := AsOutcome(Decide(resp), convert);
            AfterLoad(cur, Completed(o), available) == Terminal(o) &&
            CollectSession(m, Emissions(Completed(o))) == m
  {
    var o := AsOutcome(Decide(resp), convert);
    NoUnauthorizedCodeBehindInterceptor(resp, convert);
    LoadStoresResultVerbatim(cur, o, available);
    CollectSessionClearsOn401(m, SafeApiCall(o));
  }

  class HomeViewModel {
    const auth: AuthRepositoryImpl
    const connectivity: BaseViewModel
    var featured: ApiResult<Products>
    var newArrivals: ApiResult<Products>
    var popular: ApiResult<Products>
    /** The `limit` of every `getProducts` call made, in order. */
    var requests: seq<int>

    function Get(s: Section): ApiResult<Products>
      reads this
    {
      match s
      case Featured => featured
      case NewArrivals => newArrivals
      case Popular => popular
    }

    /** The store the session lives in. */
    function SessionPrefs(): Prefs
      reads auth.session.storage
    {
      auth.session.storage.prefs
    }

    /** The three sections before the loads started in `init` have delivered anything. */
    constructor (auth: AuthRepositoryImpl, connectivity: BaseViewModel)
      ensures this.auth == auth && this.connectivity == connectivity
      ensures featured == Loading && newArrivals == Loading && popular == Loading
      ensures requests == []
    {
      this.auth := auth;
      this.connectivity := connectivity;
      featured := Loading;
      newArrivals := Loading;
      popular := Loading;
      requests := [];
    }

    method Set(s: Section, r: ApiResult<Products>)
      modifies this
      ensures Get(s) == r
      ensures forall t :: t != s ==> Get(t) == old(Get(t))
      ensures requests == old(requests)
    {
      match s
      case Featured => featured := r;
      case NewArrivals => newArrivals := r;
      case Popular => popular := r;
    }

    /** `handleApiError` on one section. */
    method HandleApiError(s: Section, message: Option<string>)
      modifies this
      ensures Get(s) == CrashError(message, connectivity.probe.connected)
      ensures forall t :: t != s ==> Get(t) == old(Get(t))
      ensures requests == old(requests)
    {
      var errorType := if !connectivity.IsNetworkAvailable() then Network else Unknown;
      Set(s, Error(message.GetOr("Unknown error occurred"), errorType := errorType));
    }

    /** `handleSessionExpiry`: the repository's expiry flow, collected to the end. */
    method HandleSessionExpiry()
      modifies auth.session.storage
      ensures SessionPrefs() == LogoutPrefs(old(SessionPrefs()))
    {
      var _ := auth.HandleSessionExpiry();
    }

    /**
     * `loadFeaturedProducts` / `loadNewArrivals` / `loadPopularProducts`:
     * one request with the section's limit; each emission is stored unless
     * it is a 401 error, which goes to session expiry instead; a crashed
     * flow ends in `handleApiError`. No other section changes.
     */
    method Load(s: Section, f: Fetch)
      modifies this, auth.session.storage
      ensures requests == old(requests) + [Limit(s)]
      ensures Get(s) == AfterLoad(old(Get(s)), f, connectivity.probe.connected)
      ensures forall t :: t != s ==> Get(t) == old(Get(t))
      ensures SessionPrefs() == CollectSession(old(SessionPrefs()), Emissions(f))
    {
      requests := requests + [Limit(s)];
      var es := Emissions(f);
      var i := 0;
      while i < |es|
        invariant 0 <= i <= |es|
        invariant requests == old(requests) + [Limit(s)]
        invariant Get(s) == CollectSection(old(Get(s)), es[..i])
        invariant forall t :: t != s ==> Get(t) == old(Get(t))
        invariant SessionPrefs() == CollectSession(old(SessionPrefs()), es[..i])
      {
        assert es[..i + 1][..i] == es[..i];
        var result := es[i];
        if IsUnauthorized(result) {
          HandleSessionExpiry();
        } else {
          Set(s, result);
        }
        i := i + 1;
      }
      assert es[..|es|] == es;
      if f.Crashed? {
        HandleApiError(s, f.message);
      }
    }

    /** `loadHomeData`: featured, new arrivals, popular, in that order. */
    method LoadHomeData(featuredFetch: Fetch, newArrivalsFetch: Fetch, popularFetch: Fetch)
      modifies this, auth.session.storage
      ensures requests == old(requests) + [5, 5, 10]
      ensures featured == AfterLoad(old(featured), featuredFetch, connectivity.probe.connected)
      ensures newArrivals == AfterLoad(old(newArrivals), newArrivalsFetch, connectivity.probe.connected)
      ensures popular == AfterLoad(old(popular), popularFetch, connectivity.probe.connected)
      ensures SessionPrefs() ==
                CollectSession(CollectSession(CollectSession(old(SessionPrefs()),
                  Emissions(featuredFetch)), Emissions(newArrivalsFetch)), Emissions(popularFetch))
    {
      Load(Featured, featuredFetch);
      Load(NewArrivals, newArrivalsFetch);
      Load(Popular, popularFetch);
    }

    /**
     * `clearFeaturedProductsError` / `clearNewArrivalsError` /
     * `clearPopularProductsError`: only a section in `Error` is reset to
     * `Loading` and reloaded; otherwise nothing at all changes.
     */
    method ClearError(s: Section, f: Fetch)
      modifies this, auth.session.storage
      ensures !old(Get(s)).Error? ==>
                Get(s) == old(Get(s)) && requests == old(requests) && SessionPrefs() == old(SessionPrefs())
      ensures old(Get(s)).Error? ==>
                Get(s) == AfterLoad(Loading, f, connectivity.probe.connected) &&
                requests == old(requests) + [Limit(s)] &&
                SessionPrefs() == CollectSession(old(SessionPrefs()), Emissions(f))
      ensures forall t :: t != s ==> Get(t) == old(Get(t))
    {
      if Get(s).Error? {
        Set(s, Loading);
        Load(s, f);
      }
    }
  }
}
