/**
 * The decision logic of `HomeScreen`: the combined loading flag, the choice
 * of the one error dialog among the three sections, its retry and dismiss,
 * and when a section shows its "No … available" placeholder.
 */
module HomeScreenLogic {
  import opened Wrappers
  import opened ApiResults
  import opened Home

  /** The shared dialog: the error's message and the section whose `clear*Error` its retry calls. */
  datatype ErrorState = ErrorState(message: string, retry: Section)

  /** The combined `isLoading`: some section is `Loading`. */
  function IsLoading(featured: ApiResult<Products>, newArrivals: ApiResult<Products>, popular: ApiResult<Products>): (loading: bool)
    ensures loading <==> exists s: Section :: SectionOf(featured, newArrivals, popular, s).Loading?
  {
    assert featured == SectionOf(featured, newArrivals, popular, Featured);
    assert newArrivals == SectionOf(featured, newArrivals, popular, NewArrivals);
    assert popular == SectionOf(featured, newArrivals, popular, Popular);
    featured.Loading? || newArrivals.Loading? || popular.Loading?
  }

  function SectionOf(featured: ApiResult<Products>, newArrivals: ApiResult<Products>, popular: ApiResult<Products>, s: Section): ApiResult<Products> {
    match s
    case Featured => featured
    case NewArrivals => newArrivals
    case Popular => popular
  }

  /**
   * The effect on the three section states: a featured error always takes
   * the dialog; a new-arrivals error, then a popular one, only when there is
   * no dialog yet; with no section in error the dialog is left as it is.
   */
  function SelectError(current: Option<ErrorState>, featured: ApiResult<Products>,
                       newArrivals: ApiResult<Products>, popular: ApiResult<Products>): (r: Option<ErrorState>)
    ensures featured.Error? ==> r == Some(ErrorState(featured.message, Featured))
    ensures !featured.Error? && current.Some? ==> r == current
    ensures !featured.Error? && current.None? && newArrivals.Error? ==> r == Some(ErrorState(newArrivals.message, NewArrivals))
    ensures !featured.Error? && current.None? && !newArrivals.Error? ==>
              r == (if popular.Error? then Some(ErrorState(popular.message, Popular)) else None)
    // a dialog that is new describes a section that is in error, with that section's message
    ensures r.Some? && r != current ==>
              SectionOf(featured, newArrivals, popular, r.value.retry).Error? &&
              r.value.message == SectionOf(featured, newArrivals, popular, r.value.retry).message
  {
    if featured.Error? then Some(ErrorState(featured.message, Featured))
    else if newArrivals.Error? && current.None? then Some(ErrorState(newArrivals.message, NewArrivals))
    else if popular.Error? && current.None? then Some(ErrorState(popular.message, Popular))
    else current
  }

  /** Whether a section shows its "No … available" text. */
  predicate ShowsPlaceholder(section: ApiResult<Products>, isLoading: bool) {
    !section.Success? && !isLoading && !section.Error?
  }

  /**
   * On the home screen a section shows its placeholder exactly when it is
   * `Initial` and no section is `Loading`.
   */
  lemma PlaceholderMeansInitial(featured: ApiResult<Products>, newArrivals: ApiResult<Products>,
                                popular: ApiResult<Products>, s: Section)
    ensures ShowsPlaceholder(SectionOf(featured, newArrivals, popular, s), IsLoading(featured, newArrivals, popular))
            <==> SectionOf(featured, newArrivals, popular, s).Initial? &&
                 forall t: Section :: !SectionOf(featured, newArrivals, popular, t).Loading?
  {
  }

  /**
   * A 401 in any section keeps that section at `Loading`, so the screen's
   * loading flag stays up for good.
   */
  lemma UnauthorizedKeepsScreenLoading(vmState: ApiResult<Products>, o: Http.Outcome<Products>, available: bool,
                                       newArrivals: ApiResult<Products>, popular: ApiResult<Products>)
    requires o.Response? && o.code == 401
    ensures IsLoading(AfterLoad(vmState, Completed(o), available), newArrivals, popular)
  {
    UnauthorizedLeavesLoading(vmState, map[], o, available);
  }

  /** Since no section of the view model is ever `Initial`, no placeholder is ever shown. */
  lemma PlaceholderNeverShown(featured: ApiResult<Products>, newArrivals: ApiResult<Products>, popular: ApiResult<Products>)
    requires !featured.Initial? && !newArrivals.Initial? && !popular.Initial?
    ensures var loading := IsLoading(featured, newArrivals, popular);
            !ShowsPlaceholder(featured, loading) && !ShowsPlaceholder(newArrivals, loading) &&
            !ShowsPlaceholder(popular, loading)
  {
  }

  class HomeScreenState {
    const vm: HomeViewModel
    /** `currentErrorState`; `None` when no dialog is shown. */
    var currentError: Option<ErrorState>

    constructor (vm: HomeViewModel)
      ensures this.vm == vm && currentError == None
    {
      this.vm := vm;
      currentError := None;
    }

    /** The `LaunchedEffect` keyed on the three section states. */
    method OnSectionsChanged()
      modifies this
      ensures currentError == SelectError(old(currentError), vm.featured, vm.newArrivals, vm.popular)
    {
      currentError := SelectError(currentError, vm.featured, vm.newArrivals, vm.popular);
    }

    /** The dialog's retry: the chosen section's `clear*Error`, then no dialog. */
    method Retry(f: Fetch)
      requires currentError.Some?
      modifies this, vm, vm.auth.session.storage
      ensures currentError == None
      ensures var s := old(currentError).value.retry;
              && (old(vm.Get(s)).Error? ==>
                    vm.Get(s) == AfterLoad(Loading, f, vm.connectivity.probe.connected) &&
                    vm.requests == old(vm.requests) + [Limit(s)])
              && (!old(vm.Get(s)).Error? ==> vm.Get(s) == old(vm.Get(s)) && vm.requests == old(vm.requests))
              && (forall t :: t != s ==> vm.Get(t) == old(vm.Get(t)))
              && vm.SessionPrefs() == if old(vm.Get(s)).Error?
                                      then CollectSession(old(vm.SessionPrefs()), Emissions(f))
                                      else old(vm.SessionPrefs())
    {
      vm.ClearError(currentError.value.retry, f);
      currentError := None;
    }

    /** The dialog's dismiss: no dialog, nothing reloaded. */
    method Dismiss()
      modifies this
      ensures currentError == None
    {
      currentError := None;
    }
  }
}
