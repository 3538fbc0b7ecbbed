/**
 * Clients of the view factory. Each method starts from a new factory, makes a short sequence
 * of registrations and page creations, and states what the factory's contracts promise about
 * the outcome: first registered view wins, unknown view-models fail, the cache shares
 * instances, the initialiser always runs, wrapping happens only on construction, and
 * same-named types collide on one cache entry.
 */
module Scenarios {
  import opened ViewRegistry
  import opened Mvvm

  /** Registering views A then B for a view-model and creating its page without a view type builds an A. */
  method FirstRegisteredViewWins(vm: TypeId, first: TypeId, second: TypeId) returns (shown: TypeId)
    ensures shown == first
  {
    var factory := new ViewFactory();
    factory.Register(first, vm, false, false, false);
    factory.Register(second, vm, false, false, false);
    var r := factory.CreatePage(vm, false, false, null);
    shown := r.value.viewType;
  }

  /** An explicit view type overrides the registered default. */
  method ExplicitViewOverridesDefault(vm: TypeId, registered: TypeId, explicit: TypeId) returns (shown: TypeId)
    ensures shown == explicit
  {
    var factory := new ViewFactory();
    factory.Register(registered, vm, false, false, false);
    var r := factory.CreatePageWithView(vm, explicit, false, false, null);
    shown := r.value.viewType;
  }

  /**
   * Creating a page for a view-model that was never registered fails with the distinguished
   * error, even when an explicit view type is given, leaves the cache empty, and leaves the
   * view-model the resolver would supply untouched.
   */
  method UnregisteredViewModelFails(vm: TypeId, other: TypeId, view: TypeId, cacheOn: bool)
    returns (r: Result<Page>, cached: nat, resolverUntouched: bool)
    requires vm != other
    ensures r == Failure(UnknownViewForViewModel)
    ensures cached == 0
    ensures resolverUntouched
  {
    var factory := new ViewFactory();
    factory.SetEnableCache(cacheOn);
    factory.Register(view, other, false, false, true);
    var resolved := new ViewModel(vm);
    r := factory.CreatePageWithView(vm, view, true, true, resolved);
    cached := |factory.pageCache|;
    resolverUntouched := resolved.navigation == null;
  }

  /**
   * With caching on, two creations for the same view-model return the same page bound to the
   * same view-model; with caching off, every creation returns a new page and a new view-model.
   */
  method CacheSharesInstances(vm: TypeId, view: TypeId, cacheOn: bool) returns (samePage: bool, sameModel: bool)
    ensures samePage == cacheOn
    ensures sameModel == cacheOn
  {
    var factory := new ViewFactory();
    factory.SetEnableCache(cacheOn);
    factory.Register(view, vm, false, false, false);
    var first := factory.CreatePage(vm, false, false, null);
    var firstModel := first.value.bindingContext;
    var second := factory.CreatePage(vm, false, false, null);
    samePage := first.value == second.value;
    sameModel := firstModel == second.value.bindingContext;
  }

  /** The initialiser runs once per creation, on the construction and on the cache-hit path alike. */
  method InitialiserRunsOnEveryCreation(vm: TypeId, view: TypeId) returns (calls: nat)
    ensures calls == 2
  {
    var factory := new ViewFactory();
    factory.SetEnableCache(true);
    factory.Register(view, vm, false, false, false);
    var first := factory.CreatePage(vm, true, false, null);
    ghost var afterFirst := factory.trace;
    assert afterFirst == BindingEvents(true, first.value.bindingContext, first.value);
    var second := factory.CreatePage(vm, true, false, null);
    InitialiserCallsAppend(afterFirst, BindingEvents(true, second.value.bindingContext, second.value));
    calls := InitialiserCalls(factory.trace);
  }

  /**
   * Asking for a navigation page on a later creation wraps only when the page is constructed
   * again: with caching on the cached, unwrapped page comes back as it is.
   */
  method WrapOnlyOnConstruction(vm: TypeId, view: TypeId, cacheOn: bool) returns (wrapped: bool)
    ensures wrapped == !cacheOn
  {
    var factory := new ViewFactory();
    factory.SetEnableCache(cacheOn);
    factory.Register(view, vm, false, false, false);
    var first := factory.CreatePage(vm, false, false, null);
    var second := factory.CreatePage(vm, false, true, null);
    wrapped := second.value.viewType == NavigationPageType && second.value.content != null;
  }

  /**
   * Two distinct view-model types with the same short name, registered to the same view, share
   * one cache key: the second creation gets the first one's page, and since the cached
   * view-model is not of the requested type the page ends bound to nothing.
   */
  method SameNamedViewModelsCollide(vmA: TypeId, vmB: TypeId, view: TypeId)
    returns (samePage: bool, boundToNothing: bool)
    requires vmA != vmB && Name(vmA) == Name(vmB)
    ensures samePage && boundToNothing
  {
    var factory := new ViewFactory();
    factory.SetEnableCache(true);
    factory.Register(view, vmA, false, false, false);
    factory.Register(view, vmB, false, false, false);
    var first := factory.CreatePage(vmA, false, false, null);
    var second := factory.CreatePage(vmB, false, false, null);
    samePage := first.value == second.value;
    boundToNothing := second.value.bindingContext == null;
  }

  /**
   * The view dictionary comes out the same whether or not a dependency container is available;
   * only the container registrations differ.
   */
  method RegistrationIgnoresContainer(vm: TypeId, view: TypeId, hasFunc: bool, singleInstance: bool)
    returns (sameViews: bool, withContainer: seq<DiRegistration>, withoutContainer: seq<DiRegistration>)
    ensures sameViews
    ensures withContainer == [DiCall(vm, hasFunc, singleInstance)] && withoutContainer == []
  {
    var a := new ViewFactory();
    var b := new ViewFactory();
    a.Register(view, vm, hasFunc, singleInstance, true);
    b.Register(view, vm, hasFunc, singleInstance, false);
    sameViews := a.typeDictionary == b.typeDictionary;
    withContainer, withoutContainer := a.diRegistrations, b.diRegistrations;
  }
}
