/**
 * The MVVM view factory: a registry of view types per view-model type and a cache of
 * created (view-model, page) pairs, with the page creation state machine
 * (resolve view type, cache hit or construction, initialiser, binding).
 *
 * The factory is process-wide static state in the original; here it is one object whose
 * fields are that state, so every operation states its frame.
 */
module Mvvm {
  import opened ViewRegistry

  /** A view-model object. Its navigation capability is the navigation of the page it was created for. */
  class ViewModel {
    const vmType: TypeId
    var navigation: Page?

    constructor (t: TypeId)
      ensures vmType == t && navigation == null
    {
      vmType := t;
      navigation := null;
    }
  }

  /** A page. A navigation page is a page of type `NavigationPageType` whose `content` is the page it wraps. */
  class Page {
    const viewType: TypeId
    const content: Page?
    var bindingContext: ViewModel?

    /** Default construction from a view type. */
    constructor (t: TypeId)
      ensures viewType == t && content == null && bindingContext == null
    {
      viewType := t;
      content := null;
      bindingContext := null;
    }

    /** `new NavigationPage(root)`. */
    constructor Wrapping(root: Page)
      ensures viewType == NavigationPageType && content == root && bindingContext == null
    {
      viewType := NavigationPageType;
      content := root;
      bindingContext := null;
    }
  }

  /** The view type a page shows: its own, or that of the page a navigation page wraps. */
  function ShownType(p: Page): TypeId {
    if p.content == null then p.viewType else p.content.viewType
  }

  /** An observable step of page creation: the initialiser call, or an assignment to a page's binding context. */
  datatype Event =
    | Initialised(viewModel: ViewModel?, page: Page)
    | ContextSet(page: Page, context: ViewModel?)

  /** Number of initialiser calls in a trace. */
  function InitialiserCalls(events: seq<Event>): nat {
    if events == [] then 0
    else (if events[0].Initialised? then 1 else 0) + InitialiserCalls(events[1..])
  }

  /** The positions in a trace that hold an initialiser call. */
  ghost function InitialisedAt(events: seq<Event>): set<nat> {
    set i: nat | i < |events| && events[i].Initialised?
  }

  /** Every position moved one place later. */
  ghost function Shifted(positions: set<nat>): set<nat> {
    set i | i in positions :: i + 1
  }

  lemma ShiftedSize(positions: set<nat>)
    ensures |Shifted(positions)| == |positions|
    decreases positions
  {
    if positions != {} {
      var x :| x in positions;
      var rest := positions - {x};
      ShiftedSize(rest);
      forall i | i in Shifted(positions) ensures i in Shifted(rest) + {x + 1} {
        var j :| j in positions && i == j + 1;
        if j != x {
          assert j in rest;
        }
      }
      assert Shifted(positions) == Shifted(rest) + {x + 1};
      assert x + 1 !in Shifted(rest);
    }
  }

  /** Dropping the first event moves every later initialiser call one position earlier. */
  lemma InitialisedAtTail(events: seq<Event>)
    requires events != []
    ensures InitialisedAt(events) ==
              (if events[0].Initialised? then {0} else {}) + Shifted(InitialisedAt(events[1..]))
  {
    var head: set<nat> := if events[0].Initialised? then {0} else {};
    var tail := events[1..];
    forall i: nat | i in InitialisedAt(events) ensures i in head + Shifted(InitialisedAt(tail)) {
      if i > 0 {
        var j: nat := i - 1;
        assert tail[j] == events[i];
        assert j in InitialisedAt(tail);
      }
    }
    forall i | i in Shifted(InitialisedAt(tail)) ensures i in InitialisedAt(events) {
      var j: nat :| j in InitialisedAt(tail) && i == j + 1;
      assert events[i] == tail[j];
    }
  }

  /** The count of initialiser calls is the number of trace positions that hold one. */
  lemma {:induction false} InitialiserCallsCountsPositions(events: seq<Event>)
    ensures InitialiserCalls(events) == |InitialisedAt(events)|
    decreases |events|
  {
    if events == [] {
      assert InitialisedAt(events) == {};
    } else {
      InitialiserCallsCountsPositions(events[1..]);
      InitialisedAtTail(events);
      ShiftedSize(InitialisedAt(events[1..]));
      assert 0 !in Shifted(InitialisedAt(events[1..]));
    }
  }

  lemma {:induction false} InitialiserCallsAppend(a: seq<Event>, b: seq<Event>)
    ensures InitialiserCalls(a + b) == InitialiserCalls(a) + InitialiserCalls(b)
    decreases |a|
  {
    if a != [] {
      assert (a + b)[0] == a[0];
      assert (a + b)[1..] == a[1..] + b;
      InitialiserCallsAppend(a[1..], b);
    } else {
      assert a + b == b;
    }
  }

  /**
   * What every successful page creation ends with: the initialiser, when given, called once
   * with the view-model and the page, then the binding context cleared and set to the view-model.
   */
  function BindingEvents(initialiser: bool, viewModel: ViewModel?, page: Page): (events: seq<Event>)
    ensures InitialiserCalls(events) == if initialiser then 1 else 0
    ensures initialiser ==> events[0] == Initialised(viewModel, page)
    ensures |events| == if initialiser then 3 else 2
    ensures events[|events| - 2] == ContextSet(page, null) && events[|events| - 1] == ContextSet(page, viewModel)
  {
    var binding := [ContextSet(page, null), ContextSet(page, viewModel)];
    assert InitialiserCalls(binding) == 0 by {
      assert binding[1..][1..] == [];
      assert InitialiserCalls(binding[1..]) == 0;
    }
    if initialiser then
      assert ([Initialised(viewModel, page)] + binding)[1..] == binding;
      [Initialised(viewModel, page)] + binding
    else
      binding
  }

  /** A registration call made on the dependency container. */
  datatype DiRegistration =
    | Transient(vm: TypeId)    // container.Register<TViewModel, TViewModel>()
    | Singleton(vm: TypeId)    // container.RegisterSingle<TViewModel, TViewModel>()
    | FromFactory(vm: TypeId)  // container.Register(func)

  /** The container registration `Register` makes: a supplied factory wins over the single-instance flag. */
  function DiCall(vm: TypeId, hasFunc: bool, singleInstance: bool): (r: DiRegistration)
    ensures r.vm == vm
    ensures r.FromFactory? <==> hasFunc
    ensures r.Singleton? <==> !hasFunc && singleInstance
    ensures r.Transient? <==> !hasFunc && !singleInstance
  {
    if hasFunc then FromFactory(vm)
    else if singleInstance then Singleton(vm)
    else Transient(vm)
  }

  /** The key a cached pair belongs under: its view-model's type and the view its page shows. */
  function EntryKey(entry: (ViewModel, Page)): string {
    CacheKey(entry.0.vmType, ShownType(entry.1))
  }

  class ViewFactory {
    var typeDictionary: TypeDictionary
    var pageCache: map<string, (ViewModel, Page)>
    var enableCache: bool
    /** Registrations made on the dependency container, in order. */
    var diRegistrations: seq<DiRegistration>
    /** Initialiser calls and binding-context assignments, in order. */
    var trace: seq<Event>

    /**
     * Every registered view-model has a view, and every cache entry is filed under the key
     * built from its own view-model's type and the type of the view its page shows.
     */
    ghost predicate Valid()
      reads this`typeDictionary, this`pageCache
    {
      && NonEmptyLists(typeDictionary)
      && forall key :: key in pageCache ==> EntryKey(pageCache[key]) == key
    }

    constructor ()
      ensures Valid()
      ensures typeDictionary == map[] && pageCache == map[] && !enableCache
      ensures diRegistrations == [] && trace == []
    {
      typeDictionary := map[];
      pageCache := map[];
      enableCache := false;
      diRegistrations := [];
      trace := [];
    }

    /** The `EnableCache` property setter. */
    method SetEnableCache(value: bool)
      requires Valid()
      modifies this`enableCache
      ensures Valid()
      ensures enableCache == value
    {
      enableCache := value;
    }

    /**
     * `Register<TView, TViewModel>(func, singleInstance)`. `containerResolved` is whether the
     * resolver yields a dependency container, `hasFunc` whether a view-model factory is given.
     * The dictionary update does not depend on the container.
     */
    method Register(view: TypeId, vm: TypeId, hasFunc: bool, singleInstance: bool, containerResolved: bool)
      requires Valid()
      modifies this
      ensures Valid()
      ensures typeDictionary == AppendView(old(typeDictionary), vm, view)
      ensures pageCache == old(pageCache) && enableCache == old(enableCache) && trace == old(trace)
      ensures diRegistrations == old(diRegistrations) +
                (if containerResolved then [DiCall(vm, hasFunc, singleInstance)] else [])
    {
      if vm !in typeDictionary {
        typeDictionary := typeDictionary[vm := []];
      }
      typeDictionary := typeDictionary[vm := typeDictionary[vm] + [view]];

      if containerResolved {
        if !hasFunc {
          if !singleInstance {
            diRegistrations := diRegistrations + [Transient(vm)];
          } else {
            diRegistrations := diRegistrations + [Singleton(vm)];
          }
        } else {
          diRegistrations := diRegistrations + [FromFactory(vm)];
        }
      }
    }

    /** The view type page creation would use; `Failure` when the view-model is not registered. */
    ghost function Chosen(vm: TypeId, viewType: Option<TypeId>): Result<TypeId>
      reads this
      requires Valid()
    {
      ChooseView(typeDictionary, vm, viewType)
    }

    /** Page creation would find its pair in the cache. */
    ghost predicate IsHit(vm: TypeId, viewType: Option<TypeId>)
      reads this
      requires Valid()
    {
      var c := Chosen(vm, viewType);
      c.Success? && enableCache && CacheKey(vm, c.value) in pageCache
    }

    /** The cached page page creation would reuse, if any: the only page a creation call touches that it did not make. */
    ghost function HitPages(vm: TypeId, viewType: Option<TypeId>): set<object>
      reads this
      requires Valid()
    {
      if IsHit(vm, viewType) then {pageCache[CacheKey(vm, Chosen(vm, viewType).value)].1} else {}
    }

    /** Page creation leaves the registry, the cache flag and the container untouched, and keeps the invariant. */
    twostate predicate RegistryKept()
      reads this
    {
      && Valid()
      && typeDictionary == old(typeDictionary)
      && enableCache == old(enableCache)
      && diRegistrations == old(diRegistrations)
    }

    /** Page creation fails exactly for an unregistered view-model, and then changes nothing. */
    twostate predicate FailsWhenUnknown(vm: TypeId, viewType: Option<TypeId>, new r: Result<Page>)
      requires old(Valid())
      reads this
    {
      && (r.Failure? <==> old(Chosen(vm, viewType)).Failure?)
      && (r.Failure? ==> r.error == UnknownViewForViewModel && pageCache == old(pageCache) && trace == old(trace))
    }

    /**
     * On a cache hit the cached pair is reused as it is: the page is returned without being
     * wrapped again, the view-model is the cached one when it has the requested type and null
     * otherwise, and the cache does not change.
     */
    twostate predicate ReusesCachedPair(vm: TypeId, viewType: Option<TypeId>, new r: Result<Page>)
      requires old(Valid())
      reads this, if r.Success? then {r.value} else {}
    {
      r.Success? && old(IsHit(vm, viewType)) ==>
        var key := CacheKey(vm, old(Chosen(vm, viewType)).value);
        var cachedModel, cachedPage := old(pageCache[key].0), old(pageCache[key].1);
        && r.value == cachedPage
        && r.value.bindingContext == (if cachedModel.vmType == vm then cachedModel else null)
        && EntryKey((cachedModel, cachedPage)) == key
        && pageCache == old(pageCache)
    }

    /**
     * Otherwise a new page of the chosen view type is made, wrapped in a new navigation page
     * when asked, and bound to the resolver's view-model or a new one of type `vm`; the pair is
     * cached under its key when caching is on, and the cache is unchanged when it is off.
     */
    twostate predicate ConstructsPair(vm: TypeId, viewType: Option<TypeId>, hasNavigationPage: bool,
                                      resolved: ViewModel?, new r: Result<Page>)
      requires old(Valid())
      reads this, if r.Success? then {r.value} else {}
    {
      old(Chosen(vm, viewType)).Success? && r.Success? && !old(IsHit(vm, viewType)) ==>
        var view := old(Chosen(vm, viewType)).value;
        var page, model := r.value, r.value.bindingContext;
        && fresh(page)
        && (if hasNavigationPage then
              page.viewType == NavigationPageType && page.content != null &&
              fresh(page.content) && page.content.viewType == view && page.content.content == null
            else
              page.viewType == view && page.content == null)
        && model != null && model.vmType == vm
        && (if resolved != null then model == resolved else fresh(model))
        && pageCache == (if enableCache then old(pageCache)[CacheKey(vm, view) := (model, page)]
                         else old(pageCache))
    }

    /** Every successful creation ends with the initialiser call, when given, then the context cleared and set. */
    twostate predicate BindsViewModel(initialiser: bool, new r: Result<Page>)
      reads this, if r.Success? then {r.value} else {}
    {
      r.Success? ==> trace == old(trace) + BindingEvents(initialiser, r.value.bindingContext, r.value)
    }

    /**
     * The construction path of page creation: a new page of type `view`, wrapped in a new
     * navigation page when asked, a view-model from the resolver or newly constructed, given
     * the navigation of the (possibly wrapped) page, and the pair stored under `key` when
     * caching is on.
     */
    method ConstructPair(vm: TypeId, view: TypeId, key: string, hasNavigationPage: bool, resolved: ViewModel?)
      returns (model: ViewModel, page: Page)
      requires Valid()
      requires key == CacheKey(vm, view)
      requires resolved != null ==> resolved.vmType == vm
      modifies this`pageCache, resolved
      ensures Valid()
      ensures fresh(page)
      ensures if hasNavigationPage then
                page.viewType == NavigationPageType && page.content != null &&
                fresh(page.content) && page.content.viewType == view && page.content.content == null
              else
                page.viewType == view && page.content == null
      ensures model.vmType == vm && model.navigation == page
      ensures if resolved != null then model == resolved else fresh(model)
      ensures pageCache == if enableCache then old(pageCache)[key := (model, page)] else old(pageCache)
    {
      page := new Page(view);
      if hasNavigationPage {
        page := new Page.Wrapping(page);
      }
      if resolved != null {
        model := resolved;
      } else {
        model := new ViewModel(vm);
      }
      model.navigation := page;
      if enableCache {
        assert EntryKey((model, page)) == key;
        pageCache := pageCache[key := (model, page)];
      }
    }

    /**
     * The end of every successful page creation: the initialiser, when given, is called with
     * the view-model and the page; then the binding context is cleared and set to the
     * view-model, so that the assignment is observed even when it is the same object again.
     */
    method InitialiseAndBind(initialiser: bool, model: ViewModel?, page: Page)
      modifies this`trace, page`bindingContext
      ensures page.bindingContext == model
      ensures trace == old(trace) + BindingEvents(initialiser, model, page)
    {
      ghost var calls := if initialiser then [Initialised(model, page)] else [];
      if initialiser {
        trace := trace + [Initialised(model, page)];
      }
      assert trace == old(trace) + calls;
      page.bindingContext := null;
      trace := trace + [ContextSet(page, null)];
      page.bindingContext := model;
      trace := trace + [ContextSet(page, model)];
      assert trace == old(trace) + (calls + [ContextSet(page, null), ContextSet(page, model)]);
    }

    /**
     * `InitializePage<TViewModel>(initialiser, viewType, hasNavigationPage)`. `resolved` is what
     * the dependency resolver returns for the view-model type, null when it has none.
     */
    method InitializePage(vm: TypeId, initialiser: bool, viewType: Option<TypeId>, hasNavigationPage: bool,
                          resolved: ViewModel?)
      returns (r: Result<Page>)
      requires Valid()
      requires resolved != null ==> resolved.vmType == vm
      modifies this, HitPages(vm, viewType), resolved
      ensures RegistryKept()
      ensures FailsWhenUnknown(vm, viewType, r)
      ensures ReusesCachedPair(vm, viewType, r)
      ensures ConstructsPair(vm, viewType, hasNavigationPage, resolved, r)
      ensures BindsViewModel(initialiser, r)
      ensures r.Success? && !old(IsHit(vm, viewType)) ==>
                r.value.bindingContext != null && r.value.bindingContext.navigation == r.value
      ensures (r.Failure? || old(IsHit(vm, viewType))) && resolved != null ==> unchanged(resolved)
    {
      if vm !in typeDictionary {
        return Failure(UnknownViewForViewModel);
      }
      // with no explicit view type the first registered view is selected
      var view := if viewType.Some? then viewType.value else typeDictionary[vm][0];
      var key := CacheKey(vm, view);

      var page: Page;
      var model: ViewModel?;
      if enableCache && key in pageCache {
        var cache := pageCache[key];
        // `as TViewModel`: the cached view-model only when it has the requested type
        model := if cache.0.vmType == vm then cache.0 else null;
        page := cache.1;
      } else {
        var created;
        created, page := ConstructPair(vm, view, key, hasNavigationPage, resolved);
        model := created;
      }

      InitialiseAndBind(initialiser, model, page);
      return Success(page);
    }

    /** `CreatePage<TViewModel>(initialiser, hasNavigationPage)`: the first registered view. */
    method CreatePage(vm: TypeId, initialiser: bool, hasNavigationPage: bool, resolved: ViewModel?)
      returns (r: Result<Page>)
      requires Valid()
      requires resolved != null ==> resolved.vmType == vm
      modifies this, HitPages(vm, None), resolved
      ensures RegistryKept()
      ensures FailsWhenUnknown(vm, None, r)
      ensures ReusesCachedPair(vm, None, r)
      ensures ConstructsPair(vm, None, hasNavigationPage, resolved, r)
      ensures BindsViewModel(initialiser, r)
      ensures r.Success? && !old(IsHit(vm, None)) ==>
                r.value.bindingContext != null && r.value.bindingContext.navigation == r.value
      ensures (r.Failure? || old(IsHit(vm, None))) && resolved != null ==> unchanged(resolved)
    {
      r := InitializePage(vm, initialiser, None, hasNavigationPage, resolved);
    }

    /** `CreatePage<TViewModel, TView>(initialiser, hasNavigationPage)`: an explicit view type. */
    method CreatePageWithView(vm: TypeId, view: TypeId, initialiser: bool, hasNavigationPage: bool,
                              resolved: ViewModel?)
      returns (r: Result<Page>)
      requires Valid()
      requires resolved != null ==> resolved.vmType == vm
      modifies this, HitPages(vm, Some(view)), resolved
      ensures RegistryKept()
      ensures FailsWhenUnknown(vm, Some(view), r)
      ensures ReusesCachedPair(vm, Some(view), r)
      ensures ConstructsPair(vm, Some(view), hasNavigationPage, resolved, r)
      ensures BindsViewModel(initialiser, r)
      ensures r.Success? && !old(IsHit(vm, Some(view))) ==>
                r.value.bindingContext != null && r.value.bindingContext.navigation == r.value
      ensures (r.Failure? || old(IsHit(vm, Some(view)))) && resolved != null ==> unchanged(resolved)
    {
      r := InitializePage(vm, initialiser, Some(view), hasNavigationPage, resolved);
    }
  }
}
