/**
 * Value-level view of the MVVM view factory's registry: type identities, the
 * view-model-to-view dictionary, the choice of a view type for a view-model,
 * and the string key under which a created (view-model, page) pair is cached.
 */
module ViewRegistry {

  /** A .NET type identity. Two types in different namespaces may share a short name. */
  datatype TypeId = TypeId(namespace: string, name: string)

  /** The short name of a type (`Type.Name`), which is what the cache key is built from. */
  function Name(t: TypeId): string {
    t.name
  }

  /** The type of the navigation container page that wraps a freshly constructed page. */
  const NavigationPageType := TypeId("Xamarin.Forms", "NavigationPage")

  datatype Option<T> = None | Some(value: T)

  /** The one failure the factory raises itself: `InvalidOperationException("Unknown View for ViewModel")`. */
  datatype FactoryError = UnknownViewForViewModel

  datatype Result<T> = Success(value: T) | Failure(error: FactoryError)

  /** View-model type to the ordered list of view types registered for it. */
  type TypeDictionary = map<TypeId, seq<TypeId>>

  /** Every list in the dictionary has at least one view (a list is created only to be appended to). */
  predicate NonEmptyLists(types: TypeDictionary) {
    forall vm :: vm in types ==> types[vm] != []
  }

  /** The views registered for `vm`, the empty list when it has none. */
  function ViewsOf(types: TypeDictionary, vm: TypeId): seq<TypeId> {
    if vm in types then types[vm] else []
  }

  /** The dictionary after registering `view` for `vm`: the list is created when missing, then appended to. */
  function AppendView(types: TypeDictionary, vm: TypeId, view: TypeId): (r: TypeDictionary)
    ensures r.Keys == types.Keys + {vm}
    ensures r[vm] == ViewsOf(types, vm) + [view]
    ensures forall k :: k in types && k != vm ==> r[k] == types[k]
    ensures NonEmptyLists(types) ==> NonEmptyLists(r)
  {
    types[vm := ViewsOf(types, vm) + [view]]
  }

  /** Registers each of `views` for `vm`, in order. */
  function RegisterAll(types: TypeDictionary, vm: TypeId, views: seq<TypeId>): (r: TypeDictionary)
    ensures NonEmptyLists(types) ==> NonEmptyLists(r)
    ensures r.Keys == if views == [] then types.Keys else types.Keys + {vm}
    decreases |views|
  {
    if views == [] then types
    else RegisterAll(AppendView(types, vm, views[0]), vm, views[1..])
  }

  /**
   * The view type a page is created from: the explicit one when given, otherwise the first
   * registered; an unregistered view-model fails even when an explicit view type is given,
   * because the dictionary is consulted first.
   */
  function ChooseView(types: TypeDictionary, vm: TypeId, explicit: Option<TypeId>): (r: Result<TypeId>)
    requires NonEmptyLists(types)
    ensures r.Failure? <==> vm !in types
    ensures r.Failure? ==> r.error == UnknownViewForViewModel
    ensures r.Success? && explicit.Some? ==> r.value == explicit.value
    ensures r.Success? && explicit.None? ==> r.value == types[vm][0]
  {
    if vm in types then
      Success(if explicit.Some? then explicit.value else types[vm][0])
    else
      Failure(UnknownViewForViewModel)
  }

  /** The page-cache key, `"{0}:{1}"` formatted with the view-model's and the view's short names. */
  function CacheKey(vm: TypeId, view: TypeId): string {
    Name(vm) + ":" + Name(view)
  }

  /** Position of the first ':' in `s`, or `|s|` when there is none. */
  function ColonIndex(s: string): (i: nat)
    ensures i <= |s|
    ensures forall j :: 0 <= j < i ==> s[j] != ':'
    ensures i < |s| ==> s[i] == ':'
  {
    if s == [] then 0
    else if s[0] == ':' then 0
    else 1 + ColonIndex(s[1..])
  }

  /** In a cache key the separator sits right after the view-model's name, when that name has no ':'. */
  lemma KeySeparatorPosition(vm: TypeId, view: TypeId)
    requires ':' !in Name(vm)
    ensures ColonIndex(CacheKey(vm, view)) == |Name(vm)|
  {
    var key := CacheKey(vm, view);
    assert key[|Name(vm)|] == ':';
    forall j | 0 <= j < |Name(vm)| ensures key[j] != ':' {
      assert key[j] == Name(vm)[j];
    }
  }

  /**
   * Two cache keys are equal exactly when both short names agree. C# type names never contain
   * ':', so the key tells the names apart, but it cannot tell apart two distinct types that
   * share a short name: those collide on one cache entry.
   */
  lemma {:induction false} CacheKeyNamesIff(vm1: TypeId, view1: TypeId, vm2: TypeId, view2: TypeId)
    requires ':' !in Name(vm1) && ':' !in Name(vm2)
    ensures CacheKey(vm1, view1) == CacheKey(vm2, view2) <==>
            Name(vm1) == Name(vm2) && Name(view1) == Name(view2)
  {
    var k1, k2 := CacheKey(vm1, view1), CacheKey(vm2, view2);
    if k1 == k2 {
      KeySeparatorPosition(vm1, view1);
      KeySeparatorPosition(vm2, view2);
      var n := |Name(vm1)|;
      assert Name(vm1) == k1[..n] && Name(vm2) == k2[..n];
      assert Name(view1) == k1[n + 1..] && Name(view2) == k2[n + 1..];
    }
  }

  /** Registering views one after the other appends them, in order, to that view-model's list and to no other. */
  lemma {:induction false} RegisterAllAppends(types: TypeDictionary, vm: TypeId, views: seq<TypeId>)
    ensures ViewsOf(RegisterAll(types, vm, views), vm) == ViewsOf(types, vm) + views
    ensures forall k :: k != vm ==> ViewsOf(RegisterAll(types, vm, views), k) == ViewsOf(types, k)
    decreases |views|
  {
    if views != [] {
      var next := AppendView(types, vm, views[0]);
      RegisterAllAppends(next, vm, views[1..]);
      assert views == [views[0]] + views[1..];
      assert ViewsOf(types, vm) + [views[0]] + views[1..] == ViewsOf(types, vm) + views;
    }
  }

  /** The first view registered for a new view-model stays its default, whatever is registered after it. */
  lemma FirstRegisteredIsDefault(types: TypeDictionary, vm: TypeId, first: TypeId, later: seq<TypeId>)
    requires NonEmptyLists(types)
    requires vm !in types
    ensures NonEmptyLists(RegisterAll(types, vm, [first] + later))
    ensures ChooseView(RegisterAll(types, vm, [first] + later), vm, None) == Success(first)
  {
    RegisterAllAppends(types, vm, [first] + later);
  }

  /** Once a view-model is registered, further registrations never change its default view. */
  lemma {:induction false} RegistrationKeepsDefault(types: TypeDictionary, vm: TypeId, views: seq<TypeId>)
    requires NonEmptyLists(types)
    requires vm in types
    ensures NonEmptyLists(RegisterAll(types, vm, views))
    ensures ChooseView(RegisterAll(types, vm, views), vm, None) == ChooseView(types, vm, None)
  {
    RegisterAllAppends(types, vm, views);
  }

  /** Registering views for one view-model leaves the outcome of page creation for any other unchanged. */
  lemma RegistrationIsLocal(types: TypeDictionary, vm: TypeId, views: seq<TypeId>, other: TypeId, explicit: Option<TypeId>)
    requires NonEmptyLists(types)
    requires other != vm
    ensures NonEmptyLists(RegisterAll(types, vm, views))
    ensures ChooseView(RegisterAll(types, vm, views), other, explicit) == ChooseView(types, other, explicit)
  {
    RegisterAllAppends(types, vm, views);
    var r := RegisterAll(types, vm, views);
    assert ViewsOf(r, other) == ViewsOf(types, other);
  }
}
