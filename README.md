# MVVM view factory — a Dafny model

This project models the view factory of the Xamarin.Forms Labs MVVM layer
(`src/Xamarin.Forms.Labs/Xamarin.Forms.Labs/Mvvm/ViewFactory.cs`). The factory keeps two process-wide tables:

- **View registry.** Each view-model type maps to the ordered list of view types registered for it. The first entry is the default view.
- **Page cache.** Created (view-model, page) pairs are stored under the key `"{ViewModelName}:{ViewName}"`.

It also has an `EnableCache` switch. `Register` appends to the registry. It also registers the view-model with a dependency container when one is available. `CreatePage` (both overloads) goes through `InitializePage`, which runs these steps:

1. Choose the view type. An unregistered view-model throws "Unknown View for ViewModel".
2. Build the cache key.
3. Reuse the cached pair on a hit. On a miss, construct the pair: a page, optionally wrapped in a navigation page, and a view-model from the resolver or newly constructed. The view-model is given the page's navigation, and the pair is cached when caching is on.
4. Call the optional initialiser.
5. Clear the page's binding context, then set it to the view-model.

Files:

- `view_registry.dfy` (module `ViewRegistry`) is the value level. It holds type identities and `Name`, the registry as a `map<TypeId, seq<TypeId>>`, the choice of view, the cache key, and lemmas about registration order and key collisions.
- `mvvm.dfy` (module `Mvvm`) holds the imperative model. The classes `Page`, `ViewModel` and `ViewFactory` have map-valued fields that the methods reassign. The factory also keeps two logs:
  - `diRegistrations`: the calls made on the dependency container.
  - `trace`: initialiser calls and binding-context assignments, in order.
- `scenarios.dfy` (module `Scenarios`) holds client methods. Each one starts from a new factory and proves one behaviour of the factory.

The static class becomes one `ViewFactory` object, so that every operation states its frame.

A type is a `TypeId(namespace, name)`, and `Name` returns only the short name. Distinct types can therefore share a name, as .NET types from different namespaces do. The model keeps this representable.

Code outside the factory is turned into parameters:

- Whether `Resolver.Resolve<IDependencyContainer>()` finds a container is a parameter.
- So is whether a view-model factory function is passed.
- So is the view-model that `Resolver.Resolve<TViewModel>()` returns, or `null`.
- Whether an initialiser is passed is a parameter. Calling it is recorded as an `Initialised` event in the trace.

`Activator.CreateInstance` and `new NavigationPage(page)` are modelled as fresh object allocation. `new ViewModelNavigation(page.Navigation)` is modelled as setting the view-model's `navigation` field to that page.

An explicit view type does not avoid the "Unknown View for ViewModel" error: the code checks that the view-model is registered (lines 122-130) before it uses the explicit view type. `ChooseView` and `Scenarios.UnregisteredViewModelFails` state this.

## Model

| member | source | states |
|---|---|---|
| ViewRegistry.AppendView | src/Xamarin.Forms.Labs/Xamarin.Forms.Labs/Mvvm/ViewFactory.cs:61-66 | registering a view adds the view-model's key if missing. Its list becomes the old list (empty if absent) with the view appended at the end. Every other key keeps its list. Lists stay non-empty |
| ViewRegistry.RegisterAll | src/Xamarin.Forms.Labs/Xamarin.Forms.Labs/Mvvm/ViewFactory.cs:61-66 | registering a sequence of views in order keeps every list non-empty. It adds the view-model's key exactly when at least one view is registered |
| ViewRegistry.RegisterAllAppends | src/Xamarin.Forms.Labs/Xamarin.Forms.Labs/Mvvm/ViewFactory.cs:61-66 | repeated registration appends the views, in call order, to that view-model's list and to no other list |
| ViewRegistry.ChooseView | src/Xamarin.Forms.Labs/Xamarin.Forms.Labs/Mvvm/ViewFactory.cs:122-130 | choosing a view fails with UnknownViewForViewModel exactly when the view-model is unregistered, with or without an explicit view type. Otherwise it returns the explicit view type when one is given and the first registered view when none is |
| ViewRegistry.FirstRegisteredIsDefault | src/Xamarin.Forms.Labs/Xamarin.Forms.Labs/Mvvm/ViewFactory.cs:125 | for a new view-model, the first view registered is the default, whatever is registered after it |
| ViewRegistry.RegistrationKeepsDefault | src/Xamarin.Forms.Labs/Xamarin.Forms.Labs/Mvvm/ViewFactory.cs:125 | once a view-model is registered, later registrations never change its default view |
| ViewRegistry.RegistrationIsLocal | src/Xamarin.Forms.Labs/Xamarin.Forms.Labs/Mvvm/ViewFactory.cs:61-66 | registering views for one view-model does not change the view chosen, or the error raised, for any other view-model |
| ViewRegistry.KeySeparatorPosition | src/Xamarin.Forms.Labs/Xamarin.Forms.Labs/Mvvm/ViewFactory.cs:134 | in a cache key the first ':' sits right after the view-model's short name, when that name has no ':' |
| ViewRegistry.CacheKeyNamesIff | src/Xamarin.Forms.Labs/Xamarin.Forms.Labs/Mvvm/ViewFactory.cs:134 | two cache keys are equal exactly when both view-model short names and both view short names agree. Distinct types with the same names therefore share a key |
| Mvvm.InitialiserCallsCountsPositions | src/Xamarin.Forms.Labs/Xamarin.Forms.Labs/Mvvm/ViewFactory.cs:162-165 | the recursive count of initialiser calls in a trace equals the number of trace positions that hold an initialiser call |
| Mvvm.InitialiserCallsAppend | src/Xamarin.Forms.Labs/Xamarin.Forms.Labs/Mvvm/ViewFactory.cs:162-165 | the initialiser calls in two consecutive traces add up |
| Mvvm.BindingEvents | src/Xamarin.Forms.Labs/Xamarin.Forms.Labs/Mvvm/ViewFactory.cs:162-170 | the closing events of a creation are exactly three when an initialiser is given and two otherwise: the initialiser call with the view-model and the page (when given), then the context set to null, then to the view-model. Nothing else happens in between |
| Mvvm.DiCall | src/Xamarin.Forms.Labs/Xamarin.Forms.Labs/Mvvm/ViewFactory.cs:74-87 | the container registration made for a view-model uses the factory function when one is given, whatever the single-instance flag says. Otherwise it is a singleton exactly when single-instance is asked for, and transient otherwise |
| Mvvm.ViewFactory.constructor | src/Xamarin.Forms.Labs/Xamarin.Forms.Labs/Mvvm/ViewFactory.cs:38-50 | the initial state is an empty dictionary, an empty cache and caching off, with no container registrations and an empty trace. The invariant holds |
| Mvvm.ViewFactory.SetEnableCache | src/Xamarin.Forms.Labs/Xamarin.Forms.Labs/Mvvm/ViewFactory.cs:50 | setting the cache flag changes only the flag and keeps the invariant |
| Mvvm.ViewFactory.Register | src/Xamarin.Forms.Labs/Xamarin.Forms.Labs/Mvvm/ViewFactory.cs:57-89 | the dictionary becomes the old one with the view appended to the view-model's list, whether or not a container is available. The cache, the cache flag and the trace are unchanged. Exactly one container registration is added when a container is available, and none otherwise |
| Mvvm.ViewFactory.ConstructPair | src/Xamarin.Forms.Labs/Xamarin.Forms.Labs/Mvvm/ViewFactory.cs:142-160 | a miss builds a fresh page of the chosen view type, wrapped in a fresh navigation page when asked. The view-model is the resolver's, or fresh, and has the requested type. Its navigation is that of the returned (possibly wrapped) page. The cache gains exactly this pair under the key when caching is on, and is unchanged when it is off |
| Mvvm.ViewFactory.InitialiseAndBind | src/Xamarin.Forms.Labs/Xamarin.Forms.Labs/Mvvm/ViewFactory.cs:162-170 | the page ends bound to the view-model. The trace grows by the initialiser call, when given, followed by the context set to null and then to the view-model |
| Mvvm.ViewFactory.InitializePage | src/Xamarin.Forms.Labs/Xamarin.Forms.Labs/Mvvm/ViewFactory.cs:116-173 | unregistered view-model: fails before the resolver is consulted and changes nothing: the cache, the trace and the resolver's view-model stay as they were. Cache hit: returns the cached page as stored, without wrapping it again, bound to the cached view-model when its type matches and to null otherwise, with the cache unchanged. Miss: as ConstructPair. Every success runs the initialiser once and then clears and sets the binding context. The registry, the flag and the container log never change, and the invariant (entries filed under their own key) is kept |
| Mvvm.ViewFactory.CreatePage | src/Xamarin.Forms.Labs/Xamarin.Forms.Labs/Mvvm/ViewFactory.cs:104-108 | the same outcome as InitializePage with no explicit view type |
| Mvvm.ViewFactory.CreatePageWithView | src/Xamarin.Forms.Labs/Xamarin.Forms.Labs/Mvvm/ViewFactory.cs:110-114 | the same outcome as InitializePage with the explicit view type |
| Scenarios.FirstRegisteredViewWins | src/Xamarin.Forms.Labs/Xamarin.Forms.Labs/Mvvm/ViewFactory.cs:125 | after registering views A then B, the created page is an A |
| Scenarios.ExplicitViewOverridesDefault | src/Xamarin.Forms.Labs/Xamarin.Forms.Labs/Mvvm/ViewFactory.cs:113 | an explicit view type overrides the registered default |
| Scenarios.UnregisteredViewModelFails | src/Xamarin.Forms.Labs/Xamarin.Forms.Labs/Mvvm/ViewFactory.cs:122-130 | an unregistered view-model fails with UnknownViewForViewModel even with an explicit view type. The cache stays empty and the resolver's view-model is not touched |
| Scenarios.CacheSharesInstances | src/Xamarin.Forms.Labs/Xamarin.Forms.Labs/Mvvm/ViewFactory.cs:136-158 | two creations return the same page and the same view-model exactly when caching is on. With caching off both are new each time |
| Scenarios.InitialiserRunsOnEveryCreation | src/Xamarin.Forms.Labs/Xamarin.Forms.Labs/Mvvm/ViewFactory.cs:162-165 | a miss followed by a hit runs the initialiser exactly twice |
| Scenarios.WrapOnlyOnConstruction | src/Xamarin.Forms.Labs/Xamarin.Forms.Labs/Mvvm/ViewFactory.cs:136-149 | a later request for a navigation page is honoured exactly when caching is off. With caching on, the cached unwrapped page is returned as it is |
| Scenarios.SameNamedViewModelsCollide | src/Xamarin.Forms.Labs/Xamarin.Forms.Labs/Mvvm/ViewFactory.cs:134-141 | two distinct view-model types with the same short name share a cache entry. The second gets the first one's page, bound to null because the cast fails |
| Scenarios.RegistrationIgnoresContainer | src/Xamarin.Forms.Labs/Xamarin.Forms.Labs/Mvvm/ViewFactory.cs:61-88 | the view dictionary is the same with and without a container. Only the container log differs: one registration versus none |

## Left out

- `ViewTypeAttribute` (ViewFactory.cs lines 11-28) is left out because the factory never uses it.
- `Xamarin.Forms.Labs.iOS/Controls/ExtendedLabel/ExtendedLabelRenderer.cs` is not part of this model. It does iOS font and attributed-string rendering.
- `Plugins/Serialization/ServiceStackV3/JsonSerializer.cs` and `Services/Serialization/SystemJsonSerializer.cs` are not part of this model. They forward to external JSON libraries and streams.
- The dependency container's own behaviour (`Register`, `RegisterSingle`, `Register(func)`) is not modelled. Only which call is made is recorded. The factory function itself is reduced to "given or not".
- `Resolver.Resolve` is not modelled. The view-model it would return (or `null`) is a parameter of page creation. The model requires that view-model to have exactly the requested type; see the subclass note below.
- Construction failures are not modelled. These are a type without a parameterless constructor, and a `TView` in the explicit-view overload that is not a `Page` (that overload has no `Page` constraint, so the cast at line 144 could throw). The model assumes construction succeeds.
- `ViewModelNavigation` and `Page.Navigation` are reduced to a reference from the view-model to the page whose navigation it uses.
- The `as TViewModel` cast (line 139) is modelled as exact type equality. Subclass view-models are not modelled.
- Mvvm.ViewFactory.InitializePage: the initialiser is recorded as a single event. What it does to the view-model, the page or anything else is not modelled, because it is arbitrary caller code.
- Mvvm.ViewFactory.InitialiseAndBind: the property-change notification raised by the two binding-context assignments is not modelled. Only the order of the assignments is recorded in the trace.
- Thread safety is out of scope. The original tables are unsynchronised static state used from a single UI thread. The model is a single object used sequentially.
