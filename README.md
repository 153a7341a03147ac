# deno_di wiring engine, modelled in Dafny

This project models the core of deno_di, a dependency-injection library for
TypeScript. Components ("services") are registered under identifiers in
registration stores. The engine then builds a fully wired object for a
requested identifier, and the model proves what that engine promises:

- stores are searched in priority order;
- a transient service is built anew each time;
- a scoped service is shared within one call and built afresh by each call;
- a singleton is built once and then reused for good;
- a missing service and a circular dependency are errors;
- the walk always terminates.

The model has these parts, one module per source file:

- `Services` (`services.dfy`, from `service.ts`). Identifiers and values, the run-time identifier check, lifetimes, kinds, and service descriptors. A descriptor's mutable `cache` field is a `CacheCell` object.
- `Resolver` (`resolution.dfy`, from `resolution.ts`). The walk is given twice:
  - As functions over a `World` value. `World` holds the contents of the cache cells, the per-call scoped cache and the objects created so far. The functions are `Resolution`, `Build`, `ArgResolution`, `PropResolution` and `TopResolution`.
  - As methods over the mutable state: `TryGet`, `CreateUsingCache`, `ResolveWithin`, `BuildWithin`, `GatherArgs`, `GatherProps` and `Resolve`. Each method is proved to compute exactly its function.
  - `LoadFromCache` is the direct transcription of `loadFromCache`. Its meaning is stated by the lemmas that use it.
  - What one step of the walk yields (not found, placed in its cache, a new object) is stated by the lemmas `ResolutionOutcome` and `BuildOutcome` beside the functions.
- `ResolutionProperties` (`resolution_properties.dfy`). The lifetime, priority, error and depth properties, proved about the functions.
- `Scenarios` (`scenarios.dfy`). Small registrations taken from the repository's tests, resolved object by object: transient, scoped and singleton classes, a missing dependency, a three-class cycle, and graphs that span two stores.
- `InjectionScenarios` (`injection_scenarios.dfy`). The tests with injection records: a property filled by resolution, and a class that reaches a string-registered and a symbol-registered service through explicit identifiers. Each record is also derived from the decorator model.
- `ServiceCollections` (`service_collection.dfy`, from `service_collection.ts`). The registration store, as a class with a `services` map field.
- `MultiCollections` (`service_multi_collection.dfy`, from `service_multi_collection.ts`). An insertion-ordered set of collections.
  - Pure functions `AddAll` and `RemoveAll` specify adding and removing one at a time.
  - `Keep` is an independent reference definition of removal.
  - The class methods are loops proved against these functions.
- `Decorators` (`decorators.dfy`, from `decorators.ts`). The `Service` and `Inject` decorators, as methods on a `Reflection` object.
- Supporting modules:
  - `Metadata` (`metadata.dfy`) holds the reflection tables, the per-class injection record, and insertion-ordered property maps.
  - `Errors`, `Wrappers` and `Sequences` hold the error kinds, `Option`/`Result`/`Outcome`, and sequence facts.

Representation choices:

- **Objects.** An object is `Obj(i)`, its address on a `Heap`. The heap's `objects` sequence records, for each created object, the class and the argument and property values it was built from. "The same instance" and "a different instance" are therefore statements about addresses. A value given from outside, such as a static service's value or a constant factory's result, is assumed to be an address already on the heap when it is an object: the model does not check this, and an address beyond the heap would alias an object created later.
- **Factories.** A factory of a dynamic service is a `Producer`, an oracle:
  - `FreshEach(tag)` returns a new object on every call.
  - `Returns(v)` always returns `v`.
- **Reflection.** The reflection metadata is four explicit tables on a `Reflection` object:
  - the class tags;
  - the injection records;
  - the declared constructor parameter types (`design:paramtypes`);
  - the declared property types (`design:type`).
- **Store type name.** `service.ts:72` declares the store type under the name `ServiceCollection`, while the other files import it as `ServiceStore`. The model calls it `ServiceStore`.

Behaviour of the source kept as it is written:

- **The root is not on the path.** `resolve` starts with an empty path, and the requested identifier is not put on it (`resolution.ts:176`). A cycle through the root is therefore caught one edge later. Resolving `A` in the cycle A → B → C → A reports the chain B, C, A, B (`Scenarios.ThreeCycle`).
- **Cache hits differ by kind.**
  - A class service's cache hit tests "not `undefined`" (`resolution.ts:95`). A cached `null` is returned.
  - A factory service's cache hit uses `??` (`resolution.ts:160`). A cached `null` or `undefined` makes the factory run again.
- **Properties are resolved before construction.** Injected properties are resolved after the constructor arguments and before the object is constructed (`resolution.ts:125-155`).

## Model

| member | source | states |
|---|---|---|
| Services.Service.KindOf | service.ts:7-11 | each descriptor is of exactly one kind: Static exactly for static descriptors, Newable exactly for class descriptors |
| Services.Service.LifetimeOf | service.ts:39-68 | a static descriptor has no lifetime; class and factory descriptors carry exactly one of the three lifetimes |
| Services.IsServiceIdent | service.ts:27-37 | the run-time identifier check; its meaning is stated by `IdentClassification` and `ServiceIdentsHaveIdentType` |
| Services.IdentClassification | service.ts:27-37 | every string and every symbol passes the identifier check; a function passes exactly when it is not the `Object` constructor; every other value, `undefined` and `null` included, fails |
| Services.ServiceIdentsHaveIdentType | service.ts:21-27 | a value that passes the run-time check has the static identifier type |
| Services.CacheCell.constructor | service.ts:48-50 | a new descriptor's cache is empty (`undefined`) |
| Metadata.SetProp | decorators.ts:85 | a map `set` on an insertion-ordered property map: keys stay unique, the key now maps to the identifier, other keys keep theirs, an existing key keeps its position, a new key is appended |
| Metadata.Reflection.constructor | metadata.ts:38-58 | no class is tagged and no injection record exists before any decorator runs |
| Resolver.Lookup | resolution.ts:13-26 | the store search; its meaning is stated by `LookupFound`, `ResolutionProperties.LookupFirstStore` and `ResolutionProperties.LookupMissing`, and `TryGet` is proved to compute it |
| Resolver.LoadFromCache | resolution.ts:35-48 | the cache read per lifetime; its meaning is stated by `ResolutionProperties.CachedValueReused` (a placed value is read back), `ResolutionProperties.NewableHitShortCircuits` (a hit ends the step) and `ResolutionProperties.TransientIsFresh` (a transient read always misses) |
| Resolver.LookupFound | resolution.ts:13-26 | lookup finds a descriptor exactly for identifiers some store holds, and a found lifetimed descriptor's cell belongs to the stores |
| Resolver.TryGet | resolution.ts:13-26 | the loop returns the descriptor of the first store in list order holding the identifier, or nothing |
| Resolver.MeasureStep | resolution.ts:113-117 | extending the path by a stored identifier not on it strictly shrinks the count of stored identifiers off the path (the termination measure) |
| Resolver.StoreInCache | resolution.ts:58-66 | transient writes nothing; scoped writes only the scoped cache under the identifier; singleton writes only the descriptor's own cell; the heap is untouched |
| Resolver.Create | resolution.ts:142-155 | the heap only grows, by at most one object, at the next address, which is then the value made; only a constant factory adds none and returns its value; a constructed object records its class, arguments and properties |
| Resolver.CreatedAndCached | resolution.ts:50-69 | make the value, then cache it per lifetime; its meaning is stated by `Create` and `StoreInCache`, by `BuildTail` and by `CreateUsingCache`, which is proved to compute it |
| Resolver.BuildTail | resolution.ts:50-69 | constructing and caching after a cache miss yields a new object of the class at the next address, placed in its cache per lifetime, in a world that has only grown |
| Resolver.Instantiate | resolution.ts:144-152 | the creator run on the heap computes exactly `Create` |
| Resolver.CreateUsingCache | resolution.ts:50-69 | makes the value, then stores it in the context cache (scoped), the descriptor's cell (singleton) or nowhere (transient); the new state is exactly the specified one |
| Resolver.PreventCircularGraph | resolution.ts:71-82 | fails exactly when the identifier is on the path, reporting the path in order followed by the identifier |
| Resolver.CycleFromChild | resolution.ts:113-121 | a cycle a child call reports still starts with the caller's path and names a real cycle |
| Resolver.Resolution | resolution.ts:84-168 | every step keeps created objects and non-nullish cache entries; any reported cycle starts with the path, has its last identifier earlier in it and otherwise no repeats |
| Resolver.ResolutionOutcome | resolution.ts:84-168 | an unknown identifier fails as not found and changes nothing; a successful lifetimed resolution leaves its value in its cache; a class service the cache missed yields a new object of its class |
| Resolver.Build | resolution.ts:99-155 | the miss path of a class service keeps created objects and cache entries, and any cycle it reports is a real one starting with the path |
| Resolver.BuildOutcome | resolution.ts:99-155 | the miss path of a class service yields a newly created object of that class, placed in its cache per lifetime |
| Resolver.ArgResolution | resolution.ts:103-123 | on success, one value per declared constructor parameter, after those gathered so far |
| Resolver.PropResolution | resolution.ts:125-140 | on success, one value per injected property, after those gathered so far |
| Resolver.PropKeysInOrder | resolution.ts:125-140 | on success, the value gathered for entry k of the injection record is stored under that entry's key, in record order |
| Resolver.ResolveWithin | resolution.ts:84-168 | the recursive method computes exactly `Resolution`: result, cells, context cache and heap |
| Resolver.BuildWithin | resolution.ts:93-156 | the cache-miss path as a method computes exactly `Build` |
| Resolver.GatherArgs | resolution.ts:102-123 | the argument loop computes exactly `ArgResolution` |
| Resolver.GatherProps | resolution.ts:125-140 | the property loop computes exactly `PropResolution` |
| Resolver.TopResolution | resolution.ts:170-180 | a walk from an empty path with an empty scoped cache; its meaning is stated by `ResolutionProperties.TopResolutionPersists`, `ScopedFreshEachCall`, `SingletonSharedAcrossCalls`, `MissingServiceFails` and `CycleReportedIsCycle`, and `Resolve` is proved to compute it |
| Resolver.Resolve | resolution.ts:170-180 | a top-level call, from an empty path and a fresh context, computes exactly `TopResolution` on the stores' cells and the heap |
| Resolver.Context.constructor | resolution.ts:178 | each call's scoped cache starts empty |
| ResolutionProperties.LookupFirstStore | resolution.ts:17-23 | the first store in list order that holds an identifier supplies its descriptor |
| ResolutionProperties.LookupMissing | resolution.ts:25 | lookup finds nothing exactly when no store holds the identifier |
| ResolutionProperties.PathBounded | resolution.ts:113-134 | a repeat-free path of stored identifiers is no longer than the number of stored identifiers, which bounds the recursion depth |
| ResolutionProperties.StaticIsIdentity | resolution.ts:162-164 | a static service resolves to its stored value and changes nothing |
| ResolutionProperties.CachedValueReused | resolution.ts:94-97 | once a scoped or singleton service has resolved to a defined value, every later resolution in a world that kept it returns that value and changes nothing |
| ResolutionProperties.NewableHitShortCircuits | resolution.ts:94-97 | a class cache hit returns the cached value without resolving any dependency or changing anything |
| ResolutionProperties.DynamicMissCallsFactory | resolution.ts:157-161 | a factory service whose cache is nullish calls its factory and caches the result per lifetime |
| ResolutionProperties.TransientIsFresh | resolution.ts:40-42 | a transient class service yields a newly created object of its class on every resolution |
| ResolutionProperties.TransientInstancesDistinct | resolution.ts:58-60 | two resolutions of a transient class service, the second at any later point, yield different objects |
| ResolutionProperties.ScopedFreshEachCall | resolution.ts:170-180 | each top-level call builds a scoped class service anew, as a new object of its class |
| ResolutionProperties.ScopedDistinctAcrossCalls | resolution.ts:178 | two top-level calls never share a scoped class instance |
| ResolutionProperties.TopResolutionPersists | resolution.ts:64-66 | a top-level call keeps every defined singleton cell and every created object |
| ResolutionProperties.SingletonSharedAcrossCalls | resolution.ts:45-46 | once a singleton has resolved, every later top-level call returns the same value and changes nothing |
| ResolutionProperties.InvalidParamRejected | resolution.ts:106-111 | a constructor parameter whose identifier fails the check is an error naming the class and index, with nothing changed |
| ResolutionProperties.MissingServiceFails | resolution.ts:165-166 | an identifier no store holds fails the call as not found, leaving cells and heap unchanged |
| ResolutionProperties.CycleReportedIsCycle | resolution.ts:71-82 | a reported chain has at least two identifiers, its last occurs earlier in it, and nothing before the last repeats |
| Scenarios.OneArg | resolution.ts:105-121 | a one-parameter constructor resolves its parameter with the path extended by it, and passes the result or the error on |
| Scenarios.OneArgCycle | resolution.ts:113 | a parameter already on the path is reported as a cycle, path then parameter, with nothing changed |
| Scenarios.TransientDirect | test.ts:25-45 | two calls resolving a transient B over A build four objects: two Bs, each over its own A |
| Scenarios.SingletonDirect | test.ts:69-89 | the first call fills both singleton cells; the second returns the same B and changes nothing |
| Scenarios.ScopedPair | test.ts:129-153 | both parameters of a scoped B receive the same A within a call; the next call builds a new A and B |
| Scenarios.MissingDependency | test.ts:276-290 | B registered without the A it needs fails naming A, and builds nothing |
| Scenarios.ThreeCycle | resolution.ts:113-117 | resolving A in the cycle A, B, C fails with chain B, C, A, B and builds nothing |
| Scenarios.StoresCombine | service_multi_collection_test.ts:6-33 | B in the second store over A in the first: the second store alone fails naming A, both stores together build A then B |
| Scenarios.StoresCrossBothWays | service_multi_collection_test.ts:35-68 | resolving C goes from the first store to the second and back, building A, B over A, then C over B |
| InjectionScenarios.PropertyDecorated | decorators.ts:64-85 | `@Inject()` on a property declared as `A` records the property with identifier `A` |
| InjectionScenarios.PropertyInjection | test.ts:181-209 | two calls resolving a transient B with an injected property build four objects: two Bs, each holding its own new A in property `a` |
| InjectionScenarios.ExplicitDecorated | test.ts:211-230 | `@Inject("a")` on a property and `@Inject(bSym)` on the first constructor parameter, in either order, record exactly these identifiers |
| InjectionScenarios.ExplicitIdentifiers | test.ts:211-244 | resolving C builds a B through the symbol for its parameter, then an A through `"a"` for its property, then C over both |
| ServiceCollections.NewableImpl | service_collection.ts:155-168 | an explicit implementation is returned whatever the identifier; without one a function identifier binds to itself and any other identifier fails |
| ServiceCollections.ServiceCollection.constructor | service_collection.ts:18 | a new collection is an empty store |
| ServiceCollections.ServiceCollection.Get | service_collection.ts:24-26 | resolves against this collection's store alone |
| ServiceCollections.ServiceCollection.Add | service_collection.ts:146-152 | fails exactly when the identifier is present, leaving the store unchanged; otherwise maps the identifier to the service and keeps every other entry |
| ServiceCollections.ServiceCollection.AddNewable | service_collection.ts:114-131 | rejects an untagged class and adds nothing; otherwise adds a class descriptor with the lifetime and an empty new cache |
| ServiceCollections.ServiceCollection.AddDynamic | service_collection.ts:133-144 | adds a factory descriptor with the lifetime and an empty new cache, unless the identifier is present |
| ServiceCollections.ServiceCollection.AddStatic | service_collection.ts:106-112 | adds a static descriptor with the value, unless the identifier is present |
| ServiceCollections.ServiceCollection.AddClass | service_collection.ts:41-42 | the shared outcome of the three class registrations (see `AddTransient`) |
| ServiceCollections.ServiceCollection.AddTransient | service_collection.ts:41-43 | self-binding is checked first, then the class tag (`NotDecorated`), then the duplicate (`AlreadyAdded`), each failure leaving the store unchanged; a tagged class under a new identifier is added, and only it, as a transient class descriptor for that implementation with an empty new cache |
| ServiceCollections.ServiceCollection.AddScoped | service_collection.ts:58-60 | the same outcome as `AddTransient`, with a scoped descriptor |
| ServiceCollections.ServiceCollection.AddSingleton | service_collection.ts:75-77 | the same outcome as `AddTransient`, with a singleton descriptor |
| ServiceCollections.ServiceCollection.AddTransientDynamic | service_collection.ts:83-85 | adds a transient factory descriptor with an empty new cache; fails with `AlreadyAdded`, changing nothing, exactly when the identifier is present |
| ServiceCollections.ServiceCollection.AddScopedDynamic | service_collection.ts:91-93 | the same, with a scoped factory descriptor |
| ServiceCollections.ServiceCollection.AddSingletonDynamic | service_collection.ts:99-101 | the same, with a singleton factory descriptor |
| ServiceCollections.FoundUnderOwnIdent | service_collection.ts:146-152 | in a collection built by these operations, the descriptor found for an identifier is the one registered under that identifier |
| MultiCollections.Insert | service_multi_collection.ts:38 | `Set.add` on an insertion-ordered set; its meaning is stated by `AddAll`, `AddAllNoDup` and `AddAllOrder` |
| MultiCollections.RemoveAll | service_multi_collection.ts:45-49 | deletions one after another; its meaning is stated by `RemoveAllIsKeep` with the reference `Keep`, and by `KeepNoDup` and `KeepOrder` |
| MultiCollections.AddAll | service_multi_collection.ts:36-40 | adding in turn keeps the old order as a prefix and holds exactly the old and the added collections |
| MultiCollections.Keep | service_multi_collection.ts:45-49 | the reference removal holds exactly the collections not removed |
| MultiCollections.AddAllNoDup | service_multi_collection.ts:12-14 | adding never introduces a duplicate |
| MultiCollections.AddAllOrder | service_multi_collection.ts:20-24 | whichever of two collections was added first comes first afterwards, so re-adding never changes priority |
| MultiCollections.KeepNoDup | service_multi_collection.ts:45-49 | removal never introduces a duplicate |
| MultiCollections.KeepOrder | service_multi_collection.ts:45-49 | removal preserves the relative order of the rest |
| MultiCollections.KeepKeep | service_multi_collection.ts:46-48 | removing in two steps is removing the union |
| MultiCollections.RemoveAllIsKeep | service_multi_collection.ts:45-49 | removing one collection after another equals the reference removal |
| MultiCollections.StoresOf | service_multi_collection.ts:27-29 | one store per held collection, in order, each that collection's current map |
| MultiCollections.EarlierCollectionWins | service_multi_collection.ts:20-24 | when several held collections register an identifier, the earliest one's descriptor is used |
| MultiCollections.EmptyResolvesNothing | service_multi_collection.ts:54-56 | with no collections held, every resolution fails as not found and changes nothing |
| MultiCollections.ServiceMultiCollection.constructor | service_multi_collection.ts:12-14 | holds the given collections without duplicates, in first-occurrence order |
| MultiCollections.ServiceMultiCollection.Get | service_multi_collection.ts:26-31 | resolves against the held collections' stores in insertion order |
| MultiCollections.ServiceMultiCollection.AddCollections | service_multi_collection.ts:36-40 | the loop of set additions yields exactly `AddAll`, still without duplicates |
| MultiCollections.ServiceMultiCollection.RemoveCollections | service_multi_collection.ts:45-49 | the loop of set deletions yields exactly the reference removal, still without duplicates |
| MultiCollections.ServiceMultiCollection.ClearCollections | service_multi_collection.ts:54-56 | no collection is held afterwards |
| Decorators.InjectedRecord | decorators.ts:43-88 | an explicit identifier is recorded at the parameter index or property key; without one the declared type is recorded if it passes the check, else the decoration fails naming the site; a site with neither index nor key fails; on success the parameter map is the old one with only that index set, or the property list is the old one with only that key set, keeping its position if present and appended at the end if new; the other half of the record is unchanged |
| Decorators.ParamOverrideUsed | decorators.ts:49-63 | after an explicit parameter injection, resolution uses that identifier for that parameter and the previous identifiers for all others |
| Decorators.InferredParamChangesNothing | decorators.ts:50-61 | an inferred parameter injection records the type resolution would use anyway |
| Decorators.ObjectTypedSiteRejected | decorators.ts:49-85 | `Inject()` on a parameter or property declared `object` fails naming the site |
| Decorators.Service | decorators.ts:15-23 | fails exactly when the class is already tagged, changing nothing; otherwise tags it |
| Decorators.Inject | decorators.ts:35-89 | stores the computed record for the target's class, or fails leaving every record unchanged |
| Decorators.DecorateTwice | test.ts:248-252 | a second decoration of the same class always fails, and the class stays tagged |

## Left out

- Reflection itself: `metadata.ts` wraps the `Reflect` metadata polyfill. Its tables are explicit fields of `Reflection`. `getMemberType` searches the prototype chain; the model keys declared property types by class only, so inherited property types are not modelled.
- The decorator runtime. TypeScript's decorator calls, its emission of design types, and the polyfill import are not modelled. Only the metadata the decorators write is.
- Object construction and property assignment (`resolution.ts:145-149`). They are recorded as a `Constructed` heap entry with the arguments and property values. Constructor bodies are not run.
- User factory functions (`resolution.ts:160`). They are the `Producer` oracle. A `Returns` factory's runs leave no trace. Each run of a `FreshEach` factory is recorded as one `Produced` heap entry. The factory's other side effects are not modelled.
- Error messages. Each error is a constructor of `Errors.Error` carrying its data, such as the chain of a cycle. The formatted string is not modelled.
- The unused `services` field of the resolution context (`resolution.ts:29`, `resolution.ts:178`).
- The private-field access with `any` casts in `service_multi_collection.ts:27-29`. `StoresOf` reads the `services` field of each collection directly.
- Numbers are modelled as integers. Floating-point values play no role in the engine.
- Iteration order of a store's map. Lookup is by key, so registration order inside one store is not observable and is not modelled.
- Exceptions. Each throw is a `Failure`/`Fail` result. A method stops at the first failure, as the throw does.
- TransientIsFresh, ScopedFreshEachCall and TransientInstancesDistinct: they speak only of class services. A factory service is fresh only if its factory makes new objects, which `FreshEach` does and `Returns` does not.
- CachedValueReused and SingletonSharedAcrossCalls: they require the cached value to be neither `undefined` nor `null`. With such a value the source rebuilds or calls the factory again, as `DynamicMissCallsFactory` states.
- PathBounded: states the depth bound for paths of stored identifiers. Termination of every walk is proved separately, by the decreasing measure of `MeasureStep`.
- Checking that the stored identifier of a descriptor matches its key in the store is kept as `ServiceCollection.Valid`, which `FoundUnderOwnIdent` uses. The resolution walk itself does not rely on it.
