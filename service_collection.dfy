/**
 * A registration store: an append-only map from identifier to descriptor,
 * filled by the `add*` operations and resolved against by `Get`.
 */
module ServiceCollections {

  import opened Wrappers
  import opened Services
  import opened Errors
  import opened Metadata
  import opened Resolver

  /**
   * `newableImpl`: the class to register. An explicit implementation wins;
   * without one the identifier binds to itself, which only a function can.
   */
  function NewableImpl(ident: Ident, impl: Option<FnRef>): (r: Result<FnRef, Error>)
    ensures impl.Some? ==> r == Success(impl.value)
    ensures impl.None? && ident.Fn? ==> r == Success(ident.f)
    ensures impl.None? && !ident.Fn? ==> r == Failure(CannotSelfBind(ident))
  {
    match impl
    case Some(i) => Success(i)
    case None => if ident.Fn? then Success(ident.f) else Failure(CannotSelfBind(ident))
  }

  /** `after` is `before` with `ident` newly mapped and every other entry as it was. */
  ghost predicate AddedOne(before: ServiceStore, after: ServiceStore, ident: Ident)
  {
    && ident !in before
    && after.Keys == before.Keys + {ident}
    && forall k :: k in before ==> after[k] == before[k]
  }

  /**
   * The outcome of registering a class service: `newableImpl` fails first,
   * then an untagged class is rejected, then a present identifier; otherwise
   * `after` is `before` with a class descriptor for `ident` added.
   */
  ghost predicate ClassAddOutcome(before: ServiceStore, after: ServiceStore, ident: Ident, impl: Option<FnRef>,
                                  lifetime: Lifetime, tags: set<FnRef>, r: Outcome<Error>)
  {
    match NewableImpl(ident, impl)
    case Failure(e) => r == Fail(e) && after == before
    case Success(cls) =>
      && (cls !in tags ==> r == Fail(NotDecorated(cls)) && after == before)
      && (cls in tags && ident in before ==> r == Fail(AlreadyAdded(ident)) && after == before)
      && (cls in tags && ident !in before ==>
           && r == Pass
           && AddedOne(before, after, ident)
           && after[ident].NewableService? && after[ident].ident == ident
           && after[ident].impl == cls && after[ident].lifetime == lifetime)
  }

  class ServiceCollection {
    var services: ServiceStore

    /** Every descriptor is stored under its own identifier. */
    ghost predicate Valid()
      reads this
    {
      forall k :: k in services ==> services[k].ident == k
    }

    constructor ()
      ensures Valid() && services == map[]
    {
      services := map[];
    }

    /** `get`: resolve `ident` using this collection's store alone. */
    method Get(ident: Ident, refl: Reflection, heap: Heap) returns (r: Result<Value, Error>)
      modifies CellsOf([services]), heap
      ensures (r, Cells([services]), heap.objects)
           == TopResolution(ident, [services], refl.di, refl.design, old(Cells([services])), old(heap.objects))
    {
      r := Resolve(ident, [services], refl, heap);
    }

    /** `_add`: rejects an identifier already present; otherwise maps it to `service`. */
    method Add(service: Service) returns (r: Outcome<Error>)
      requires Valid()
      modifies this
      ensures Valid()
      ensures r.Fail? <==> service.ident in old(services)
      ensures r.Fail? ==> r == Fail(AlreadyAdded(service.ident)) && services == old(services)
      ensures r.Pass? ==> services == old(services)[service.ident := service] && AddedOne(old(services), services, service.ident)
    {
      if service.ident in services {
        return Fail(AlreadyAdded(service.ident));
      }
      services := services[service.ident := service];
      r := Pass;
    }

    /** `_addNewable`: rejects a class the `Service` decorator never tagged, then adds. */
    method AddNewable(ident: Ident, impl: FnRef, lifetime: Lifetime, refl: Reflection) returns (r: Outcome<Error>)
      requires Valid()
      modifies this
      ensures Valid()
      ensures impl !in refl.tags ==> r == Fail(NotDecorated(impl)) && services == old(services)
      ensures impl in refl.tags && ident in old(services) ==> r == Fail(AlreadyAdded(ident)) && services == old(services)
      ensures impl in refl.tags && ident !in old(services) ==> r.Pass?
      ensures r.Pass? ==>
        && AddedOne(old(services), services, ident)
        && services[ident].NewableService? && services[ident].impl == impl && services[ident].lifetime == lifetime
        && fresh(services[ident].cell) && services[ident].cell.cache == Undefined
    {
      if impl !in refl.tags {
        return Fail(NotDecorated(impl));
      }
      var cell := new CacheCell();
      r := Add(NewableService(ident, lifetime, impl, cell));
    }

    /** `_addDynamic`: adds a factory service. */
    method AddDynamic(ident: Ident, fn: Producer, lifetime: Lifetime) returns (r: Outcome<Error>)
      requires Valid()
      modifies this
      ensures Valid()
      ensures r.Fail? <==> ident in old(services)
      ensures r.Fail? ==> r == Fail(AlreadyAdded(ident)) && services == old(services)
      ensures r.Pass? ==>
        && AddedOne(old(services), services, ident)
        && services[ident].DynamicService? && services[ident].fn == fn && services[ident].lifetime == lifetime
        && fresh(services[ident].cell) && services[ident].cell.cache == Undefined
    {
      var cell := new CacheCell();
      r := Add(DynamicService(ident, lifetime, fn, cell));
    }

    /** `addStatic`: adds a fixed value. */
    method AddStatic(ident: Ident, value: Value) returns (r: Outcome<Error>)
      requires Valid()
      modifies this
      ensures Valid()
      ensures r.Fail? <==> ident in old(services)
      ensures r.Fail? ==> r == Fail(AlreadyAdded(ident)) && services == old(services)
      ensures r.Pass? ==> AddedOne(old(services), services, ident) && services[ident] == StaticService(ident, value)
    {
      r := Add(StaticService(ident, value));
    }

    /**
     * The body shared by `addTransient`, `addScoped` and `addSingleton`:
     * choose the class by `newableImpl`, then `_addNewable` it.
     */
    method AddClass(ident: Ident, impl: Option<FnRef>, lifetime: Lifetime, refl: Reflection) returns (r: Outcome<Error>)
      requires Valid()
      modifies this
      ensures Valid()
      ensures ClassAddOutcome(old(services), services, ident, impl, lifetime, refl.tags, r)
      ensures r.Pass? ==> fresh(services[ident].cell) && services[ident].cell.cache == Undefined
    {
      var cls := NewableImpl(ident, impl);
      if cls.Failure? {
        return Fail(cls.error);
      }
      r := AddNewable(ident, cls.value, lifetime, refl);
    }

    /** `addTransient`: a class service with the transient lifetime. */
    method AddTransient(ident: Ident, impl: Option<FnRef>, refl: Reflection) returns (r: Outcome<Error>)
      requires Valid()
      modifies this
      ensures Valid()
      ensures ClassAddOutcome(old(services), services, ident, impl, Transient, refl.tags, r)
      ensures r.Pass? ==> fresh(services[ident].cell) && services[ident].cell.cache == Undefined
    {
      r := AddClass(ident, impl, Transient, refl);
    }

    /** `addScoped`: a class service with the scoped lifetime. */
    method AddScoped(ident: Ident, impl: Option<FnRef>, refl: Reflection) returns (r: Outcome<Error>)
      requires Valid()
      modifies this
      ensures Valid()
      ensures ClassAddOutcome(old(services), services, ident, impl, Scoped, refl.tags, r)
      ensures r.Pass? ==> fresh(services[ident].cell) && services[ident].cell.cache == Undefined
    {
      r := AddClass(ident, impl, Scoped, refl);
    }

    /** `addSingleton`: a class service with the singleton lifetime. */
    method AddSingleton(ident: Ident, impl: Option<FnRef>, refl: Reflection) returns (r: Outcome<Error>)
      requires Valid()
      modifies this
      ensures Valid()
      ensures ClassAddOutcome(old(services), services, ident, impl, Singleton, refl.tags, r)
      ensures r.Pass? ==> fresh(services[ident].cell) && services[ident].cell.cache == Undefined
    {
      r := AddClass(ident, impl, Singleton, refl);
    }

    /** `addTransientDynamic`: a factory service with the transient lifetime. */
    method AddTransientDynamic(ident: Ident, fn: Producer) returns (r: Outcome<Error>)
      requires Valid()
      modifies this
      ensures Valid()
      ensures r.Fail? <==> ident in old(services)
      ensures r.Fail? ==> r == Fail(AlreadyAdded(ident)) && services == old(services)
      ensures r.Pass? ==>
        && AddedOne(old(services), services, ident) && services[ident].DynamicService?
        && services[ident].fn == fn && services[ident].lifetime == Transient
        && fresh(services[ident].cell) && services[ident].cell.cache == Undefined
    {
      r := AddDynamic(ident, fn, Transient);
    }

    /** `addScopedDynamic`: a factory service with the scoped lifetime. */
    method AddScopedDynamic(ident: Ident, fn: Producer) returns (r: Outcome<Error>)
      requires Valid()
      modifies this
      ensures Valid()
      ensures r.Fail? <==> ident in old(services)
      ensures r.Fail? ==> r == Fail(AlreadyAdded(ident)) && services == old(services)
      ensures r.Pass? ==>
        && AddedOne(old(services), services, ident) && services[ident].DynamicService?
        && services[ident].fn == fn && services[ident].lifetime == Scoped
        && fresh(services[ident].cell) && services[ident].cell.cache == Undefined
    {
      r := AddDynamic(ident, fn, Scoped);
    }

    /** `addSingletonDynamic`: a factory service with the singleton lifetime. */
    method AddSingletonDynamic(ident: Ident, fn: Producer) returns (r: Outcome<Error>)
      requires Valid()
      modifies this
      ensures Valid()
      ensures r.Fail? <==> ident in old(services)
      ensures r.Fail? ==> r == Fail(AlreadyAdded(ident)) && services == old(services)
      ensures r.Pass? ==>
        && AddedOne(old(services), services, ident) && services[ident].DynamicService?
        && services[ident].fn == fn && services[ident].lifetime == Singleton
        && fresh(services[ident].cell) && services[ident].cell.cache == Undefined
    {
      r := AddDynamic(ident, fn, Singleton);
    }
  }

  /** In a valid collection, the descriptor found for an identifier is the one registered under it. */
  lemma FoundUnderOwnIdent(c: ServiceCollection, ident: Ident)
    requires c.Valid()
    ensures Lookup(ident, [c.services]).Some? ==> Lookup(ident, [c.services]).value.ident == ident
  {
    LookupFound(ident, [c.services]);
  }
}
