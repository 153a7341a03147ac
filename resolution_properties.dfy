/**
 * What the resolution walk promises: store priority, the meaning of each
 * lifetime (fresh, shared within a call, shared for good), and the shape of
 * the errors it reports.
 */
module ResolutionProperties {

  import opened Wrappers
  import opened Sequences
  import opened Services
  import opened Errors
  import opened Metadata
  import opened Resolver

  // ---------------------------------------------------------------------
  // Store priority

  /** The first store, in list order, that holds an identifier supplies its descriptor. */
  lemma {:induction false} LookupFirstStore(ident: Ident, stores: seq<ServiceStore>, i: nat)
    requires i < |stores| && ident in stores[i]
    requires forall j :: 0 <= j < i ==> ident !in stores[j]
    ensures Lookup(ident, stores) == Some(stores[i][ident])
  {
    if i > 0 {
      assert ident !in stores[0];
      LookupFirstStore(ident, stores[1..], i - 1);
    }
  }

  /** An identifier is unknown exactly when no store holds it. */
  lemma {:induction false} LookupMissing(ident: Ident, stores: seq<ServiceStore>)
    ensures Lookup(ident, stores).None? <==> forall j :: 0 <= j < |stores| ==> ident !in stores[j]
  {
    if |stores| > 0 {
      LookupMissing(ident, stores[1..]);
      assert forall j :: 1 <= j < |stores| ==> stores[j] == stores[1..][j - 1];
    }
  }

  // ---------------------------------------------------------------------
  // Depth

  /** A path without repeats has as many distinct identifiers as entries. */
  lemma {:induction false} NoDupElements(parents: seq<Ident>)
    requires NoDup(parents)
    ensures |Elements(parents)| == |parents|
  {
    if parents != [] {
      var front := parents[..|parents| - 1];
      var last := parents[|parents| - 1];
      assert parents == front + [last];
      assert NoDup(front);
      NoDupElements(front);
      assert Elements(parents) == Elements(front) + {last};
      assert last !in Elements(front);
    }
  }

  /**
   * The walk only descends below stored identifiers and never repeats one on
   * its path, so a path of stored identifiers is no longer than the number of
   * stored identifiers: the recursion is at most that deep, plus one call for
   * an identifier no store holds.
   */
  lemma PathBounded(stores: seq<ServiceStore>, parents: seq<Ident>)
    requires NoDup(parents)
    requires forall i :: 0 <= i < |parents| ==> parents[i] in Keys(stores)
    ensures |parents| <= |Keys(stores)|
  {
    NoDupElements(parents);
    assert Elements(parents) <= Keys(stores);
    SubsetCard(Elements(parents), Keys(stores));
  }

  /** Helper: a subset is no larger. */
  lemma {:induction false} SubsetCard<T>(a: set<T>, b: set<T>)
    requires a <= b
    ensures |a| <= |b|
    decreases |b|
  {
    if b != {} {
      var x :| x in b;
      SubsetCard(a - {x}, b - {x});
    }
  }

  // ---------------------------------------------------------------------
  // Lifetimes

  /** A static service resolves to its value and changes nothing. */
  lemma StaticIsIdentity(ident: Ident, parents: seq<Ident>, stores: seq<ServiceStore>,
                         di: map<FnRef, DiParamTypes>, design: map<FnRef, seq<Value>>, w: World)
    requires NoDup(parents)
    requires Lookup(ident, stores).Some? && Lookup(ident, stores).value.StaticService?
    ensures Resolution(ident, parents, stores, di, design, w) == (Success(Lookup(ident, stores).value.value), w)
  {
  }

  /**
   * A scoped or singleton value, once resolved, is what every later
   * resolution of the same identifier returns, without building anything:
   * for a scoped service within the same call, for a singleton in any world
   * that kept its cell.
   */
  lemma CachedValueReused(ident: Ident, p1: seq<Ident>, p2: seq<Ident>, stores: seq<ServiceStore>,
                          di: map<FnRef, DiParamTypes>, design: map<FnRef, seq<Value>>, w0: World, w1: World)
    requires NoDup(p1) && NoDup(p2)
    requires Lookup(ident, stores).Some? && !Lookup(ident, stores).value.StaticService?
    requires Lookup(ident, stores).value.lifetime != Transient
    requires Resolution(ident, p1, stores, di, design, w0).0.Success?
    requires !IsNullish(Resolution(ident, p1, stores, di, design, w0).0.value)
    requires Grows(Resolution(ident, p1, stores, di, design, w0).1, w1)
    ensures Resolution(ident, p2, stores, di, design, w1) == (Resolution(ident, p1, stores, di, design, w0).0, w1)
  {
    var s := Lookup(ident, stores).value;
    var (r, w) := Resolution(ident, p1, stores, di, design, w0);
    ResolutionOutcome(ident, p1, stores, di, design, w0);
    assert Placed(ident, s, r.value, w);
    if s.lifetime == Singleton {
      assert s.cell in w.cells;
    }
    assert CachedEntry(ident, s, w1) == r.value;
  }

  /** A cache hit on a class service returns the cached value at once: nothing is resolved or built. */
  lemma NewableHitShortCircuits(ident: Ident, parents: seq<Ident>, stores: seq<ServiceStore>,
                                di: map<FnRef, DiParamTypes>, design: map<FnRef, seq<Value>>, w: World)
    requires NoDup(parents)
    requires Lookup(ident, stores).Some? && Lookup(ident, stores).value.NewableService?
    requires CachedEntry(ident, Lookup(ident, stores).value, w) != Undefined
    ensures Resolution(ident, parents, stores, di, design, w)
         == (Success(CachedEntry(ident, Lookup(ident, stores).value, w)), w)
  {
  }

  /**
   * A factory service whose cache holds nothing but `undefined` or `null`
   * calls its factory and caches the result per lifetime; a transient one
   * thus calls it on every resolution.
   */
  lemma DynamicMissCallsFactory(ident: Ident, parents: seq<Ident>, stores: seq<ServiceStore>,
                                di: map<FnRef, DiParamTypes>, design: map<FnRef, seq<Value>>, w: World)
    requires NoDup(parents)
    requires Lookup(ident, stores).Some? && Lookup(ident, stores).value.DynamicService?
    requires IsNullish(CachedEntry(ident, Lookup(ident, stores).value, w))
    ensures var s := Lookup(ident, stores).value;
            var (v, w') := CreatedAndCached(ident, Call(s.fn), s.lifetime, s.cell, w);
      Resolution(ident, parents, stores, di, design, w) == (Success(v), w')
  {
  }

  /** A transient class service builds a new object on every resolution. */
  lemma TransientIsFresh(ident: Ident, parents: seq<Ident>, stores: seq<ServiceStore>,
                         di: map<FnRef, DiParamTypes>, design: map<FnRef, seq<Value>>, w: World)
    requires NoDup(parents)
    requires Lookup(ident, stores).Some? && Lookup(ident, stores).value.NewableService?
    requires Lookup(ident, stores).value.lifetime == Transient
    ensures var (r, w') := Resolution(ident, parents, stores, di, design, w);
      r.Success? ==> FreshlyBuilt(r.value, Lookup(ident, stores).value.impl, w, w')
  {
    ResolutionOutcome(ident, parents, stores, di, design, w);
  }

  /** Two resolutions of a transient class service, the second in any later world, give two objects. */
  lemma TransientInstancesDistinct(ident: Ident, p1: seq<Ident>, p2: seq<Ident>, stores: seq<ServiceStore>,
                                   di: map<FnRef, DiParamTypes>, design: map<FnRef, seq<Value>>, w0: World, w1: World)
    requires NoDup(p1) && NoDup(p2)
    requires Lookup(ident, stores).Some? && Lookup(ident, stores).value.NewableService?
    requires Lookup(ident, stores).value.lifetime == Transient
    requires Resolution(ident, p1, stores, di, design, w0).1.objects <= w1.objects
    ensures var r1 := Resolution(ident, p1, stores, di, design, w0).0;
            var r2 := Resolution(ident, p2, stores, di, design, w1).0;
      r1.Success? && r2.Success? ==> r1.value != r2.value
  {
    TransientIsFresh(ident, p1, stores, di, design, w0);
    TransientIsFresh(ident, p2, stores, di, design, w1);
  }

  /** Each top-level call starts a fresh scope: a scoped class service is built anew. */
  lemma ScopedFreshEachCall(ident: Ident, stores: seq<ServiceStore>, di: map<FnRef, DiParamTypes>,
                            design: map<FnRef, seq<Value>>, cells: map<CacheCell, Value>, objects: seq<Allocation>)
    requires Lookup(ident, stores).Some? && Lookup(ident, stores).value.NewableService?
    requires Lookup(ident, stores).value.lifetime == Scoped
    ensures var (r, _, objects') := TopResolution(ident, stores, di, design, cells, objects);
      r.Success? ==>
        && r.value.Obj? && |objects| <= r.value.id < |objects'|
        && objects'[r.value.id].Constructed? && objects'[r.value.id].impl == Lookup(ident, stores).value.impl
  {
    var s := Lookup(ident, stores).value;
    assert CachedEntry(ident, s, World(cells, map[], objects)) == Undefined;
    ResolutionOutcome(ident, [], stores, di, design, World(cells, map[], objects));
  }

  /** Two top-level calls never share a scoped class instance. */
  lemma ScopedDistinctAcrossCalls(ident: Ident, stores: seq<ServiceStore>, di: map<FnRef, DiParamTypes>,
                                  design: map<FnRef, seq<Value>>, cells0: map<CacheCell, Value>,
                                  objects0: seq<Allocation>, cells1: map<CacheCell, Value>, objects1: seq<Allocation>)
    requires Lookup(ident, stores).Some? && Lookup(ident, stores).value.NewableService?
    requires Lookup(ident, stores).value.lifetime == Scoped
    requires TopResolution(ident, stores, di, design, cells0, objects0).2 <= objects1
    ensures var r1 := TopResolution(ident, stores, di, design, cells0, objects0).0;
            var r2 := TopResolution(ident, stores, di, design, cells1, objects1).0;
      r1.Success? && r2.Success? ==> r1.value != r2.value
  {
    ScopedFreshEachCall(ident, stores, di, design, cells0, objects0);
    ScopedFreshEachCall(ident, stores, di, design, cells1, objects1);
  }

  /** `cells'` and `objects'` keep every defined cache cell and every object of `cells` and `objects`. */
  ghost predicate Persists(cells: map<CacheCell, Value>, objects: seq<Allocation>,
                           cells': map<CacheCell, Value>, objects': seq<Allocation>)
  {
    && objects <= objects'
    && forall c :: c in cells && !IsNullish(cells[c]) ==> c in cells' && cells'[c] == cells[c]
  }

  /** A top-level call keeps what earlier calls cached and created. */
  lemma TopResolutionPersists(ident: Ident, stores: seq<ServiceStore>, di: map<FnRef, DiParamTypes>,
                              design: map<FnRef, seq<Value>>, cells: map<CacheCell, Value>, objects: seq<Allocation>)
    ensures var (_, cells', objects') := TopResolution(ident, stores, di, design, cells, objects);
      Persists(cells, objects, cells', objects')
  {
  }

  /**
   * A singleton, once resolved, is the result of every later top-level call,
   * which then changes nothing.
   */
  lemma SingletonSharedAcrossCalls(ident: Ident, stores: seq<ServiceStore>, di: map<FnRef, DiParamTypes>,
                                   design: map<FnRef, seq<Value>>, cells0: map<CacheCell, Value>,
                                   objects0: seq<Allocation>, cells1: map<CacheCell, Value>, objects1: seq<Allocation>)
    requires Lookup(ident, stores).Some? && !Lookup(ident, stores).value.StaticService?
    requires Lookup(ident, stores).value.lifetime == Singleton
    requires var (r, cells, objects) := TopResolution(ident, stores, di, design, cells0, objects0);
      r.Success? && !IsNullish(r.value) && Persists(cells, objects, cells1, objects1)
    ensures TopResolution(ident, stores, di, design, cells1, objects1)
         == (TopResolution(ident, stores, di, design, cells0, objects0).0, cells1, objects1)
  {
    var w0 := World(cells0, map[], objects0);
    var (r, w) := Resolution(ident, [], stores, di, design, w0);
    var w1 := World(cells1, map[], objects1);
    var s := Lookup(ident, stores).value;
    ResolutionOutcome(ident, [], stores, di, design, w0);
    assert Placed(ident, s, r.value, w);
    assert s.cell in w.cells;
    assert CachedEntry(ident, s, w1) == r.value;
  }

  // ---------------------------------------------------------------------
  // Errors

  /** A constructor parameter whose identifier fails the run-time check is an error naming its index. */
  lemma InvalidParamRejected(impl: FnRef, auto: seq<Value>, param: map<nat, Ident>, i: nat, acc: seq<Value>,
                             parents: seq<Ident>, stores: seq<ServiceStore>,
                             di: map<FnRef, DiParamTypes>, design: map<FnRef, seq<Value>>, w: World)
    requires i < |auto| && NoDup(parents) && !IsServiceIdent(ArgIdent(param, auto, i))
    ensures ArgResolution(impl, auto, param, i, acc, parents, stores, di, design, w)
         == (Failure(InvalidConstructorParam(impl, i)), w)
  {
  }

  /** A missing service fails the call and changes nothing. */
  lemma MissingServiceFails(ident: Ident, stores: seq<ServiceStore>, di: map<FnRef, DiParamTypes>,
                            design: map<FnRef, seq<Value>>, cells: map<CacheCell, Value>, objects: seq<Allocation>)
    requires forall j :: 0 <= j < |stores| ==> ident !in stores[j]
    ensures TopResolution(ident, stores, di, design, cells, objects) == (Failure(ServiceNotFound(ident)), cells, objects)
  {
    LookupMissing(ident, stores);
  }

  /**
   * A circular dependency reported by a top-level call names a real cycle:
   * its last identifier occurs earlier in it, and nothing before the last repeats.
   */
  lemma CycleReportedIsCycle(ident: Ident, stores: seq<ServiceStore>, di: map<FnRef, DiParamTypes>,
                             design: map<FnRef, seq<Value>>, cells: map<CacheCell, Value>, objects: seq<Allocation>)
    ensures var r := TopResolution(ident, stores, di, design, cells, objects).0;
      r.Failure? && r.error.CircularDependency? ==>
        var ch := r.error.chain;
        && |ch| >= 2
        && ch[|ch| - 1] in ch[..|ch| - 1]
        && NoDup(ch[..|ch| - 1])
  {
  }
}
