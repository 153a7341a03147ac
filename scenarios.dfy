/**
 * Worked configurations: small registrations and what resolving them
 * yields, object by object. Classes `A`, `B` and `C` are registered under
 * themselves; no class has injected properties.
 */
module Scenarios {

  import opened Wrappers
  import opened Sequences
  import opened Services
  import opened Errors
  import opened Metadata
  import opened Resolver

  const A: Ident := Fn(Class(0))
  const B: Ident := Fn(Class(1))
  const C: Ident := Fn(Class(2))

  /** Nothing is cached yet for `ident`, whose cell is `cell`. */
  predicate Miss(ident: Ident, lifetime: Lifetime, cell: CacheCell, w: World) {
    LoadFromCache(ident, lifetime, w.scoped, CellGet(w.cells, cell)) == Undefined
  }

  /** The world after constructing `impl` from `args` in `w` and caching the object. */
  function After(ident: Ident, impl: FnRef, args: seq<Value>, lifetime: Lifetime, cell: CacheCell, w: World): World {
    StoreInCache(ident, Obj(|w.objects|), lifetime, cell, w.(objects := w.objects + [Constructed(impl, args, [])]))
  }

  // ---------------------------------------------------------------------
  // One step of the walk at a time

  /** A class service the cache misses is built. */
  lemma MissBuilds(ident: Ident, parents: seq<Ident>, stores: seq<ServiceStore>, design: map<FnRef, seq<Value>>,
                   w: World, s: Service)
    requires NoDup(parents) && Lookup(ident, stores) == Some(s) && s.NewableService? && Miss(ident, s.lifetime, s.cell, w)
    ensures ident in Keys(stores)
    ensures Resolution(ident, parents, stores, map[], design, w)
         == Build(ident, s.impl, s.lifetime, s.cell, parents, stores, map[], design, w)
  {
    LookupFound(ident, stores);
  }

  /** Building a class without injection records: gather the arguments, then construct and cache. */
  lemma BuildPlain(ident: Ident, impl: FnRef, lifetime: Lifetime, cell: CacheCell, parents: seq<Ident>,
                   stores: seq<ServiceStore>, design: map<FnRef, seq<Value>>, w: World)
    requires NoDup(parents) && ident in Keys(stores) && Miss(ident, lifetime, cell, w)
    ensures var (args, w1) := ArgResolution(impl, AutoDeps(design, impl), map[], 0, [], parents, stores, map[], design, w);
      Build(ident, impl, lifetime, cell, parents, stores, map[], design, w)
        == if args.Failure? then (Failure(args.error), w1)
           else (Success(Obj(|w1.objects|)), After(ident, impl, args.value, lifetime, cell, w1))
  {
    var (args, w1) := ArgResolution(impl, AutoDeps(design, impl), map[], 0, [], parents, stores, map[], design, w);
    assert ManualDeps(map[], impl) == DiParamTypes([], map[]);
    assert PropResolution([], 0, [], parents, stores, map[], design, w1) == (Success([]), w1);
  }

  /** A constructor without parameters needs nothing resolved. */
  lemma NoArgs(impl: FnRef, parents: seq<Ident>, stores: seq<ServiceStore>, design: map<FnRef, seq<Value>>, w: World)
    requires NoDup(parents)
    ensures ArgResolution(impl, [], map[], 0, [], parents, stores, map[], design, w) == (Success([]), w)
  {
  }

  /** A constructor with one parameter of service type `a` not on the path resolves `a` with the path extended. */
  lemma OneArg(impl: FnRef, a: Ident, parents: seq<Ident>, stores: seq<ServiceStore>,
               design: map<FnRef, seq<Value>>, w: World)
    requires NoDup(parents) && IsServiceIdent(a) && a !in parents
    ensures NoDup(parents + [a])
    ensures var (r, w1) := Resolution(a, parents + [a], stores, map[], design, w);
      ArgResolution(impl, [a], map[], 0, [], parents, stores, map[], design, w)
        == if r.Failure? then (Failure(r.error), w1) else (Success([r.value]), w1)
  {
    var (r, w1) := Resolution(a, parents + [a], stores, map[], design, w);
    if r.Success? {
      assert [] + [r.value] == [r.value];
      assert ArgResolution(impl, [a], map[], 1, [r.value], parents, stores, map[], design, w1) == (Success([r.value]), w1);
    }
  }

  /** A constructor parameter already on the path is a cycle, reported as the path then the parameter. */
  lemma OneArgCycle(impl: FnRef, a: Ident, parents: seq<Ident>, stores: seq<ServiceStore>,
                    design: map<FnRef, seq<Value>>, w: World)
    requires NoDup(parents) && IsServiceIdent(a) && a in parents
    ensures ArgResolution(impl, [a], map[], 0, [], parents, stores, map[], design, w)
         == (Failure(CircularDependency(parents + [a])), w)
  {
  }

  // ---------------------------------------------------------------------
  // `A`, and `B` over one `A`

  function DirectDesign(): map<FnRef, seq<Value>> {
    map[Class(1) := [A]]
  }

  function DirectStore(lifetime: Lifetime, cellA: CacheCell, cellB: CacheCell): ServiceStore {
    map[A := NewableService(A, lifetime, Class(0), cellA), B := NewableService(B, lifetime, Class(1), cellB)]
  }

  /** Resolving `A` on a cache miss builds one `A` and caches it. */
  lemma LeafA(lifetime: Lifetime, parents: seq<Ident>, stores: seq<ServiceStore>, design: map<FnRef, seq<Value>>,
              cellA: CacheCell, w: World)
    requires NoDup(parents) && Class(0) !in design && Miss(A, lifetime, cellA, w)
    requires Lookup(A, stores) == Some(NewableService(A, lifetime, Class(0), cellA))
    ensures Resolution(A, parents, stores, map[], design, w)
         == (Success(Obj(|w.objects|)), After(A, Class(0), [], lifetime, cellA, w))
  {
    MissBuilds(A, parents, stores, design, w, NewableService(A, lifetime, Class(0), cellA));
    BuildPlain(A, Class(0), lifetime, cellA, parents, stores, design, w);
    NoArgs(Class(0), parents, stores, design, w);
  }

  /** A class service whose cache holds `v` resolves to it without building anything. */
  lemma Hit(ident: Ident, parents: seq<Ident>, stores: seq<ServiceStore>, design: map<FnRef, seq<Value>>,
            w: World, s: Service, v: Value)
    requires NoDup(parents) && Lookup(ident, stores) == Some(s) && s.NewableService?
    requires LoadFromCache(ident, s.lifetime, w.scoped, CellGet(w.cells, s.cell)) == v && v != Undefined
    ensures Resolution(ident, parents, stores, map[], design, w) == (Success(v), w)
  {
  }

  /**
   * Resolving `B` when nothing is cached, with `A` not on the path, builds an
   * `A`, then a `B` over it, caching both.
   */
  lemma BuildsAB(lifetime: Lifetime, parents: seq<Ident>, stores: seq<ServiceStore>, design: map<FnRef, seq<Value>>,
                 cellA: CacheCell, cellB: CacheCell, w: World)
    requires NoDup(parents) && A !in parents
    requires Class(0) !in design && Class(1) in design && design[Class(1)] == [A]
    requires cellA != cellB && Miss(A, lifetime, cellA, w) && Miss(B, lifetime, cellB, w)
    requires Lookup(A, stores) == Some(NewableService(A, lifetime, Class(0), cellA))
    requires Lookup(B, stores) == Some(NewableService(B, lifetime, Class(1), cellB))
    ensures var w1 := After(A, Class(0), [], lifetime, cellA, w);
      Resolution(B, parents, stores, map[], design, w)
        == (Success(Obj(|w.objects| + 1)), After(B, Class(1), [Obj(|w.objects|)], lifetime, cellB, w1))
  {
    var w1 := After(A, Class(0), [], lifetime, cellA, w);
    assert Miss(B, lifetime, cellB, w1);
    MissBuilds(B, parents, stores, design, w, NewableService(B, lifetime, Class(1), cellB));
    BuildPlain(B, Class(1), lifetime, cellB, parents, stores, design, w);
    assert AutoDeps(design, Class(1)) == [A];
    OneArg(Class(1), A, parents, stores, design, w);
    LeafA(lifetime, parents + [A], stores, design, cellA, w);
  }

  /** Heap contents after building an `A` at address `n` and then a `B` over it. */
  function BuiltAB(n: nat): seq<Allocation> {
    [Constructed(Class(0), [], []), Constructed(Class(1), [Obj(n)], [])]
  }

  /** Two calls resolving a transient `B` build two `B`s, each over its own, new `A`. */
  lemma TransientDirect(cellA: CacheCell, cellB: CacheCell, cells: map<CacheCell, Value>)
    requires cellA != cellB
    ensures var stores := [DirectStore(Transient, cellA, cellB)];
      && TopResolution(B, stores, map[], DirectDesign(), cells, []) == (Success(Obj(1)), cells, BuiltAB(0))
      && TopResolution(B, stores, map[], DirectDesign(), cells, BuiltAB(0))
         == (Success(Obj(3)), cells, BuiltAB(0) + BuiltAB(2))
  {
    var stores := [DirectStore(Transient, cellA, cellB)];
    assert Lookup(A, stores) == Some(NewableService(A, Transient, Class(0), cellA));
    assert Lookup(B, stores) == Some(NewableService(B, Transient, Class(1), cellB));
    BuildsAB(Transient, [], stores, DirectDesign(), cellA, cellB, World(cells, map[], []));
    assert [] + [Constructed(Class(0), [], [])] + [Constructed(Class(1), [Obj(0)], [])] == BuiltAB(0);
    BuildsAB(Transient, [], stores, DirectDesign(), cellA, cellB, World(cells, map[], BuiltAB(0)));
    assert BuiltAB(0) + [Constructed(Class(0), [], [])] + [Constructed(Class(1), [Obj(2)], [])] == BuiltAB(0) + BuiltAB(2);
  }

  /** The first call resolving a singleton `B` builds an `A` and a `B` over it, and fills both cells. */
  lemma SingletonFirstCall(cellA: CacheCell, cellB: CacheCell)
    requires cellA != cellB
    ensures TopResolution(B, [DirectStore(Singleton, cellA, cellB)], map[], DirectDesign(),
                          map[cellA := Undefined, cellB := Undefined], [])
         == (Success(Obj(1)), map[cellA := Obj(0), cellB := Obj(1)], BuiltAB(0))
  {
    var stores := [DirectStore(Singleton, cellA, cellB)];
    var empty := map[cellA := Undefined, cellB := Undefined];
    assert Lookup(A, stores) == Some(NewableService(A, Singleton, Class(0), cellA));
    assert Lookup(B, stores) == Some(NewableService(B, Singleton, Class(1), cellB));
    BuildsAB(Singleton, [], stores, DirectDesign(), cellA, cellB, World(empty, map[], []));
    assert [] + [Constructed(Class(0), [], [])] + [Constructed(Class(1), [Obj(0)], [])] == BuiltAB(0);
    assert empty[cellA := Obj(0)][cellB := Obj(1)] == map[cellA := Obj(0), cellB := Obj(1)];
  }

  /** The first call resolving a singleton `B` fills both cells; the second returns the same `B` and changes nothing. */
  lemma SingletonDirect(cellA: CacheCell, cellB: CacheCell)
    requires cellA != cellB
    ensures var stores := [DirectStore(Singleton, cellA, cellB)];
            var empty := map[cellA := Undefined, cellB := Undefined];
            var filled := map[cellA := Obj(0), cellB := Obj(1)];
      && TopResolution(B, stores, map[], DirectDesign(), empty, []) == (Success(Obj(1)), filled, BuiltAB(0))
      && TopResolution(B, stores, map[], DirectDesign(), filled, BuiltAB(0)) == (Success(Obj(1)), filled, BuiltAB(0))
  {
    var stores := [DirectStore(Singleton, cellA, cellB)];
    var filled := map[cellA := Obj(0), cellB := Obj(1)];
    SingletonFirstCall(cellA, cellB);
    assert Lookup(B, stores) == Some(NewableService(B, Singleton, Class(1), cellB));
    Hit(B, [], stores, DirectDesign(), World(filled, map[], BuiltAB(0)), NewableService(B, Singleton, Class(1), cellB), Obj(1));
  }

  /** `B` takes two `A`s. */
  function PairDesign(): map<FnRef, seq<Value>> {
    map[Class(1) := [A, A]]
  }

  /** One constructor parameter of service type, not on the path, that resolves to `v`: the loop moves on with `v` gathered. */
  lemma ArgStep(impl: FnRef, auto: seq<Value>, i: nat, acc: seq<Value>, parents: seq<Ident>, stores: seq<ServiceStore>,
                design: map<FnRef, seq<Value>>, w: World, v: Value, w1: World)
    requires i < |auto| && IsServiceIdent(auto[i]) && auto[i] !in parents
    requires NoDup(parents) && NoDup(parents + [auto[i]])
    requires Resolution(auto[i], parents + [auto[i]], stores, map[], design, w) == (Success(v), w1)
    ensures ArgResolution(impl, auto, map[], i, acc, parents, stores, map[], design, w)
         == ArgResolution(impl, auto, map[], i + 1, acc + [v], parents, stores, map[], design, w1)
  {
    assert ArgIdent(map[], auto, i) == auto[i];
  }

  /** The second parameter of `B` finds the scoped `A` the first one built. */
  lemma SecondArgShared(stores: seq<ServiceStore>, cellA: CacheCell, n: nat, acc: seq<Value>, w1: World)
    requires Lookup(A, stores) == Some(NewableService(A, Scoped, Class(0), cellA))
    requires Get(w1.scoped, A) == Obj(n)
    ensures ArgResolution(Class(1), [A, A], map[], 1, acc, [], stores, map[], PairDesign(), w1)
         == (Success(acc + [Obj(n)]), w1)
  {
    assert [] + [A] == [A];
    Hit(A, [A], stores, PairDesign(), w1, NewableService(A, Scoped, Class(0), cellA), Obj(n));
    ArgStep(Class(1), [A, A], 1, acc, [], stores, PairDesign(), w1, Obj(n), w1);
  }

  /** The first parameter of `B` builds the scoped `A` and leaves it in the call's cache. */
  lemma FirstArgBuilds(stores: seq<ServiceStore>, cellA: CacheCell, w: World)
    requires Miss(A, Scoped, cellA, w)
    requires Lookup(A, stores) == Some(NewableService(A, Scoped, Class(0), cellA))
    ensures var w1 := After(A, Class(0), [], Scoped, cellA, w);
      && Get(w1.scoped, A) == Obj(|w.objects|)
      && ArgResolution(Class(1), [A, A], map[], 0, [], [], stores, map[], PairDesign(), w)
         == ArgResolution(Class(1), [A, A], map[], 1, [Obj(|w.objects|)], [], stores, map[], PairDesign(), w1)
  {
    var w1 := After(A, Class(0), [], Scoped, cellA, w);
    assert [] + [A] == [A];
    LeafA(Scoped, [A], stores, PairDesign(), cellA, w);
    ArgStep(Class(1), [A, A], 0, [], [], stores, PairDesign(), w, Obj(|w.objects|), w1);
    assert [] + [Obj(|w.objects|)] == [Obj(|w.objects|)];
  }

  /** Within one call, both parameters of `B` receive the same scoped `A`. */
  lemma ScopedPairArgs(stores: seq<ServiceStore>, cellA: CacheCell, w: World)
    requires Miss(A, Scoped, cellA, w)
    requires Lookup(A, stores) == Some(NewableService(A, Scoped, Class(0), cellA))
    ensures var n := |w.objects|;
      ArgResolution(Class(1), [A, A], map[], 0, [], [], stores, map[], PairDesign(), w)
        == (Success([Obj(n), Obj(n)]), After(A, Class(0), [], Scoped, cellA, w))
  {
    var n := |w.objects|;
    var w1 := After(A, Class(0), [], Scoped, cellA, w);
    FirstArgBuilds(stores, cellA, w);
    SecondArgShared(stores, cellA, n, [Obj(n)], w1);
    assert [Obj(n)] + [Obj(n)] == [Obj(n), Obj(n)];
  }

  /** Heap contents after building an `A` at address `n` and then a `B` over two copies of it. */
  function BuiltPair(n: nat): seq<Allocation> {
    [Constructed(Class(0), [], []), Constructed(Class(1), [Obj(n), Obj(n)], [])]
  }

  /** Resolving a scoped `B` when nothing is cached builds one `A` and a `B` over two copies of it. */
  lemma ScopedPairRoot(cellA: CacheCell, cellB: CacheCell, w: World)
    requires Miss(A, Scoped, cellA, w) && Miss(B, Scoped, cellB, w)
    ensures var n := |w.objects|;
            var w1 := After(A, Class(0), [], Scoped, cellA, w);
      Resolution(B, [], [DirectStore(Scoped, cellA, cellB)], map[], PairDesign(), w)
        == (Success(Obj(n + 1)), After(B, Class(1), [Obj(n), Obj(n)], Scoped, cellB, w1))
  {
    var stores := [DirectStore(Scoped, cellA, cellB)];
    assert Lookup(A, stores) == Some(NewableService(A, Scoped, Class(0), cellA));
    assert Lookup(B, stores) == Some(NewableService(B, Scoped, Class(1), cellB));
    assert AutoDeps(PairDesign(), Class(1)) == [A, A];
    var w1 := After(A, Class(0), [], Scoped, cellA, w);
    assert Miss(B, Scoped, cellB, w1);
    MissBuilds(B, [], stores, PairDesign(), w, NewableService(B, Scoped, Class(1), cellB));
    BuildPlain(B, Class(1), Scoped, cellB, [], stores, PairDesign(), w);
    ScopedPairArgs(stores, cellA, w);
  }

  /** One call resolving a scoped `B`, whatever the heap holds: one new `A`, then a new `B` over two copies of it. */
  lemma ScopedPairCall(cellA: CacheCell, cellB: CacheCell, cells: map<CacheCell, Value>, objects: seq<Allocation>)
    ensures var n := |objects|;
      TopResolution(B, [DirectStore(Scoped, cellA, cellB)], map[], PairDesign(), cells, objects)
        == (Success(Obj(n + 1)), cells, objects + BuiltPair(n))
  {
    var n := |objects|;
    ScopedPairRoot(cellA, cellB, World(cells, map[], objects));
    assert objects + [Constructed(Class(0), [], [])] + [Constructed(Class(1), [Obj(n), Obj(n)], [])]
        == objects + BuiltPair(n);
  }

  /** A call resolving a scoped `B` builds one `A` for both its parameters; the next call builds anew. */
  lemma ScopedPair(cellA: CacheCell, cellB: CacheCell, cells: map<CacheCell, Value>)
    ensures var stores := [DirectStore(Scoped, cellA, cellB)];
      && TopResolution(B, stores, map[], PairDesign(), cells, []) == (Success(Obj(1)), cells, BuiltPair(0))
      && TopResolution(B, stores, map[], PairDesign(), cells, BuiltPair(0))
         == (Success(Obj(3)), cells, BuiltPair(0) + BuiltPair(2))
  {
    ScopedPairCall(cellA, cellB, cells, []);
    assert [] + BuiltPair(0) == BuiltPair(0);
    ScopedPairCall(cellA, cellB, cells, BuiltPair(0));
  }

  // ---------------------------------------------------------------------
  // Errors

  /** `B` registered without the `A` it needs: the call fails naming `A`, and nothing is built. */
  lemma MissingDependency(stores: seq<ServiceStore>, cellB: CacheCell, cells: map<CacheCell, Value>, objects: seq<Allocation>)
    requires Lookup(A, stores).None?
    requires Lookup(B, stores) == Some(NewableService(B, Transient, Class(1), cellB))
    ensures TopResolution(B, stores, map[], DirectDesign(), cells, objects) == (Failure(ServiceNotFound(A)), cells, objects)
  {
    var w := World(cells, map[], objects);
    MissBuilds(B, [], stores, DirectDesign(), w, NewableService(B, Transient, Class(1), cellB));
    BuildPlain(B, Class(1), Transient, cellB, [], stores, DirectDesign(), w);
    assert AutoDeps(DirectDesign(), Class(1)) == [A];
    OneArg(Class(1), A, [], stores, DirectDesign(), w);
  }

  /** `A` needs `B`, `B` needs `C`, `C` needs `A`. */
  function CycleDesign(): map<FnRef, seq<Value>> {
    map[Class(0) := [B], Class(1) := [C], Class(2) := [A]]
  }

  function CycleStore(cellA: CacheCell, cellB: CacheCell, cellC: CacheCell): ServiceStore {
    map[A := NewableService(A, Transient, Class(0), cellA),
        B := NewableService(B, Transient, Class(1), cellB),
        C := NewableService(C, Transient, Class(2), cellC)]
  }

  /** The cycle's error, as resolving `A` reports it. */
  function CycleError(): Result<Value, Error> {
    Failure(CircularDependency([B, C, A, B]))
  }

  /** A transient class with one parameter `a`: when resolving `a` fails without building, so does the class. */
  lemma FailsThrough(x: Ident, impl: FnRef, cell: CacheCell, a: Ident, parents: seq<Ident>, stores: seq<ServiceStore>,
                     design: map<FnRef, seq<Value>>, w: World, e: Error)
    requires NoDup(parents) && NoDup(parents + [a]) && IsServiceIdent(a) && a !in parents
    requires Lookup(x, stores) == Some(NewableService(x, Transient, impl, cell))
    requires AutoDeps(design, impl) == [a]
    requires Resolution(a, parents + [a], stores, map[], design, w) == (Failure(e), w)
    ensures Resolution(x, parents, stores, map[], design, w) == (Failure(e), w)
  {
    MissBuilds(x, parents, stores, design, w, NewableService(x, Transient, impl, cell));
    BuildPlain(x, impl, Transient, cell, parents, stores, design, w);
    OneArg(impl, a, parents, stores, design, w);
  }

  /** A transient class with one parameter `a`: when `a` resolves to `v`, the class is built over `v`. */
  lemma BuildsOver(x: Ident, impl: FnRef, cell: CacheCell, a: Ident, parents: seq<Ident>, stores: seq<ServiceStore>,
                   design: map<FnRef, seq<Value>>, w: World, v: Value, w1: World)
    requires NoDup(parents) && NoDup(parents + [a]) && IsServiceIdent(a) && a !in parents
    requires Lookup(x, stores) == Some(NewableService(x, Transient, impl, cell))
    requires AutoDeps(design, impl) == [a]
    requires Resolution(a, parents + [a], stores, map[], design, w) == (Success(v), w1)
    ensures Resolution(x, parents, stores, map[], design, w)
         == (Success(Obj(|w1.objects|)), After(x, impl, [v], Transient, cell, w1))
  {
    MissBuilds(x, parents, stores, design, w, NewableService(x, Transient, impl, cell));
    BuildPlain(x, impl, Transient, cell, parents, stores, design, w);
    OneArg(impl, a, parents, stores, design, w);
  }

  /** ".. A, B": on the path B, C, A, `A`'s parameter `B` closes the cycle. */
  lemma CycleClosesAtB(cellA: CacheCell, cellB: CacheCell, cellC: CacheCell, w: World)
    ensures Resolution(A, [B, C, A], [CycleStore(cellA, cellB, cellC)], map[], CycleDesign(), w) == (CycleError(), w)
  {
    var stores := [CycleStore(cellA, cellB, cellC)];
    var sA := NewableService(A, Transient, Class(0), cellA);
    assert Lookup(A, stores) == Some(sA);
    assert AutoDeps(CycleDesign(), Class(0)) == [B];
    MissBuilds(A, [B, C, A], stores, CycleDesign(), w, sA);
    BuildPlain(A, Class(0), Transient, cellA, [B, C, A], stores, CycleDesign(), w);
    OneArgCycle(Class(0), B, [B, C, A], stores, CycleDesign(), w);
    assert [B, C, A] + [B] == [B, C, A, B];
  }

  /** ".. C, A": on the path B, C, `C` resolves its parameter `A`. */
  lemma CycleThroughC(cellA: CacheCell, cellB: CacheCell, cellC: CacheCell, w: World)
    ensures Resolution(C, [B, C], [CycleStore(cellA, cellB, cellC)], map[], CycleDesign(), w) == (CycleError(), w)
  {
    var stores := [CycleStore(cellA, cellB, cellC)];
    assert Lookup(C, stores) == Some(NewableService(C, Transient, Class(2), cellC));
    assert [B, C] + [A] == [B, C, A];
    CycleClosesAtB(cellA, cellB, cellC, w);
    FailsThrough(C, Class(2), cellC, A, [B, C], stores, CycleDesign(), w, CircularDependency([B, C, A, B]));
  }

  /** ".. B, C": on the path B, `B` resolves its parameter `C`. */
  lemma CycleThroughB(cellA: CacheCell, cellB: CacheCell, cellC: CacheCell, w: World)
    ensures Resolution(B, [B], [CycleStore(cellA, cellB, cellC)], map[], CycleDesign(), w) == (CycleError(), w)
  {
    var stores := [CycleStore(cellA, cellB, cellC)];
    assert Lookup(B, stores) == Some(NewableService(B, Transient, Class(1), cellB));
    assert [B] + [C] == [B, C];
    CycleThroughC(cellA, cellB, cellC, w);
    FailsThrough(B, Class(1), cellB, C, [B], stores, CycleDesign(), w, CircularDependency([B, C, A, B]));
  }

  /**
   * Resolving `A` in the cycle A, B, C fails with the chain in traversal
   * order, and builds nothing. The root is not on the path, so the cycle is
   * caught at the second visit of `B`: the chain is B, C, A, B.
   */
  lemma ThreeCycle(cellA: CacheCell, cellB: CacheCell, cellC: CacheCell, cells: map<CacheCell, Value>, objects: seq<Allocation>)
    ensures TopResolution(A, [CycleStore(cellA, cellB, cellC)], map[], CycleDesign(), cells, objects)
         == (Failure(CircularDependency([B, C, A, B])), cells, objects)
  {
    var stores := [CycleStore(cellA, cellB, cellC)];
    var w := World(cells, map[], objects);
    var sA := NewableService(A, Transient, Class(0), cellA);
    assert Lookup(A, stores) == Some(sA);
    assert AutoDeps(CycleDesign(), Class(0)) == [B];
    assert [] + [B] == [B];
    CycleThroughB(cellA, cellB, cellC, w);
    FailsThrough(A, Class(0), cellA, B, [], stores, CycleDesign(), w, CircularDependency([B, C, A, B]));
  }

  // ---------------------------------------------------------------------
  // Several stores

  /**
   * `A` in the first store, `B` (over an `A`) in the second: the second
   * store alone cannot resolve `B`, both together can.
   */
  lemma StoresCombine(cellA: CacheCell, cellB: CacheCell, cells: map<CacheCell, Value>)
    requires cellA != cellB
    ensures var s1 := map[A := NewableService(A, Transient, Class(0), cellA)];
            var s2 := map[B := NewableService(B, Transient, Class(1), cellB)];
      && TopResolution(B, [s2], map[], DirectDesign(), cells, []) == (Failure(ServiceNotFound(A)), cells, [])
      && TopResolution(B, [s1, s2], map[], DirectDesign(), cells, []) == (Success(Obj(1)), cells, BuiltAB(0))
  {
    var s1 := map[A := NewableService(A, Transient, Class(0), cellA)];
    var s2 := map[B := NewableService(B, Transient, Class(1), cellB)];
    assert Lookup(A, [s2]).None?;
    assert Lookup(B, [s2]) == Some(NewableService(B, Transient, Class(1), cellB));
    MissingDependency([s2], cellB, cells, []);
    assert Lookup(A, [s1, s2]) == Some(NewableService(A, Transient, Class(0), cellA));
    assert [s1, s2][1..] == [s2];
    assert Lookup(B, [s1, s2]) == Some(NewableService(B, Transient, Class(1), cellB));
    BuildsAB(Transient, [], [s1, s2], DirectDesign(), cellA, cellB, World(cells, map[], []));
    assert [] + [Constructed(Class(0), [], [])] + [Constructed(Class(1), [Obj(0)], [])] == BuiltAB(0);
  }

  /** `C` needs `B`, `B` needs `A`. */
  function ChainDesign(): map<FnRef, seq<Value>> {
    map[Class(1) := [A], Class(2) := [B]]
  }

  /**
   * `A` and `C` in the first store, `B` in the second: resolving `C` crosses
   * from the first store to the second and back.
   */
  lemma StoresCrossBothWays(cellA: CacheCell, cellB: CacheCell, cellC: CacheCell, cells: map<CacheCell, Value>)
    requires cellA != cellB
    ensures var s1 := map[A := NewableService(A, Transient, Class(0), cellA), C := NewableService(C, Transient, Class(2), cellC)];
            var s2 := map[B := NewableService(B, Transient, Class(1), cellB)];
      TopResolution(C, [s1, s2], map[], ChainDesign(), cells, [])
        == (Success(Obj(2)), cells, BuiltAB(0) + [Constructed(Class(2), [Obj(1)], [])])
  {
    var s1 := map[A := NewableService(A, Transient, Class(0), cellA), C := NewableService(C, Transient, Class(2), cellC)];
    var s2 := map[B := NewableService(B, Transient, Class(1), cellB)];
    var stores := [s1, s2];
    assert stores[1..] == [s2];
    assert Lookup(A, stores) == Some(NewableService(A, Transient, Class(0), cellA));
    assert Lookup(B, stores) == Some(NewableService(B, Transient, Class(1), cellB));
    assert Lookup(C, stores) == Some(NewableService(C, Transient, Class(2), cellC));
    var w := World(cells, map[], []);
    assert [] + [B] == [B];
    BuildsAB(Transient, [B], stores, ChainDesign(), cellA, cellB, w);
    var w2 := After(B, Class(1), [Obj(0)], Transient, cellB, After(A, Class(0), [], Transient, cellA, w));
    assert AutoDeps(ChainDesign(), Class(2)) == [B];
    BuildsOver(C, Class(2), cellC, B, [], stores, ChainDesign(), w, Obj(1), w2);
    assert [] + [Constructed(Class(0), [], [])] + [Constructed(Class(1), [Obj(0)], [])] == BuiltAB(0);
  }
}
