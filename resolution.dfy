/**
 * The resolution algorithm: a depth-first walk over an ordered list of
 * stores that builds the value of an identifier, caching per lifetime and
 * rejecting circular dependency chains.
 *
 * `Resolution` and its two companions specify the walk as functions over a
 * `World` value; the methods `TryGet`, `ResolveWithin` and `Resolve` are the
 * walk itself, over the mutable cache cells, the per-call `Context` and the
 * `Heap` of created objects, and are proved to compute exactly the functions.
 */
module Resolver {

  import opened Wrappers
  import opened Sequences
  import opened Services
  import opened Errors
  import opened Metadata

  /** What the heap records of an object the engine created. */
  datatype Allocation =
    /** `new impl(...args)` followed by one assignment per injected property. */
    | Constructed(impl: FnRef, args: seq<Value>, props: seq<(PropKey, Value)>)
    /** The result of one call of a `FreshEach(tag)` factory. */
    | Produced(tag: nat)

  /**
   * The state a resolution reads and writes: the contents of the descriptors'
   * cache cells, the per-call scoped cache, and every object created so far
   * (an object's identity is its index).
   */
  datatype World = World(cells: map<CacheCell, Value>, scoped: map<Ident, Value>, objects: seq<Allocation>)

  /** The objects created so far; `Obj(i)` is the object at address `i`. */
  class Heap {
    var objects: seq<Allocation>

    constructor ()
      ensures objects == []
    {
      objects := [];
    }
  }

  /** The per-call resolution context: the scoped cache. */
  class Context {
    var cache: map<Ident, Value>

    constructor ()
      ensures cache == map[]
    {
      cache := map[];
    }
  }

  // ---------------------------------------------------------------------
  // Stores

  /** The descriptor of the first store, in list order, that holds `ident`. */
  function Lookup(ident: Ident, stores: seq<ServiceStore>): Option<Service>
  {
    if |stores| == 0 then None
    else if ident in stores[0] then Some(stores[0][ident])
    else Lookup(ident, stores[1..])
  }

  /** Every identifier some store holds. */
  ghost function Keys(stores: seq<ServiceStore>): set<Ident>
  {
    if |stores| == 0 then {} else stores[0].Keys + Keys(stores[1..])
  }

  /** The cache cells of the lifetimed descriptors of one store. */
  ghost function StoreCells(store: ServiceStore): set<CacheCell>
  {
    set k | k in store && !store[k].StaticService? :: store[k].cell
  }

  /** Every cache cell of a descriptor some store holds. */
  ghost function CellsOf(stores: seq<ServiceStore>): set<CacheCell>
  {
    if |stores| == 0 then {} else StoreCells(stores[0]) + CellsOf(stores[1..])
  }

  /** `Lookup` finds a descriptor exactly for the identifiers some store holds, and its cell is one of theirs. */
  lemma {:induction false} LookupFound(ident: Ident, stores: seq<ServiceStore>)
    ensures Lookup(ident, stores).Some? <==> ident in Keys(stores)
    ensures Lookup(ident, stores).Some? && !Lookup(ident, stores).value.StaticService? ==>
              Lookup(ident, stores).value.cell in CellsOf(stores)
  {
    if |stores| > 0 && ident !in stores[0] {
      LookupFound(ident, stores[1..]);
    }
  }

  /** A cell of the stores belongs to some stored lifetimed descriptor. */
  lemma {:induction false} CellOwner(stores: seq<ServiceStore>, c: CacheCell) returns (i: nat, k: Ident)
    requires c in CellsOf(stores)
    ensures i < |stores| && k in stores[i] && !stores[i][k].StaticService? && stores[i][k].cell == c
  {
    if c in StoreCells(stores[0]) {
      i := 0;
      k :| k in stores[0] && !stores[0][k].StaticService? && stores[0][k].cell == c;
    } else {
      var j, k' := CellOwner(stores[1..], c);
      i, k := j + 1, k';
    }
  }

  /** The cells of the stores are allocated objects. */
  lemma CellsAllocated(stores: seq<ServiceStore>)
    ensures forall c :: c in CellsOf(stores) ==> allocated(c)
  {
    forall c | c in CellsOf(stores)
      ensures allocated(c)
    {
      var i, k := CellOwner(stores, c);
    }
  }

  /** The distance to exhaustion: identifiers some store holds that are not yet on the path. */
  ghost function Measure(stores: seq<ServiceStore>, parents: seq<Ident>): nat
  {
    |Keys(stores) - Elements(parents)|
  }

  /** Extending the path by a stored identifier shrinks the measure; by any other identifier it keeps it. */
  lemma MeasureStep(stores: seq<ServiceStore>, parents: seq<Ident>, a: Ident)
    requires a !in parents
    ensures a in Keys(stores) ==> Measure(stores, parents + [a]) < Measure(stores, parents)
    ensures a !in Keys(stores) ==> Measure(stores, parents + [a]) == Measure(stores, parents)
  {
    var K, P := Keys(stores), Elements(parents);
    assert Elements(parents + [a]) == P + {a};
    assert K - (P + {a}) == (K - P) - {a};
    if a in K {
      assert (K - P) == ((K - P) - {a}) + {a};
    } else {
      assert (K - P) - {a} == K - P;
    }
  }

  // ---------------------------------------------------------------------
  // Cache access

  /** A map's `get`: `undefined` for a missing key. */
  function Get(m: map<Ident, Value>, k: Ident): Value
  {
    if k in m then m[k] else Undefined
  }

  /** The content of a cell in a snapshot; `undefined` for an unknown cell. */
  function CellGet(cells: map<CacheCell, Value>, c: CacheCell): Value
  {
    if c in cells then cells[c] else Undefined
  }

  /**
   * `loadFromCache`: nothing for a transient service, the scoped cache's
   * entry under the identifier for a scoped one, the descriptor's own cell
   * for a singleton.
   */
  function LoadFromCache(ident: Ident, lifetime: Lifetime, scoped: map<Ident, Value>, cell: Value): Value
  {
    match lifetime
    case Transient => Undefined
    case Scoped => Get(scoped, ident)
    case Singleton => cell
  }

  /** The cache write of `createUsingCache`: which part of the world stores `v`, per lifetime. */
  function StoreInCache(ident: Ident, v: Value, lifetime: Lifetime, cell: CacheCell, w: World): (w': World)
    ensures w'.objects == w.objects
    ensures lifetime == Transient ==> w' == w
    ensures lifetime == Scoped ==> w'.cells == w.cells && w'.scoped.Keys == w.scoped.Keys + {ident} && w'.scoped[ident] == v
    ensures lifetime == Scoped ==> forall k :: k in w.scoped && k != ident ==> w'.scoped[k] == w.scoped[k]
    ensures lifetime == Singleton ==> w'.scoped == w.scoped && CellGet(w'.cells, cell) == v
    ensures lifetime == Singleton ==> w'.cells.Keys == w.cells.Keys + {cell}
    ensures lifetime == Singleton ==> forall c :: c in w.cells && c != cell ==> w'.cells[c] == w.cells[c]
  {
    match lifetime
    case Transient => w
    case Scoped => w.(scoped := w.scoped[ident := v])
    case Singleton => w.(cells := w.cells[cell := v])
  }

  /** How a value is made: by constructing a class, or by calling a factory. */
  datatype Creator = Construct(impl: FnRef, args: seq<Value>, props: seq<(PropKey, Value)>) | Call(fn: Producer)

  /**
   * The value a creator makes, and the heap after it: at most one new
   * object, at the next address, which is then the value made; only a
   * constant factory allocates nothing.
   */
  function Create(make: Creator, objects: seq<Allocation>): (r: (Value, seq<Allocation>))
    ensures objects <= r.1 && |r.1| <= |objects| + 1
    ensures r.1 == objects <==> make.Call? && make.fn.Returns?
    ensures r.1 != objects ==> r.0 == Obj(|objects|)
    ensures make.Call? && make.fn.Returns? ==> r.0 == make.fn.result
    ensures make.Construct? ==> r.1[|objects|] == Constructed(make.impl, make.args, make.props)
  {
    match make
    case Construct(impl, args, props) => (Obj(|objects|), objects + [Constructed(impl, args, props)])
    case Call(FreshEach(tag)) => (Obj(|objects|), objects + [Produced(tag)])
    case Call(Returns(v)) => (v, objects)
  }

  /** `createUsingCache` on the world: make the value, then cache it per lifetime. */
  function CreatedAndCached(ident: Ident, make: Creator, lifetime: Lifetime, cell: CacheCell, w: World): (Value, World)
  {
    var (v, objects) := Create(make, w.objects);
    (v, StoreInCache(ident, v, lifetime, cell, w.(objects := objects)))
  }

  // ---------------------------------------------------------------------
  // Cycle detection

  /** `preventCircularGraph`: fails exactly when `ident` is on the path, reporting the path then `ident`. */
  function PreventCircularGraph(ident: Ident, parents: seq<Ident>): (r: Outcome<Error>)
    ensures r.Fail? <==> ident in parents
    ensures r.Fail? ==> r.error == CircularDependency(parents + [ident])
  {
    if ident in parents then Fail(CircularDependency(parents + [ident])) else Pass
  }

  /**
   * What a reported cycle looks like from a call with path `parents`: the
   * chain starts with `parents`, is longer, its last identifier occurs
   * earlier in it, and apart from that last one it repeats nothing.
   */
  ghost predicate CycleReport<T>(parents: seq<Ident>, r: Result<T, Error>)
  {
    r.Failure? && r.error.CircularDependency? ==>
      var ch := r.error.chain;
      && |parents| < |ch|
      && ch[..|parents|] == parents
      && ch[|ch| - 1] in ch[..|ch| - 1]
      && NoDup(ch[..|ch| - 1])
  }

  /**
   * What every resolution step keeps: created objects stay where they are,
   * and a cache entry holding a value other than `undefined` or `null` is
   * never overwritten.
   */
  ghost predicate Grows(w: World, w': World)
  {
    && w.objects <= w'.objects
    && (forall c :: c in w.cells && !IsNullish(w.cells[c]) ==> c in w'.cells && w'.cells[c] == w.cells[c])
    && (forall k :: !IsNullish(Get(w.scoped, k)) ==> Get(w'.scoped, k) == Get(w.scoped, k))
  }

  /** A cycle detected at `ident` on the path `parents` has the reported shape. */
  lemma CycleAtDetection<T>(parents: seq<Ident>, ident: Ident)
    requires NoDup(parents) && ident in parents
    ensures CycleReport(parents, Result<T, Error>.Failure(CircularDependency(parents + [ident])))
  {
    var ch := parents + [ident];
    assert ch[..|parents|] == parents;
    assert ch[..|ch| - 1] == parents;
  }

  /** A cycle a child call reports has the reported shape from the caller's path too. */
  lemma CycleFromChild<T, U>(parents: seq<Ident>, a: Ident, r: Result<T, Error>)
    requires CycleReport(parents + [a], r) && r.Failure?
    ensures CycleReport(parents, Result<U, Error>.Failure(r.error))
  {
    if r.error.CircularDependency? {
      var ch := r.error.chain;
      assert ch[..|parents|] == ch[..|parents| + 1][..|parents|];
    }
  }

  /**
   * One successful iteration of a gathering loop: the world after the rest
   * of the loop has grown from the world before it, and the result, which
   * starts with `acc + [x]`, starts with `acc`.
   */
  lemma LoopStep<T>(parents: seq<Ident>, w: World, w1: World, acc: seq<T>, x: T, n: nat,
                    res: (Result<seq<T>, Error>, World))
    requires Grows(w, w1) && Grows(w1, res.1)
    requires res.0.Success? ==> |res.0.value| == |acc| + 1 + n && res.0.value[..|acc| + 1] == acc + [x]
    ensures Grows(w, res.1)
    ensures res.0.Success? ==> |res.0.value| == |acc| + 1 + n && res.0.value[..|acc|] == acc
    ensures res.0.Success? ==> res.0.value[|acc|] == x
  {
    if res.0.Success? {
      assert res.0.value[..|acc|] == res.0.value[..|acc| + 1][..|acc|];
      assert res.0.value[|acc|] == res.0.value[..|acc| + 1][|acc|];
    }
  }

  lemma GrowsTransitive(w0: World, w1: World, w2: World)
    requires Grows(w0, w1) && Grows(w1, w2)
    ensures Grows(w0, w2)
  {
  }

  // ---------------------------------------------------------------------
  // The walk, as functions

  /** The identifier of constructor parameter `i`: the manual override if any, else the declared type. */
  function ArgIdent(param: map<nat, Ident>, design: seq<Value>, i: nat): Value
    requires i < |design|
  {
    if i in param then param[i] else design[i]
  }

  /** The injection record of a class, or an empty one. */
  function ManualDeps(di: map<FnRef, DiParamTypes>, impl: FnRef): DiParamTypes
  {
    if impl in di then di[impl] else DiParamTypes([], map[])
  }

  /** The declared constructor parameter types of a class, or none. */
  function AutoDeps(design: map<FnRef, seq<Value>>, impl: FnRef): seq<Value>
  {
    if impl in design then design[impl] else []
  }

  /** The entry that the cache of `s` holds for `ident` in `w`. */
  function CachedEntry(ident: Ident, s: Service, w: World): Value
    requires !s.StaticService?
  {
    LoadFromCache(ident, s.lifetime, w.scoped, CellGet(w.cells, s.cell))
  }

  /**
   * `_resolve(ident, parents, stores, context)`: the result and the world
   * after it. The path `parents` holds no identifier twice.
   */
  function Resolution(ident: Ident, parents: seq<Ident>, stores: seq<ServiceStore>,
                      di: map<FnRef, DiParamTypes>, design: map<FnRef, seq<Value>>, w: World)
    : (res: (Result<Value, Error>, World))
    requires NoDup(parents)
    ensures Grows(w, res.1)
    ensures CycleReport(parents, res.0)
    decreases Measure(stores, parents), if ident in Keys(stores) then 1 else 0, 1
  {
    LookupFound(ident, stores);
    match Lookup(ident, stores)
    case None => (Failure(ServiceNotFound(ident)), w)
    case Some(StaticService(_, value)) => (Success(value), w)
    case Some(DynamicService(_, lifetime, fn, cell)) =>
      var cached := LoadFromCache(ident, lifetime, w.scoped, CellGet(w.cells, cell));
      if !IsNullish(cached) then (Success(cached), w)
      else
        var (v, w') := CreatedAndCached(ident, Call(fn), lifetime, cell, w);
        (Success(v), w')
    case Some(NewableService(_, lifetime, impl, cell)) =>
      var cached := LoadFromCache(ident, lifetime, w.scoped, CellGet(w.cells, cell));
      if cached != Undefined then (Success(cached), w)
      else Build(ident, impl, lifetime, cell, parents, stores, di, design, w)
  }

  /** The cache of a lifetimed service `s` holds `v` for `ident`: scoped in the context, singleton in its cell. */
  ghost predicate Placed(ident: Ident, s: Service, v: Value, w: World)
    requires !s.StaticService?
  {
    && (s.lifetime == Scoped ==> Get(w.scoped, ident) == v)
    && (s.lifetime == Singleton ==> CellGet(w.cells, s.cell) == v)
  }

  /** `v` is an object of class `impl` created between `w` and `w'`. */
  ghost predicate FreshlyBuilt(v: Value, impl: FnRef, w: World, w': World)
  {
    && v.Obj? && |w.objects| <= v.id < |w'.objects|
    && w'.objects[v.id].Constructed? && w'.objects[v.id].impl == impl
  }

  /**
   * The cache-miss path of a class service: gather the constructor
   * arguments, then the properties, then construct and cache.
   */
  function Build(ident: Ident, impl: FnRef, lifetime: Lifetime, cell: CacheCell,
                 parents: seq<Ident>, stores: seq<ServiceStore>,
                 di: map<FnRef, DiParamTypes>, design: map<FnRef, seq<Value>>, w: World)
    : (res: (Result<Value, Error>, World))
    requires NoDup(parents) && ident in Keys(stores)
    requires LoadFromCache(ident, lifetime, w.scoped, CellGet(w.cells, cell)) == Undefined
    ensures Grows(w, res.1)
    ensures CycleReport(parents, res.0)
    decreases Measure(stores, parents), 1, 0
  {
    var manual := ManualDeps(di, impl);
    var (args, w1) := ArgResolution(impl, AutoDeps(design, impl), manual.param, 0, [], parents, stores, di, design, w);
    if args.Failure? then (Failure(args.error), w1)
    else
      var (props, w2) := PropResolution(manual.prop, 0, [], parents, stores, di, design, w1);
      if props.Failure? then (Failure(props.error), w2)
      else
        BuildTail(ident, impl, args.value, props.value, lifetime, cell, w, w2);
        var (v, w3) := CreatedAndCached(ident, Construct(impl, args.value, props.value), lifetime, cell, w2);
        (Success(v), w3)
  }

  /** The last step of `Build`: the new object, cached in a world that has only grown since the miss. */
  lemma BuildTail(ident: Ident, impl: FnRef, args: seq<Value>, props: seq<(PropKey, Value)>,
                  lifetime: Lifetime, cell: CacheCell, w: World, w2: World)
    requires Grows(w, w2)
    requires LoadFromCache(ident, lifetime, w.scoped, CellGet(w.cells, cell)) == Undefined
    ensures var (v, w3) := CreatedAndCached(ident, Construct(impl, args, props), lifetime, cell, w2);
      && Grows(w, w3)
      && FreshlyBuilt(v, impl, w, w3)
      && Placed(ident, NewableService(ident, lifetime, impl, cell), v, w3)
  {
    var (v, w3) := CreatedAndCached(ident, Construct(impl, args, props), lifetime, cell, w2);
    assert w3.objects == w2.objects + [Constructed(impl, args, props)];
  }

  /**
   * What one resolution step yields: an unknown identifier fails as not
   * found and changes nothing; a successful lifetimed resolution leaves its
   * value in its cache; a class service the cache missed yields a new
   * object of its class.
   */
  lemma ResolutionOutcome(ident: Ident, parents: seq<Ident>, stores: seq<ServiceStore>,
                          di: map<FnRef, DiParamTypes>, design: map<FnRef, seq<Value>>, w: World)
    requires NoDup(parents)
    ensures var res := Resolution(ident, parents, stores, di, design, w);
      && (Lookup(ident, stores).None? ==> res == (Failure(ServiceNotFound(ident)), w))
      && (res.0.Success? && Lookup(ident, stores).Some? && !Lookup(ident, stores).value.StaticService? ==>
            Placed(ident, Lookup(ident, stores).value, res.0.value, res.1))
      && (res.0.Success? && Lookup(ident, stores).Some? && Lookup(ident, stores).value.NewableService? &&
          CachedEntry(ident, Lookup(ident, stores).value, w) == Undefined ==>
            FreshlyBuilt(res.0.value, Lookup(ident, stores).value.impl, w, res.1))
  {
    LookupFound(ident, stores);
    match Lookup(ident, stores)
    case None =>
    case Some(StaticService(_, _)) =>
    case Some(DynamicService(_, _, _, _)) =>
    case Some(NewableService(_, lifetime, impl, cell)) =>
      if LoadFromCache(ident, lifetime, w.scoped, CellGet(w.cells, cell)) == Undefined {
        BuildOutcome(ident, impl, lifetime, cell, parents, stores, di, design, w);
      }
  }

  /** A successful cache-miss path yields a new object of the class, placed in its cache per lifetime. */
  lemma BuildOutcome(ident: Ident, impl: FnRef, lifetime: Lifetime, cell: CacheCell,
                     parents: seq<Ident>, stores: seq<ServiceStore>,
                     di: map<FnRef, DiParamTypes>, design: map<FnRef, seq<Value>>, w: World)
    requires NoDup(parents) && ident in Keys(stores)
    requires LoadFromCache(ident, lifetime, w.scoped, CellGet(w.cells, cell)) == Undefined
    ensures var res := Build(ident, impl, lifetime, cell, parents, stores, di, design, w);
      res.0.Success? ==>
        && FreshlyBuilt(res.0.value, impl, w, res.1)
        && Placed(ident, NewableService(ident, lifetime, impl, cell), res.0.value, res.1)
  {
    var manual := ManualDeps(di, impl);
    var (args, w1) := ArgResolution(impl, AutoDeps(design, impl), manual.param, 0, [], parents, stores, di, design, w);
    if args.Success? {
      var (props, w2) := PropResolution(manual.prop, 0, [], parents, stores, di, design, w1);
      if props.Success? {
        GrowsTransitive(w, w1, w2);
        BuildTail(ident, impl, args.value, props.value, lifetime, cell, w, w2);
      }
    }
  }

  /** The constructor-argument loop from index `i` on, `acc` holding the arguments gathered so far. */
  function ArgResolution(impl: FnRef, auto: seq<Value>, param: map<nat, Ident>, i: nat, acc: seq<Value>,
                         parents: seq<Ident>, stores: seq<ServiceStore>,
                         di: map<FnRef, DiParamTypes>, design: map<FnRef, seq<Value>>, w: World)
    : (res: (Result<seq<Value>, Error>, World))
    requires i <= |auto| && NoDup(parents)
    ensures Grows(w, res.1)
    ensures CycleReport(parents, res.0)
    ensures res.0.Success? ==> |res.0.value| == |acc| + |auto| - i && res.0.value[..|acc|] == acc
    decreases Measure(stores, parents), 0, |auto| - i + 1
  {
    if i == |auto| then (Success(acc), w)
    else
      var argIdent := ArgIdent(param, auto, i);
      if !IsServiceIdent(argIdent) then (Failure(InvalidConstructorParam(impl, i)), w)
      else
        var a: Ident := argIdent;
        var check := PreventCircularGraph(a, parents);
        if check.Fail? then
          CycleAtDetection<seq<Value>>(parents, a);
          (Failure(check.error), w)
        else
          MeasureStep(stores, parents, a);
          AppendNoDup(parents, a);
          var (r, w1) := Resolution(a, parents + [a], stores, di, design, w);
          if r.Failure? then
            CycleFromChild<Value, seq<Value>>(parents, a, r);
            (Failure(r.error), w1)
          else
            var res := ArgResolution(impl, auto, param, i + 1, acc + [r.value], parents, stores, di, design, w1);
            LoopStep(parents, w, w1, acc, r.value, |auto| - (i + 1), res);
            res
  }

  /** The property loop from entry `i` on, `acc` holding the property values gathered so far. */
  function PropResolution(props: seq<(PropKey, Ident)>, i: nat, acc: seq<(PropKey, Value)>,
                          parents: seq<Ident>, stores: seq<ServiceStore>,
                          di: map<FnRef, DiParamTypes>, design: map<FnRef, seq<Value>>, w: World)
    : (res: (Result<seq<(PropKey, Value)>, Error>, World))
    requires i <= |props| && NoDup(parents)
    ensures Grows(w, res.1)
    ensures CycleReport(parents, res.0)
    ensures res.0.Success? ==> |res.0.value| == |acc| + |props| - i && res.0.value[..|acc|] == acc
    decreases Measure(stores, parents), 0, |props| - i + 1
  {
    if i == |props| then (Success(acc), w)
    else
      var key, p := props[i].0, props[i].1;
      var check := PreventCircularGraph(p, parents);
      if check.Fail? then
        CycleAtDetection<seq<(PropKey, Value)>>(parents, p);
        (Failure(check.error), w)
      else
        MeasureStep(stores, parents, p);
        AppendNoDup(parents, p);
        var (r, w1) := Resolution(p, parents + [p], stores, di, design, w);
        if r.Failure? then
          CycleFromChild<Value, seq<(PropKey, Value)>>(parents, p, r);
          (Failure(r.error), w1)
        else
          var entry: (PropKey, Value) := (key, r.value);
          var res := PropResolution(props, i + 1, acc + [entry], parents, stores, di, design, w1);
          LoopStep(parents, w, w1, acc, entry, |props| - (i + 1), res);
          res
  }

  /**
   * The gathered property values follow the injection record: entry `k` of
   * the record gives its key to the value gathered at the same position.
   */
  lemma {:induction false} PropKeysInOrder(props: seq<(PropKey, Ident)>, i: nat, acc: seq<(PropKey, Value)>,
                                           parents: seq<Ident>, stores: seq<ServiceStore>,
                                           di: map<FnRef, DiParamTypes>, design: map<FnRef, seq<Value>>, w: World)
    requires i <= |props| && NoDup(parents)
    ensures var res := PropResolution(props, i, acc, parents, stores, di, design, w);
      res.0.Success? ==> forall k :: i <= k < |props| ==> res.0.value[|acc| + (k - i)].0 == props[k].0
    decreases |props| - i
  {
    if i < |props| && props[i].1 !in parents {
      AppendNoDup(parents, props[i].1);
      var (r, w1) := Resolution(props[i].1, parents + [props[i].1], stores, di, design, w);
      if r.Success? {
        var acc' := acc + [(props[i].0, r.value)];
        PropStep(props, i, acc, parents, stores, di, design, w);
        PropKeysInOrder(props, i + 1, acc', parents, stores, di, design, w1);
        var res := PropResolution(props, i + 1, acc', parents, stores, di, design, w1);
        if res.0.Success? {
          KeysStep(props, i, acc, r.value, res.0.value);
        }
      }
    }
  }

  /** A property entry that resolves hands the loop on to the next entry. */
  lemma PropStep(props: seq<(PropKey, Ident)>, i: nat, acc: seq<(PropKey, Value)>,
                 parents: seq<Ident>, stores: seq<ServiceStore>,
                 di: map<FnRef, DiParamTypes>, design: map<FnRef, seq<Value>>, w: World)
    requires i < |props| && NoDup(parents) && props[i].1 !in parents && NoDup(parents + [props[i].1])
    requires Resolution(props[i].1, parents + [props[i].1], stores, di, design, w).0.Success?
    ensures var (r, w1) := Resolution(props[i].1, parents + [props[i].1], stores, di, design, w);
      PropResolution(props, i, acc, parents, stores, di, design, w)
        == PropResolution(props, i + 1, acc + [(props[i].0, r.value)], parents, stores, di, design, w1)
  {
    MeasureStep(stores, parents, props[i].1);
  }

  /** One step of `PropKeysInOrder`: the key at the front of the rest, then the keys after it. */
  lemma KeysStep(props: seq<(PropKey, Ident)>, i: nat, acc: seq<(PropKey, Value)>, v: Value,
                 out: seq<(PropKey, Value)>)
    requires i < |props| && |out| == |acc| + |props| - i
    requires out[..|acc| + 1] == acc + [(props[i].0, v)]
    requires forall k :: i + 1 <= k < |props| ==> out[|acc| + 1 + (k - (i + 1))].0 == props[k].0
    ensures forall k :: i <= k < |props| ==> out[|acc| + (k - i)].0 == props[k].0
  {
    assert out[|acc|] == out[..|acc| + 1][|acc|];
    forall k | i <= k < |props|
      ensures out[|acc| + (k - i)].0 == props[k].0
    {
      if k > i {
        assert |acc| + (k - i) == |acc| + 1 + (k - (i + 1));
      }
    }
  }

  /**
   * `resolve(ident, stores)`: a walk from an empty path with a fresh, empty
   * scoped cache; the result, the cache cells and the heap after it.
   */
  function TopResolution(ident: Ident, stores: seq<ServiceStore>, di: map<FnRef, DiParamTypes>,
                         design: map<FnRef, seq<Value>>, cells: map<CacheCell, Value>, objects: seq<Allocation>)
    : (Result<Value, Error>, map<CacheCell, Value>, seq<Allocation>)
  {
    var (r, w) := Resolution(ident, [], stores, di, design, World(cells, map[], objects));
    (r, w.cells, w.objects)
  }

  // ---------------------------------------------------------------------
  // The walk, as methods over the mutable state

  /** The contents of the cache cells of the stores' descriptors. */
  ghost function Cells(stores: seq<ServiceStore>): map<CacheCell, Value>
    reads CellsOf(stores)
  {
    map c | c in CellsOf(stores) :: c.cache
  }

  /** The mutable state of a walk, as a `World`. */
  ghost function Now(stores: seq<ServiceStore>, ctx: Context, heap: Heap): World
    reads CellsOf(stores), ctx, heap
  {
    World(Cells(stores), ctx.cache, heap.objects)
  }

  /** `tryGet`: the descriptor of the first store, in list order, that holds `ident`. */
  method TryGet(ident: Ident, stores: seq<ServiceStore>) returns (r: Option<Service>)
    ensures r == Lookup(ident, stores)
  {
    var i := 0;
    while i < |stores|
      invariant 0 <= i <= |stores|
      invariant Lookup(ident, stores[i..]) == Lookup(ident, stores)
    {
      if ident in stores[i] {
        return Some(stores[i][ident]);
      }
      assert stores[i..][1..] == stores[i + 1..];
      i := i + 1;
    }
    return None;
  }

  /** The creator of `createUsingCache`: construct the class, or call the factory. */
  method Instantiate(make: Creator, heap: Heap) returns (v: Value)
    modifies heap
    ensures (v, heap.objects) == Create(make, old(heap.objects))
  {
    match make
    case Construct(impl, args, props) =>
      v := Obj(|heap.objects|);
      heap.objects := heap.objects + [Constructed(impl, args, props)];
    case Call(FreshEach(tag)) =>
      v := Obj(|heap.objects|);
      heap.objects := heap.objects + [Produced(tag)];
    case Call(Returns(result)) =>
      v := result;
  }

  /**
   * `createUsingCache`: make the value, then store it in the scoped cache
   * (scoped), in the descriptor's cell (singleton) or nowhere (transient).
   */
  method CreateUsingCache(ident: Ident, make: Creator, lifetime: Lifetime, cell: CacheCell, ctx: Context, heap: Heap,
                          ghost stores: seq<ServiceStore>)
    returns (v: Value)
    requires cell in CellsOf(stores)
    modifies cell, ctx, heap
    ensures ctx.cache == if lifetime == Scoped then old(ctx.cache)[ident := v] else old(ctx.cache)
    ensures cell.cache == if lifetime == Singleton then v else old(cell.cache)
    ensures (v, Now(stores, ctx, heap)) == CreatedAndCached(ident, make, lifetime, cell, old(Now(stores, ctx, heap)))
  {
    CellsAllocated(stores);
    v := Instantiate(make, heap);
    match lifetime
    case Transient =>
    case Scoped =>
      ctx.cache := ctx.cache[ident := v];
    case Singleton =>
      ghost var before := Cells(stores);
      cell.cache := v;
      forall c | c in CellsOf(stores)
        ensures Cells(stores)[c] == before[cell := v][c]
      {
      }
      assert Cells(stores) == before[cell := v];
  }

  /**
   * `_resolve`: the walk below one identifier. Its result and the state it
   * leaves are exactly those `Resolution` specifies.
   */
  method ResolveWithin(ident: Ident, parents: seq<Ident>, stores: seq<ServiceStore>,
                       refl: Reflection, ctx: Context, heap: Heap)
    returns (r: Result<Value, Error>)
    requires NoDup(parents)
    modifies CellsOf(stores), ctx, heap
    ensures (r, Now(stores, ctx, heap)) == Resolution(ident, parents, stores, refl.di, refl.design, old(Now(stores, ctx, heap)))
    decreases Measure(stores, parents), if ident in Keys(stores) then 1 else 0, 1
  {
    CellsAllocated(stores);
    LookupFound(ident, stores);
    var service := TryGet(ident, stores);
    match service
    case None =>
      r := Failure(ServiceNotFound(ident));
    case Some(StaticService(_, value)) =>
      r := Success(value);
    case Some(DynamicService(_, lifetime, fn, cell)) =>
      var cached := LoadFromCache(ident, lifetime, ctx.cache, cell.cache);
      if !IsNullish(cached) {
        r := Success(cached);
      } else {
        var v := CreateUsingCache(ident, Call(fn), lifetime, cell, ctx, heap, stores);
        r := Success(v);
      }
    case Some(NewableService(_, lifetime, impl, cell)) =>
      var cached := LoadFromCache(ident, lifetime, ctx.cache, cell.cache);
      if cached != Undefined {
        r := Success(cached);
      } else {
        r := BuildWithin(ident, impl, lifetime, cell, parents, stores, refl, ctx, heap);
      }
  }

  /** The cache-miss path of a class service, as `Build` specifies it. */
  method BuildWithin(ident: Ident, impl: FnRef, lifetime: Lifetime, cell: CacheCell,
                     parents: seq<Ident>, stores: seq<ServiceStore>, refl: Reflection, ctx: Context, heap: Heap)
    returns (r: Result<Value, Error>)
    requires NoDup(parents) && ident in Keys(stores) && cell in CellsOf(stores)
    requires LoadFromCache(ident, lifetime, ctx.cache, cell.cache) == Undefined
    modifies CellsOf(stores), ctx, heap
    ensures (r, Now(stores, ctx, heap))
         == Build(ident, impl, lifetime, cell, parents, stores, refl.di, refl.design, old(Now(stores, ctx, heap)))
    decreases Measure(stores, parents), 1, 0
  {
    CellsAllocated(stores);
    ghost var w := Now(stores, ctx, heap);
    var manual := ManualDeps(refl.di, impl);
    var args := GatherArgs(impl, AutoDeps(refl.design, impl), manual.param, parents, stores, refl, ctx, heap);
    if args.Failure? {
      return Failure(args.error);
    }
    var props := GatherProps(manual.prop, parents, stores, refl, ctx, heap);
    if props.Failure? {
      return Failure(props.error);
    }
    var v := CreateUsingCache(ident, Construct(impl, args.value, props.value), lifetime, cell, ctx, heap, stores);
    r := Success(v);
  }

  /** The constructor-argument loop of `_resolve`, as `ArgResolution` specifies it. */
  method GatherArgs(impl: FnRef, auto: seq<Value>, param: map<nat, Ident>,
                    parents: seq<Ident>, stores: seq<ServiceStore>, refl: Reflection, ctx: Context, heap: Heap)
    returns (r: Result<seq<Value>, Error>)
    requires NoDup(parents)
    modifies CellsOf(stores), ctx, heap
    ensures (r, Now(stores, ctx, heap))
         == ArgResolution(impl, auto, param, 0, [], parents, stores, refl.di, refl.design, old(Now(stores, ctx, heap)))
    decreases Measure(stores, parents), 0, |auto| + 1
  {
    CellsAllocated(stores);
    ghost var w := Now(stores, ctx, heap);
    var args: seq<Value> := [];
    var i := 0;
    while i < |auto|
      invariant 0 <= i <= |auto|
      invariant ArgResolution(impl, auto, param, i, args, parents, stores, refl.di, refl.design, Now(stores, ctx, heap))
             == ArgResolution(impl, auto, param, 0, [], parents, stores, refl.di, refl.design, w)
    {
      var argIdent := ArgIdent(param, auto, i);
      if !IsServiceIdent(argIdent) {
        return Failure(InvalidConstructorParam(impl, i));
      }
      var check := PreventCircularGraph(argIdent, parents);
      if check.Fail? {
        return Failure(check.error);
      }
      MeasureStep(stores, parents, argIdent);
      AppendNoDup(parents, argIdent);
      var a := ResolveWithin(argIdent, parents + [argIdent], stores, refl, ctx, heap);
      if a.Failure? {
        return Failure(a.error);
      }
      args := args + [a.value];
      i := i + 1;
    }
    r := Success(args);
  }

  /** The property loop of `_resolve`, as `PropResolution` specifies it. */
  method GatherProps(props: seq<(PropKey, Ident)>,
                     parents: seq<Ident>, stores: seq<ServiceStore>, refl: Reflection, ctx: Context, heap: Heap)
    returns (r: Result<seq<(PropKey, Value)>, Error>)
    requires NoDup(parents)
    modifies CellsOf(stores), ctx, heap
    ensures (r, Now(stores, ctx, heap))
         == PropResolution(props, 0, [], parents, stores, refl.di, refl.design, old(Now(stores, ctx, heap)))
    decreases Measure(stores, parents), 0, |props| + 1
  {
    CellsAllocated(stores);
    ghost var w := Now(stores, ctx, heap);
    var values: seq<(PropKey, Value)> := [];
    var j := 0;
    while j < |props|
      invariant 0 <= j <= |props|
      invariant PropResolution(props, j, values, parents, stores, refl.di, refl.design, Now(stores, ctx, heap))
             == PropResolution(props, 0, [], parents, stores, refl.di, refl.design, w)
    {
      var propKey, propIdent := props[j].0, props[j].1;
      var check := PreventCircularGraph(propIdent, parents);
      if check.Fail? {
        return Failure(check.error);
      }
      MeasureStep(stores, parents, propIdent);
      AppendNoDup(parents, propIdent);
      var p := ResolveWithin(propIdent, parents + [propIdent], stores, refl, ctx, heap);
      if p.Failure? {
        return Failure(p.error);
      }
      values := values + [(propKey, p.value)];
      j := j + 1;
    }
    r := Success(values);
  }

  /**
   * `resolve`: a walk from an empty path with a fresh, empty context.
   * The result, the cache cells and the heap are those `TopResolution` specifies.
   */
  method Resolve(ident: Ident, stores: seq<ServiceStore>, refl: Reflection, heap: Heap)
    returns (r: Result<Value, Error>)
    modifies CellsOf(stores), heap
    ensures (r, Cells(stores), heap.objects)
         == TopResolution(ident, stores, refl.di, refl.design, old(Cells(stores)), old(heap.objects))
  {
    CellsAllocated(stores);
    var ctx := new Context();
    r := ResolveWithin(ident, [], stores, refl, ctx, heap);
  }
}
