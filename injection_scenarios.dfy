/**
 * Worked configurations with injection records: a property filled by
 * resolution, and services registered under a string and a symbol that a
 * class reaches through explicit identifiers on a property and on a
 * constructor parameter. All services are transient.
 */
module InjectionScenarios {

  import opened Wrappers
  import opened Sequences
  import opened Services
  import opened Metadata
  import opened Resolver
  import opened Scenarios
  import opened Decorators

  const AName: Ident := Str("a")
  const AKey: PropKey := Str("a")
  const BSym: Ident := Sym(0)

  // ---------------------------------------------------------------------
  // One step of the walk at a time

  /**
   * A transient class service is built on every resolution: its arguments,
   * then its properties, then the new object, which no cache keeps.
   */
  lemma TransientBuilds(ident: Ident, impl: FnRef, cell: CacheCell, parents: seq<Ident>, stores: seq<ServiceStore>,
                        di: map<FnRef, DiParamTypes>, design: map<FnRef, seq<Value>>, w: World,
                        args: seq<Value>, w1: World, props: seq<(PropKey, Value)>, w2: World)
    requires NoDup(parents) && Lookup(ident, stores) == Some(NewableService(ident, Transient, impl, cell))
    requires ArgResolution(impl, AutoDeps(design, impl), ManualDeps(di, impl).param, 0, [], parents, stores, di, design, w)
          == (Success(args), w1)
    requires PropResolution(ManualDeps(di, impl).prop, 0, [], parents, stores, di, design, w1) == (Success(props), w2)
    ensures Resolution(ident, parents, stores, di, design, w)
         == (Success(Obj(|w2.objects|)), w2.(objects := w2.objects + [Constructed(impl, args, props)]))
  {
    LookupFound(ident, stores);
  }

  /** A transient class with no constructor parameters and no injection record is built from nothing. */
  lemma TransientLeaf(ident: Ident, impl: FnRef, cell: CacheCell, parents: seq<Ident>, stores: seq<ServiceStore>,
                      di: map<FnRef, DiParamTypes>, design: map<FnRef, seq<Value>>, w: World)
    requires NoDup(parents) && Lookup(ident, stores) == Some(NewableService(ident, Transient, impl, cell))
    requires impl !in di && impl !in design
    ensures Resolution(ident, parents, stores, di, design, w)
         == (Success(Obj(|w.objects|)), w.(objects := w.objects + [Constructed(impl, [], [])]))
  {
    assert ArgResolution(impl, [], map[], 0, [], parents, stores, di, design, w) == (Success([]), w);
    assert PropResolution([], 0, [], parents, stores, di, design, w) == (Success([]), w);
    TransientBuilds(ident, impl, cell, parents, stores, di, design, w, [], w, [], w);
  }

  /** A single injected property `key` whose identifier `p` is not on the path resolves `p` with the path extended. */
  lemma OneProp(key: PropKey, p: Ident, parents: seq<Ident>, stores: seq<ServiceStore>,
                di: map<FnRef, DiParamTypes>, design: map<FnRef, seq<Value>>, w: World)
    requires NoDup(parents) && p !in parents
    ensures NoDup(parents + [p])
    ensures var (r, w1) := Resolution(p, parents + [p], stores, di, design, w);
      r.Success? ==> PropResolution([(key, p)], 0, [], parents, stores, di, design, w) == (Success([(key, r.value)]), w1)
  {
    AppendNoDup(parents, p);
    var (r, w1) := Resolution(p, parents + [p], stores, di, design, w);
    if r.Success? {
      assert [] + [(key, r.value)] == [(key, r.value)];
      assert PropResolution([(key, p)], 1, [(key, r.value)], parents, stores, di, design, w1) == (Success([(key, r.value)]), w1);
    }
  }

  /** A single constructor parameter, overridden or declared, whose identifier is not on the path resolves it. */
  lemma OneParam(impl: FnRef, auto: seq<Value>, param: map<nat, Ident>, parents: seq<Ident>, stores: seq<ServiceStore>,
                 di: map<FnRef, DiParamTypes>, design: map<FnRef, seq<Value>>, w: World)
    requires NoDup(parents) && |auto| == 1
    requires IsServiceIdent(ArgIdent(param, auto, 0)) && ArgIdent(param, auto, 0) !in parents
    ensures NoDup(parents + [ArgIdent(param, auto, 0)])
    ensures var a := ArgIdent(param, auto, 0);
            var (r, w1) := Resolution(a, parents + [a], stores, di, design, w);
      r.Success? ==> ArgResolution(impl, auto, param, 0, [], parents, stores, di, design, w) == (Success([r.value]), w1)
  {
    var a: Ident := ArgIdent(param, auto, 0);
    AppendNoDup(parents, a);
    var (r, w1) := Resolution(a, parents + [a], stores, di, design, w);
    if r.Success? {
      assert [] + [r.value] == [r.value];
      assert ArgResolution(impl, auto, param, 1, [r.value], parents, stores, di, design, w1) == (Success([r.value]), w1);
    }
  }

  // ---------------------------------------------------------------------
  // `B` with an `A` injected into its property `a`

  /** `B` injects an `A` into its property `a`; no constructor takes parameters. */
  function PropertyDi(): map<FnRef, DiParamTypes> {
    map[Class(1) := DiParamTypes([(AKey, A)], map[])]
  }

  /** Heap contents after building an `A` at address `n` and then a `B` holding it in `a`. */
  function BuiltWithProp(n: nat): seq<Allocation> {
    [Constructed(Class(0), [], []), Constructed(Class(1), [], [(AKey, Obj(n))])]
  }

  /** `@Inject()` on `B`'s property `a`, declared as `A`, records exactly this injection. */
  lemma PropertyDecorated(memberTypes: map<(FnRef, PropKey), Value>)
    requires (Class(1), AKey) in memberTypes && memberTypes[(Class(1), AKey)] == A
    ensures InjectedRecord(None, Class(1), Some(AKey), None, map[], map[], memberTypes)
         == Success(PropertyDi()[Class(1)])
  {
    assert SetProp([], AKey, A) == [(AKey, A)];
  }

  /** One call resolving `B` builds a new `A`, then a new `B` whose property `a` holds that `A`. */
  lemma PropertyFilled(cellA: CacheCell, cellB: CacheCell, cells: map<CacheCell, Value>, objects: seq<Allocation>)
    ensures TopResolution(B, [DirectStore(Transient, cellA, cellB)], PropertyDi(), map[], cells, objects)
         == (Success(Obj(|objects| + 1)), cells, objects + BuiltWithProp(|objects|))
  {
    var stores := [DirectStore(Transient, cellA, cellB)];
    var w := World(cells, map[], objects);
    assert Lookup(A, stores) == Some(NewableService(A, Transient, Class(0), cellA));
    assert Lookup(B, stores) == Some(NewableService(B, Transient, Class(1), cellB));
    var di := PropertyDi();
    assert ArgResolution(Class(1), [], map[], 0, [], [], stores, di, map[], w) == (Success([]), w);
    var wA := w.(objects := objects + [Constructed(Class(0), [], [])]);
    assert [] + [A] == [A];
    TransientLeaf(A, Class(0), cellA, [A], stores, di, map[], w);
    OneProp(AKey, A, [], stores, di, map[], w);
    assert PropResolution([(AKey, A)], 0, [], [], stores, di, map[], w) == (Success([(AKey, Obj(|objects|))]), wA);
    TransientBuilds(B, Class(1), cellB, [], stores, di, map[], w, [], w, [(AKey, Obj(|objects|))], wA);
    assert wA.objects + [Constructed(Class(1), [], [(AKey, Obj(|objects|))])] == objects + BuiltWithProp(|objects|);
  }

  /** Two calls resolving a transient `B` give two `B`s, each holding its own, new `A`. */
  lemma PropertyInjection(cellA: CacheCell, cellB: CacheCell, cells: map<CacheCell, Value>)
    ensures var stores := [DirectStore(Transient, cellA, cellB)];
      && TopResolution(B, stores, PropertyDi(), map[], cells, []) == (Success(Obj(1)), cells, BuiltWithProp(0))
      && TopResolution(B, stores, PropertyDi(), map[], cells, BuiltWithProp(0))
         == (Success(Obj(3)), cells, BuiltWithProp(0) + BuiltWithProp(2))
  {
    PropertyFilled(cellA, cellB, cells, []);
    assert [] + BuiltWithProp(0) == BuiltWithProp(0);
    PropertyFilled(cellA, cellB, cells, BuiltWithProp(0));
  }

  // ---------------------------------------------------------------------
  // `C` reaching `A` under `"a"` and `B` under a symbol

  /** `A` under the string `"a"`, `B` under a symbol, `C` under itself, all transient. */
  function ExplicitStore(cellA: CacheCell, cellB: CacheCell, cellC: CacheCell): ServiceStore {
    map[AName := NewableService(AName, Transient, Class(0), cellA),
        BSym := NewableService(BSym, Transient, Class(1), cellB),
        C := NewableService(C, Transient, Class(2), cellC)]
  }

  /** `C` declares a `B` parameter, overridden by the symbol, and injects `"a"` into its property `a`. */
  function ExplicitDi(): map<FnRef, DiParamTypes> {
    map[Class(2) := DiParamTypes([(AKey, AName)], map[0 := BSym])]
  }

  function ExplicitDesign(): map<FnRef, seq<Value>> {
    map[Class(2) := [B]]
  }

  /**
   * `@Inject("a")` on `C`'s property `a` and `@Inject(bSym)` on its first
   * constructor parameter, applied in either order, record exactly these
   * injections, whatever the declared types.
   */
  lemma ExplicitDecorated(memberTypes: map<(FnRef, PropKey), Value>)
    ensures var propFirst := InjectedRecord(Some(AName), Class(2), Some(AKey), None, map[], ExplicitDesign(), memberTypes);
      && propFirst == Success(DiParamTypes([(AKey, AName)], map[]))
      && InjectedRecord(Some(BSym), Class(2), None, Some(0), map[Class(2) := propFirst.value], ExplicitDesign(), memberTypes)
         == Success(ExplicitDi()[Class(2)])
    ensures var paramFirst := InjectedRecord(Some(BSym), Class(2), None, Some(0), map[], ExplicitDesign(), memberTypes);
      && paramFirst == Success(DiParamTypes([], map[0 := BSym]))
      && InjectedRecord(Some(AName), Class(2), Some(AKey), None, map[Class(2) := paramFirst.value], ExplicitDesign(), memberTypes)
         == Success(ExplicitDi()[Class(2)])
  {
    assert SetProp([], AKey, AName) == [(AKey, AName)];
    assert map[][0 := BSym] == map[0 := BSym];
  }

  /** `C`'s one parameter resolves the symbol to a new `B`. */
  lemma ExplicitArg(cellA: CacheCell, cellB: CacheCell, cellC: CacheCell, w: World)
    ensures ArgResolution(Class(2), [B], map[0 := BSym], 0, [], [], [ExplicitStore(cellA, cellB, cellC)],
                          ExplicitDi(), ExplicitDesign(), w)
         == (Success([Obj(|w.objects|)]), w.(objects := w.objects + [Constructed(Class(1), [], [])]))
  {
    var stores := [ExplicitStore(cellA, cellB, cellC)];
    assert Lookup(BSym, stores) == Some(NewableService(BSym, Transient, Class(1), cellB));
    assert ArgIdent(map[0 := BSym], [B], 0) == BSym;
    assert [] + [BSym] == [BSym];
    TransientLeaf(BSym, Class(1), cellB, [BSym], stores, ExplicitDi(), ExplicitDesign(), w);
    OneParam(Class(2), [B], map[0 := BSym], [], stores, ExplicitDi(), ExplicitDesign(), w);
  }

  /** `C`'s one injected property resolves `"a"` to a new `A`. */
  lemma ExplicitProp(cellA: CacheCell, cellB: CacheCell, cellC: CacheCell, w: World)
    ensures PropResolution([(AKey, AName)], 0, [], [], [ExplicitStore(cellA, cellB, cellC)], ExplicitDi(), ExplicitDesign(), w)
         == (Success([(AKey, Obj(|w.objects|))]), w.(objects := w.objects + [Constructed(Class(0), [], [])]))
  {
    var stores := [ExplicitStore(cellA, cellB, cellC)];
    assert Lookup(AName, stores) == Some(NewableService(AName, Transient, Class(0), cellA));
    assert [] + [AName] == [AName];
    TransientLeaf(AName, Class(0), cellA, [AName], stores, ExplicitDi(), ExplicitDesign(), w);
    OneProp(AKey, AName, [], stores, ExplicitDi(), ExplicitDesign(), w);
  }

  /**
   * Resolving `C` resolves the symbol to a new `B` for its parameter, then
   * `"a"` to a new `A` for its property, then builds `C` over both.
   */
  lemma ExplicitIdentifiers(cellA: CacheCell, cellB: CacheCell, cellC: CacheCell, cells: map<CacheCell, Value>)
    ensures TopResolution(C, [ExplicitStore(cellA, cellB, cellC)], ExplicitDi(), ExplicitDesign(), cells, [])
         == (Success(Obj(2)), cells,
             [Constructed(Class(1), [], []), Constructed(Class(0), [], []), Constructed(Class(2), [Obj(0)], [(AKey, Obj(1))])])
  {
    var stores := [ExplicitStore(cellA, cellB, cellC)];
    var w := World(cells, map[], []);
    assert Lookup(C, stores) == Some(NewableService(C, Transient, Class(2), cellC));
    var w1 := w.(objects := w.objects + [Constructed(Class(1), [], [])]);
    var w2 := w1.(objects := w1.objects + [Constructed(Class(0), [], [])]);
    ExplicitArg(cellA, cellB, cellC, w);
    ExplicitProp(cellA, cellB, cellC, w1);
    TransientBuilds(C, Class(2), cellC, [], stores, ExplicitDi(), ExplicitDesign(), w, [Obj(0)], w1, [(AKey, Obj(1))], w2);
    assert w2.objects + [Constructed(Class(2), [Obj(0)], [(AKey, Obj(1))])]
        == [Constructed(Class(1), [], []), Constructed(Class(0), [], []), Constructed(Class(2), [Obj(0)], [(AKey, Obj(1))])];
  }
}
