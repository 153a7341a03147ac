/**
 * The two decorators: `Service` tags a class as injectable, `Inject`
 * records the identifier to inject into a constructor parameter or a
 * property. Both write the reflection tables of a `Reflection` object.
 */
module Decorators {

  import opened Wrappers
  import opened Services
  import opened Errors
  import opened Metadata
  import opened Resolver

  /**
   * What a member decorator receives: the class itself (constructor
   * parameters, static members) or a prototype, whose `constructor` is the class.
   */
  datatype Target = ClassSide(cls: FnRef) | InstanceSide(cls: FnRef)

  /** `getClassParamTypes(cls)?.[i]`: the declared type of a constructor parameter, or undefined. */
  function DesignParamType(design: map<FnRef, seq<Value>>, cls: FnRef, i: nat): Value {
    if cls in design && i < |design[cls]| then design[cls][i] else Undefined
  }

  /** `getMemberType(cls.prototype, key)`: the declared type of a property, or undefined. */
  function DesignMemberType(memberTypes: map<(FnRef, PropKey), Value>, cls: FnRef, key: PropKey): Value {
    if (cls, key) in memberTypes then memberTypes[(cls, key)] else Undefined
  }

  /**
   * The injection record of `cls` after one `Inject(ident)` decoration at
   * constructor parameter `paramIndex` or property `propKey`; an explicit
   * identifier wins, otherwise the declared type must be a service identifier.
   */
  function InjectedRecord(ident: Option<Ident>, cls: FnRef, propKey: Option<PropKey>, paramIndex: Option<nat>,
                          di: map<FnRef, DiParamTypes>, design: map<FnRef, seq<Value>>,
                          memberTypes: map<(FnRef, PropKey), Value>)
    : (r: Result<DiParamTypes, Error>)
    requires WellFormedDi(di)
    ensures paramIndex.Some? ==>
      var i := paramIndex.value;
      var declared := DesignParamType(design, cls, i);
      && (ident.Some? ==> r.Success? && i in r.value.param && r.value.param[i] == ident.value)
      && (ident.None? ==> (r.Success? <==> IsServiceIdent(declared)))
      && (ident.None? && r.Success? ==> i in r.value.param && r.value.param[i] == declared)
      && (r.Failure? ==> r.error == UndeterminedParamType(cls, i))
      && (r.Success? ==> r.value.prop == ManualDeps(di, cls).prop &&
                         r.value.param == ManualDeps(di, cls).param[i := r.value.param[i]])
    ensures paramIndex.None? && propKey.None? ==> r == Failure(InvalidInjectionSite)
    ensures paramIndex.None? && propKey.Some? ==>
      var key := propKey.value;
      var declared := DesignMemberType(memberTypes, cls, key);
      && (ident.Some? ==> r.Success? && FindProp(r.value.prop, key) == ident)
      && (ident.None? ==> (r.Success? <==> IsServiceIdent(declared)))
      && (ident.None? && r.Success? ==> FindProp(r.value.prop, key) == Some(declared))
      && (r.Failure? ==> r.error == UndeterminedPropType(cls, key))
      && (r.Success? ==> r.value.param == ManualDeps(di, cls).param &&
                         forall k :: k != key ==> FindProp(r.value.prop, k) == FindProp(ManualDeps(di, cls).prop, k))
      && (r.Success? && FindProp(ManualDeps(di, cls).prop, key).Some? ==>
            var before := ManualDeps(di, cls).prop;
            |r.value.prop| == |before| && forall j :: 0 <= j < |before| ==> r.value.prop[j].0 == before[j].0)
      && (r.Success? && FindProp(ManualDeps(di, cls).prop, key).None? ==>
            r.value.prop == ManualDeps(di, cls).prop + [(key, FindProp(r.value.prop, key).value)])
    ensures r.Success? ==> UniqueKeys(r.value.prop)
  {
    var record := ManualDeps(di, cls);
    match paramIndex
    case Some(i) =>
      var declared := DesignParamType(design, cls, i);
      if ident.None? && !IsServiceIdent(declared) then Failure(UndeterminedParamType(cls, i))
      else
        var chosen: Ident := if ident.Some? then ident.value else declared;
        Success(DiParamTypes(record.prop, record.param[i := chosen]))
    case None =>
      match propKey
      case None => Failure(InvalidInjectionSite)
      case Some(key) =>
        var declared := DesignMemberType(memberTypes, cls, key);
        if ident.None? && !IsServiceIdent(declared) then Failure(UndeterminedPropType(cls, key))
        else
          var chosen: Ident := if ident.Some? then ident.value else declared;
          Success(DiParamTypes(SetProp(record.prop, key, chosen), record.param))
  }

  /**
   * An explicit `Inject(ident)` on constructor parameter `i` is what
   * resolution uses for that parameter; every other parameter resolves as before.
   */
  lemma ParamOverrideUsed(ident: Ident, cls: FnRef, i: nat, di: map<FnRef, DiParamTypes>,
                          design: map<FnRef, seq<Value>>, memberTypes: map<(FnRef, PropKey), Value>)
    requires WellFormedDi(di)
    ensures var r := InjectedRecord(Some(ident), cls, None, Some(i), di, design, memberTypes);
      && r.Success?
      && var auto := AutoDeps(design, cls);
         var di' := di[cls := r.value];
         forall j :: 0 <= j < |auto| ==>
           ArgIdent(ManualDeps(di', cls).param, auto, j)
             == if j == i then ident else ArgIdent(ManualDeps(di, cls).param, auto, j)
  {
  }

  /**
   * `Inject()` without an identifier on a parameter not yet overridden changes
   * nothing resolution sees: it records the declared type that resolution would use anyway.
   */
  lemma InferredParamChangesNothing(cls: FnRef, i: nat, di: map<FnRef, DiParamTypes>,
                                    design: map<FnRef, seq<Value>>, memberTypes: map<(FnRef, PropKey), Value>)
    requires WellFormedDi(di) && i !in ManualDeps(di, cls).param
    ensures var r := InjectedRecord(None, cls, None, Some(i), di, design, memberTypes);
      r.Success? ==>
        var auto := AutoDeps(design, cls);
        var di' := di[cls := r.value];
        forall j :: 0 <= j < |auto| ==>
          ArgIdent(ManualDeps(di', cls).param, auto, j) == ArgIdent(ManualDeps(di, cls).param, auto, j)
  {
  }

  /**
   * `Inject()` without an identifier on a parameter or property declared as
   * `object` is rejected: the `Object` constructor is no identifier.
   */
  lemma ObjectTypedSiteRejected(cls: FnRef, key: PropKey, i: nat, di: map<FnRef, DiParamTypes>,
                                design: map<FnRef, seq<Value>>, memberTypes: map<(FnRef, PropKey), Value>)
    requires WellFormedDi(di)
    requires DesignParamType(design, cls, i) == Fn(ObjectCtor)
    requires DesignMemberType(memberTypes, cls, key) == Fn(ObjectCtor)
    ensures InjectedRecord(None, cls, None, Some(i), di, design, memberTypes) == Failure(UndeterminedParamType(cls, i))
    ensures InjectedRecord(None, cls, Some(key), None, di, design, memberTypes) == Failure(UndeterminedPropType(cls, key))
  {
  }

  /** `Service()`: tags a class; a class can be decorated only once. */
  method Service(refl: Reflection, target: FnRef) returns (r: Outcome<Error>)
    modifies refl`tags
    ensures r.Fail? <==> target in old(refl.tags)
    ensures r.Fail? ==> r.error == MultipleDecoration(target) && refl.tags == old(refl.tags)
    ensures r.Pass? ==> refl.tags == old(refl.tags) + {target}
  {
    if target in refl.tags {
      return Fail(MultipleDecoration(target));
    }
    refl.tags := refl.tags + {target};
    r := Pass;
  }

  /** `Inject(ident)` applied to a parameter or property of `target`. */
  method Inject(refl: Reflection, ident: Option<Ident>, target: Target,
                propKey: Option<PropKey>, paramIndex: Option<nat>) returns (r: Outcome<Error>)
    requires refl.Valid()
    modifies refl`di
    ensures refl.Valid()
    ensures var rec := InjectedRecord(ident, target.cls, propKey, paramIndex, old(refl.di), refl.design, refl.memberTypes);
      && (rec.Failure? ==> r == Fail(rec.error) && refl.di == old(refl.di))
      && (rec.Success? ==> r == Pass && refl.di == old(refl.di)[target.cls := rec.value])
  {
    var cls := target.cls;
    var rec := InjectedRecord(ident, cls, propKey, paramIndex, refl.di, refl.design, refl.memberTypes);
    if rec.Failure? {
      return Fail(rec.error);
    }
    refl.di := refl.di[cls := rec.value];
    r := Pass;
  }

  /** Decorating a class twice: the second decoration fails, and the class stays tagged. */
  method DecorateTwice(refl: Reflection, target: FnRef) returns (first: Outcome<Error>, second: Outcome<Error>)
    modifies refl`tags
    ensures target !in old(refl.tags) ==> first == Pass
    ensures second == Fail(MultipleDecoration(target))
    ensures refl.tags == old(refl.tags) + {target}
  {
    first := Service(refl, target);
    second := Service(refl, target);
  }
}
