/**
 * The reflection metadata the decorators write and the resolution reads:
 * per-class injection records, the class tags, and the design types the
 * compiler emits. The reflection mechanism itself is not modelled; its
 * tables are the fields of one `Reflection` object.
 */
module Metadata {

  import opened Wrappers
  import opened Services

  /**
   * The injection record of one class: property injections in insertion
   * order (a map with unique keys), and constructor-parameter overrides.
   */
  datatype DiParamTypes = DiParamTypes(prop: seq<(PropKey, Ident)>, param: map<nat, Ident>)

  /** No property key occurs twice. */
  ghost predicate UniqueKeys(props: seq<(PropKey, Ident)>) {
    forall i, j :: 0 <= i < j < |props| ==> props[i].0 != props[j].0
  }

  /** The identifier recorded for `key`, if any (a map's `get`). */
  function FindProp(props: seq<(PropKey, Ident)>, key: PropKey): Option<Ident>
  {
    if |props| == 0 then None
    else if props[0].0 == key then Some(props[0].1)
    else FindProp(props[1..], key)
  }

  /**
   * A map's `set` on an insertion-ordered map: an existing key keeps its
   * position and takes the new identifier, a new key is appended.
   */
  function SetProp(props: seq<(PropKey, Ident)>, key: PropKey, ident: Ident): (r: seq<(PropKey, Ident)>)
    requires UniqueKeys(props)
    ensures UniqueKeys(r)
    ensures FindProp(r, key) == Some(ident)
    ensures forall k :: k != key ==> FindProp(r, k) == FindProp(props, k)
    ensures FindProp(props, key).Some? ==> |r| == |props| && forall i :: 0 <= i < |r| ==> r[i].0 == props[i].0
    ensures FindProp(props, key).None? ==> r == props + [(key, ident)]
  {
    if |props| == 0 then [(key, ident)]
    else if props[0].0 == key then [(key, ident)] + props[1..]
    else [props[0]] + SetProp(props[1..], key, ident)
  }

  /** Every class's property injections have unique keys. */
  ghost predicate WellFormedDi(di: map<FnRef, DiParamTypes>) {
    forall c :: c in di ==> UniqueKeys(di[c].prop)
  }

  /** The metadata tables of the running program. */
  class Reflection {
    /** Classes tagged by the `Service` decorator. */
    var tags: set<FnRef>
    /** Injection records, per class. */
    var di: map<FnRef, DiParamTypes>
    /** Declared constructor parameter types, per class: `design:paramtypes`. */
    var design: map<FnRef, seq<Value>>
    /** Declared property types, per class and key: `design:type`. */
    var memberTypes: map<(FnRef, PropKey), Value>

    /** The injection records are maps. */
    ghost predicate Valid()
      reads this
    {
      WellFormedDi(di)
    }

    constructor (design: map<FnRef, seq<Value>>, memberTypes: map<(FnRef, PropKey), Value>)
      ensures Valid()
      ensures tags == {} && di == map[]
      ensures this.design == design && this.memberTypes == memberTypes
    {
      tags := {};
      di := map[];
      this.design := design;
      this.memberTypes := memberTypes;
    }
  }
}
