/**
 * The service data model: identifiers, lifetimes, the three kinds of service
 * descriptors and the mutable cache cell that lifetimed descriptors carry.
 */
module Services {

  import opened Wrappers

  /** A function value of the program: the `Object` constructor, a class or an abstract class. */
  datatype FnRef = ObjectCtor | Class(id: nat) | AbstractClass(id: nat)

  /**
   * A value of the host language, as far as the engine distinguishes values.
   * `Obj(id)` is an object the engine (or a factory) created; `id` is its
   * address on the `Heap` of the resolution module.
   */
  datatype Value =
    | Undefined
    | Null
    | Bool(b: bool)
    | Num(n: int)
    | Str(s: string)
    | Sym(sym: nat)
    | Fn(f: FnRef)
    | Obj(id: nat)

  /** The static type of identifiers: a string, a symbol, or a class (abstract or not). */
  type Ident = v: Value | v.Str? || v.Sym? || v.Fn? witness Str("")

  /** A property key: a string or a symbol. */
  type PropKey = v: Value | v.Str? || v.Sym? witness Str("")

  /** The run-time check that a value may serve as an identifier. */
  predicate IsServiceIdent(v: Value)
  {
    if v.Str? || v.Sym? then true
    else if v.Fn? then v.f != ObjectCtor
    else false
  }

  /** `undefined` or `null`: the values the `??` operator replaces. */
  predicate IsNullish(v: Value)
  {
    v == Undefined || v == Null
  }

  datatype Lifetime = Transient | Scoped | Singleton

  datatype Kind = Newable | Dynamic | Static

  /**
   * A factory function of a dynamic service. Its body is not modelled:
   * `FreshEach(tag)` returns a newly created object on every call,
   * `Returns(v)` returns the same value `v` on every call.
   */
  datatype Producer = FreshEach(tag: nat) | Returns(result: Value)

  /** The mutable `cache` field of a lifetimed descriptor; `Undefined` while empty. */
  class CacheCell {
    var cache: Value

    constructor ()
      ensures cache == Undefined
    {
      cache := Undefined;
    }
  }

  /** A service descriptor. Static services have neither a lifetime nor a cache cell. */
  datatype Service =
    | NewableService(ident: Ident, lifetime: Lifetime, impl: FnRef, cell: CacheCell)
    | DynamicService(ident: Ident, lifetime: Lifetime, fn: Producer, cell: CacheCell)
    | StaticService(ident: Ident, value: Value)
  {
    function KindOf(): (k: Kind)
      ensures k == Static <==> StaticService?
      ensures k == Newable <==> NewableService?
    {
      match this
      case NewableService(_, _, _, _) => Newable
      case DynamicService(_, _, _, _) => Dynamic
      case StaticService(_, _) => Static
    }

    /** The lifetime, for the kinds that have one. */
    function LifetimeOf(): (l: Option<Lifetime>)
      ensures l.None? <==> KindOf() == Static
      ensures !StaticService? ==> l == Some(lifetime)
    {
      if StaticService? then None else Some(lifetime)
    }
  }

  /** A store maps identifiers to their descriptors. */
  type ServiceStore = map<Ident, Service>

  /**
   * Which values are identifiers: every string and every symbol, every
   * function but the `Object` constructor, and nothing else, `undefined` included.
   */
  lemma IdentClassification(v: Value)
    ensures v.Str? || v.Sym? ==> IsServiceIdent(v)
    ensures v.Fn? ==> (IsServiceIdent(v) <==> v.f != ObjectCtor)
    ensures !v.Str? && !v.Sym? && !v.Fn? ==> !IsServiceIdent(v)
  {
  }

  /** Every value passing the run-time check has the static identifier type. */
  lemma ServiceIdentsHaveIdentType(v: Value)
    requires IsServiceIdent(v)
    ensures v.Str? || v.Sym? || v.Fn?
  {
  }
}
