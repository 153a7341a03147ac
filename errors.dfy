/** The errors the library throws, one constructor per distinct failure. */
module Errors {

  import opened Services

  datatype Error =
    /** No searched store holds the identifier. */
    | ServiceNotFound(ident: Ident)
    /** The identifier reappeared on its own resolution path; `chain` is the path in traversal order. */
    | CircularDependency(chain: seq<Ident>)
    /** The identifier chosen for constructor parameter `index` of `owner` is not a valid identifier. */
    | InvalidConstructorParam(owner: FnRef, index: nat)
    /** The identifier is already registered in the store. */
    | AlreadyAdded(ident: Ident)
    /** The class was never tagged by the `Service` decorator. */
    | NotDecorated(impl: FnRef)
    /** A self-binding registration was given an identifier that is not a class. */
    | CannotSelfBind(ident: Ident)
    /** The `Service` decorator was applied to an already tagged class. */
    | MultipleDecoration(target: FnRef)
    /** `Inject()` on a constructor parameter whose declared type is not an identifier. */
    | UndeterminedParamType(owner: FnRef, index: nat)
    /** `Inject()` on a property whose declared type is not an identifier. */
    | UndeterminedPropType(owner: FnRef, key: PropKey)
    /** `Inject` applied to something that is neither a property nor a parameter. */
    | InvalidInjectionSite
}
