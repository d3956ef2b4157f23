/**
 * JavaScript values as far as the state emitter distinguishes them.
 *
 * Numbers are modelled as mathematical integers. Symbols are compared by
 * identity, so a symbol is represented by an opaque id: two symbols with the
 * same description are still different ids. Every other value (null, a
 * boolean, an object, a function, and an array when it appears as a state
 * element or as a reference) is `Other`, again with an identity. The
 * constructor's own argument is not a `Value`: whether it is an array is
 * told apart by `Emitter.Input`, whose `NotArray` case never holds an array.
 */
module Values {

  datatype Value =
    | Num(n: int)
    | Str(s: string)
    | Sym(id: nat)
    | Undefined
    | Other(id: nat)

  /** The values a state may be: a string or a symbol. */
  predicate IsStateName(v: Value) {
    v.Str? || v.Sym?
  }

  /** A string or a symbol; the keys of the listener table. */
  type StateName = v: Value | IsStateName(v) witness Str("")
}
