/**
 * The error kinds of the wargames framework (systems/wargames/error.js).
 *
 * A JavaScript error object is modelled by the prototype it was created from and its
 * `message` field. `instanceof` walks the prototype chain, so `InstanceOf` is membership
 * in the chain: a `WargamesError` is built on `Error.prototype` and is therefore an `Error`
 * too, while a plain `Error` is not a `WargamesError`.
 */
module Errors {
  import opened Types

  /** The constructors whose `prototype` can appear in an error's chain. */
  datatype Prototype = ErrorPrototype | WargamesErrorPrototype

  /** An error object: the prototype it was constructed with and its (possibly undefined) message. */
  datatype Error = Error(proto: Prototype, message: Option<string>)

  /** The prototype chain starting at `p`, nearest first. */
  function Chain(p: Prototype): (c: seq<Prototype>)
    ensures |c| > 0 && c[0] == p && c[|c| - 1] == ErrorPrototype
  {
    match p
    case ErrorPrototype => [ErrorPrototype]
    case WargamesErrorPrototype => [WargamesErrorPrototype, ErrorPrototype]
  }

  /** `e instanceof C`, where `C.prototype` is `p`. */
  predicate InstanceOf(e: Error, p: Prototype)
  {
    p in Chain(e.proto)
  }

  /**
   * JavaScript's built-in `new Error(message)`. `message` is the error's own `message`
   * property: `None` means the error has none of its own, so that reading `.message`
   * falls back to the empty string inherited from `Error.prototype`.
   */
  function NewError(message: Option<string>): (e: Error)
    ensures e.message == message
    ensures InstanceOf(e, ErrorPrototype) && !InstanceOf(e, WargamesErrorPrototype)
  {
    Error(ErrorPrototype, message)
  }

  /**
   * `new WargamesError(message)`: stores exactly the given message as its own property (an
   * own property set to undefined, `None`, when none is given) and is an instance of both
   * `WargamesError` and `Error`.
   */
  function NewWargamesError(message: Option<string>): (e: Error)
    ensures e.message == message
    ensures InstanceOf(e, WargamesErrorPrototype) && InstanceOf(e, ErrorPrototype)
  {
    Error(WargamesErrorPrototype, message)
  }

  /** `instanceof WargamesError` tells the rule system's own errors apart from every other error. */
  lemma WargamesErrorDistinguishable(e: Error)
    ensures InstanceOf(e, WargamesErrorPrototype) <==> e.proto == WargamesErrorPrototype
    ensures InstanceOf(e, ErrorPrototype)
  {
  }
}
