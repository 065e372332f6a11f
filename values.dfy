/** JavaScript values as the context plugin sees them, with the truthiness
    tests (`if (x)`, `x || y`, `Hoek.assert(x, ...)`) that its branches use. */
module Values {

  /** A JavaScript value. Objects and functions are references: two of them
      are the same value exactly when they are the same object. */
  datatype Value =
    | Undefined
    | Null
    | Bool(b: bool)
    | Num(n: int)
    | Str(s: string)
    | Obj(id: nat)
    | Fun(id: nat)
      /** An error built by Boom, carrying its HTTP status code. */
    | Boom(statusCode: int, message: string)

  /** JavaScript's ToBoolean: what `if (v)` and `v || w` test. */
  predicate Truthy(v: Value) {
    match v
    case Undefined => false
    case Null => false
    case Bool(b) => b
    case Num(n) => n != 0
    case Str(s) => s != ""
    case Obj(_) => true
    case Fun(_) => true
    case Boom(_, _) => true
  }

  /** `typeof v === 'function'` */
  predicate IsFunction(v: Value) {
    v.Fun?
  }

  /** An exception thrown out of the plugin's code. */
  datatype Exception =
      /** `Hoek.assert` failed with this message */
    | AssertionError(message: string)
      /** a value that is not a function was called */
    | TypeError(message: string)
      /** an unbound identifier was read */
    | ReferenceError(message: string)

  datatype Option<T> = None | Some(value: T)

  /** The pair a strategy hands to its completion: `callback(err, context)`. */
  datatype Outcome = Outcome(error: Value, context: Value)

  /** `Boom.badImplementation("Context strategy not found " + name)`, with no context. */
  function NotFound(name: string): (o: Outcome)
    ensures Truthy(o.error) && o.error.Boom? && o.error.statusCode == 500
    ensures o.context == Undefined
  {
    Outcome(Boom(500, "Context strategy not found " + name), Undefined)
  }
}
