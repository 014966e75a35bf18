/**
 * Message payloads, JavaScript truthiness, and the failures a hook can raise.
 */
module Values {

  datatype Option<+T> = None | Some(value: T)

  /**
   * A message payload. Messages are copied at every hop with a JSON round
   * trip, so only JSON-shaped values travel through a stream; for them the
   * copy is the identity, and a value type needs no copying at all.
   */
  datatype Value =
    | Null
    | Bool(b: bool)
    | Num(n: int)
    | Str(s: string)
    | Arr(items: seq<Value>)
    | Obj(fields: map<string, Value>)

  /** JavaScript truthiness: `null`, `false`, `0` and `""` are falsy. */
  predicate Truthy(v: Value) {
    match v
    case Null => false
    case Bool(b) => b
    case Num(n) => n != 0
    case Str(s) => s != ""
    case Arr(_) => true
    case Obj(_) => true
  }

  /** What a hook may throw. */
  datatype Error =
    | NotImplementedError(message: string)
    | ReferenceError(name: string)
    | Raised(payload: Value)

  /** The outcome of a hook: a value, or the exception it threw. */
  datatype Result<+T> = Ok(value: T) | Err(error: Error)
}
