/** The request and response values the route handlers work with. */
module Http {

  /**
   * A field of a parsed JSON request body. Objects and arrays are all `Obj`
   * (the handlers only ask whether they are truthy); NaN is not modelled.
   */
  datatype JsValue = Undefined | Null | Bool(b: bool) | Num(n: int) | Str(s: string) | Obj

  /** JavaScript truthiness: `!v` is false. */
  predicate Truthy(v: JsValue) {
    match v
    case Undefined => false
    case Null => false
    case Bool(b) => b
    case Num(n) => n != 0
    case Str(s) => s != ""
    case Obj => true
  }

  /**
   * What a handler sends: `res.status(s).send(value)` or `.json(value)` with a
   * JSON body, `res.status(s).send(message)` with a plain-text body, or
   * `res.status(s).json({ error })`.
   */
  datatype Reply<T> = Json(status: nat, value: T) | Text(status: nat, message: string) | ErrorJson(status: nat, error: string)
}
