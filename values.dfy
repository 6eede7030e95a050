/** Values shared by the estimator, the back end and the components: JSON
    values as they cross the network, JavaScript values as components hold
    them, the slider domain, and the usual Option and Result wrappers. */
module Values {

  /** A JSON value as the browser sends it and Flask's `request.json` reads it
      (arrays and objects never occur in the requests modelled here). */
  datatype Json = Null | Bool(b: bool) | Num(n: real) | Str(s: string)

  /** A JavaScript value held by a component: `undefined`, or a value that
      JSON can carry (`Js(Null)` is `null`). */
  datatype JsValue = Undefined | Js(json: Json)

  /** JavaScript truthiness: `undefined`, `null`, `false`, `0` and `""` are
      falsy, everything else is truthy. */
  predicate Truthy(v: JsValue)
  {
    match v
    case Undefined => false
    case Js(Null) => false
    case Js(Bool(b)) => b
    case Js(Num(n)) => n != 0.0
    case Js(Str(s)) => s != ""
  }

  /** An optional string property: absent is `undefined`. */
  function OptionalString(s: Option<string>): JsValue
  {
    match s
    case None => Undefined
    case Some(t) => Js(Str(t))
  }

  /** A value the square-footage slider of either estimation form can produce:
      500 to 5000 in steps of 50. */
  predicate OnSlider(v: int)
  {
    500 <= v <= 5000 && (v - 500) % 50 == 0
  }

  datatype Option<+T> = None | Some(value: T)

  datatype Result<+T, +E> = Ok(value: T) | Err(error: E) {
    predicate IsFailure() { Err? }

    function PropagateFailure<U>(): Result<U, E>
      requires Err?
    {
      Err(error)
    }

    function Extract(): T
      requires Ok?
    {
      value
    }
  }
}
