/**
 * JavaScript values, as far as the middleware looks at them: it only asks whether a value
 * is truthy (`x ? a : b`, `x || false`) and calls the values it finds truthy.
 */
module JsValues {

  datatype JsValue =
    | Undefined
    | Null
    | Bool(b: bool)
    | Num(n: real)
    | NaN
    | Str(s: string)
    | Obj(id: nat)  // an object that is not a function
    | Fn(id: nat)   // a function

  /** JavaScript's ToBoolean: undefined, null, false, 0, NaN and "" are falsy. */
  predicate Truthy(v: JsValue)
  {
    match v
    case Undefined => false
    case Null => false
    case NaN => false
    case Bool(b) => b
    case Num(n) => n != 0.0
    case Str(s) => s != ""
    case Obj(_) => true
    case Fn(_) => true
  }

  /** Calling a value succeeds only for a function; anything else throws a TypeError. */
  predicate Callable(v: JsValue)
  {
    v.Fn?
  }

  /** The expression `v || false`: `v` itself when truthy, else the boolean `false`. */
  function OrFalse(v: JsValue): (r: JsValue)
    ensures Truthy(r) <==> Truthy(v)
    ensures Truthy(v) ==> r == v
    ensures !Truthy(v) ==> r == Bool(false)
  {
    if Truthy(v) then v else Bool(false)
  }
}
