/** JavaScript values, as far as the Home screen's guards can tell them apart.
    The screen compares some fields strictly against `null` and tests others
    for truthiness, so `undefined`, `null` and the empty string must stay
    distinct. */
module JsValues {

  /** A JavaScript value: `undefined`, `null`, a boolean, an integral number,
      a string, or any object or array (whose contents the screen never looks at). */
  datatype JsValue = Undefined | Null | Bool(b: bool) | Num(n: int) | Str(s: string) | Obj

  /** JavaScript truthiness (the ToBoolean conversion used by `&&`, `?:` and `if`):
      `undefined`, `null`, `false`, `0` and `""` are falsy, everything else is truthy. */
  predicate Truthy(v: JsValue)
  {
    match v
    case Undefined => false
    case Null => false
    case Bool(b) => b
    case Num(n) => n != 0
    case Str(s) => s != ""
    case Obj => true
  }
}
