/** The JavaScript values the tailing stream stores in its option objects. */
module JsValues {

  datatype Option<T> = None | Some(value: T)

  /** A property value of an options object. Numbers are modelled as integers. */
  datatype Value = Undefined | Null | Bool(b: bool) | Num(n: int) | Str(s: string)

  /** An object's own enumerable properties, by name. */
  type Props = map<string, Value>

  /** JavaScript truthiness: what `if (v)` and `!v` test. */
  predicate Truthy(v: Value) {
    match v
    case Undefined => false
    case Null => false
    case Bool(b) => b
    case Num(n) => n != 0
    case Str(s) => s != ""
  }
}
