/** JavaScript values as the handlers see them: request bodies, record
    attributes and the remote authority's JSON answer. */
module Values {

  datatype Option<+T> = None | Some(value: T)

  /** A scalar JSON/JavaScript value. Numbers are integers here; floating
      point (and NaN) is not modelled. */
  datatype Value = Undefined | Null | Bool(b: bool) | Num(n: int) | Str(s: string)

  /** JavaScript truthiness of a scalar. */
  predicate Truthy(v: Value)
  {
    match v
    case Undefined => false
    case Null => false
    case Bool(b) => b
    case Num(n) => n != 0
    case Str(s) => s != ""
  }

  /** A plain object: its own properties and their values. */
  type Object = map<string, Value>

  /** Property access `o.k`: a missing property reads as `undefined`. */
  function Get(o: Object, k: string): Value
  {
    if k in o then o[k] else Undefined
  }
}
