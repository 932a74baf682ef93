/** JSON-serialisable Python values as they are stored in an execution's
    metadata document, with Python's truthiness and its comparison with 0. */
module PyJson {

  /** A value of the metadata document (floating point numbers are not modelled). */
  datatype Value =
    | Null
    | Bool(b: bool)
    | Int(i: int)
    | Str(s: string)
    | Array(items: seq<Value>)
    | Object(fields: map<string, Value>)

  /** Python's `bool(v)`: None, False, 0, "", [] and {} are falsy. */
  predicate Truthy(v: Value) {
    match v
    case Null => false
    case Bool(b) => b
    case Int(i) => i != 0
    case Str(s) => s != ""
    case Array(items) => items != []
    case Object(fields) => fields != map[]
  }

  /** Python's `d.get(k)`: the stored value, or None for a missing key. */
  function Get(d: map<string, Value>, k: string): Value {
    if k in d then d[k] else Null
  }

  /** Python's `v == 0`, which also holds for `False`. */
  predicate EqualsZero(v: Value) {
    v == Int(0) || v == Bool(false)
  }
}
