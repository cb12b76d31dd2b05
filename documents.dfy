/** Field values of the document store, as the services see them after `to_dict()`. */
module Documents {

  /** A stored field: text, a non-text scalar (numbers, timestamps), or an array. */
  datatype Value = Str(s: string) | Num(n: int) | List(items: seq<Value>)

  /** A document: field name to value, as a Python `dict`. */
  type Doc = map<string, Value>

  /** Python truthiness of a field value (`if value:`). */
  predicate Truthy(v: Value) {
    match v
    case Str(s) => s != ""
    case Num(n) => n != 0
    case List(items) => items != []
  }

  /** `d.get(k, default)` */
  function Get(d: Doc, k: string, default: Value): Value {
    if k in d then d[k] else default
  }
}
