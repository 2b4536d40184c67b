/**
 * Dynamically typed values as the Python code receives them from decoded
 * tool-call arguments and stored records, and Python's truthiness on them.
 */
module Json {
  import Options

  /** A decoded JSON value. `JFloat` stands for any non-zero floating-point number. */
  datatype Json =
    | JNull
    | JBool(b: bool)
    | JInt(i: int)
    | JFloat
    | JStr(s: string)
    | JList(items: seq<Json>)
    | JObj(fields: seq<(string, Json)>)

  /** `bool(v)` in Python. */
  predicate Truthy(v: Json) {
    match v
    case JNull => false
    case JBool(b) => b
    case JInt(i) => i != 0
    case JFloat => true
    case JStr(s) => s != ""
    case JList(items) => items != []
    case JObj(fields) => fields != []
  }

  /**
   * `isinstance(v, int)` in Python, with its integer value: a `bool` is an
   * `int` subclass, so `True` is 1 and `False` is 0.
   */
  function AsPyInt(v: Json): (r: Options.Option<int>)
    ensures r.Some? <==> (v.JInt? || v.JBool?)
    ensures v.JBool? ==> r == Options.Some(if v.b then 1 else 0)
  {
    match v
    case JInt(i) => Options.Some(i)
    case JBool(b) => Options.Some(if b then 1 else 0)
    case _ => Options.None
  }
}
