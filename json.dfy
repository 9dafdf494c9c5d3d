/** Decoded JSON values as the handlers see them after `json.loads`, with the bits of Python's
  * dynamic typing the handlers lean on: `dict.get`, truthiness, `str()` and `==` against an int. */
module Json {
  import opened Wrappers
  import opened Text

  /** Objects are maps: key order only matters to `json.dumps`, which is left abstract. */
  datatype Json =
    | JNull
    | JBool(b: bool)
    | JInt(i: int)
    | JFloat(f: real)
    | JStr(s: string)
    | JList(items: seq<Json>)
    | JObj(fields: map<string, Json>)

  /** `key in d` for a dict `d` (false for any other value). */
  predicate Has(j: Json, key: string) {
    j.JObj? && key in j.fields
  }

  /** `d.get(key)`, with `None` when the value is not a dict or lacks the key. */
  function Get(j: Json, key: string): (r: Option<Json>)
    ensures r.Some? <==> Has(j, key)
  {
    if Has(j, key) then Some(j.fields[key]) else None
  }

  /** `d.get(key, default)` */
  function GetOr(j: Json, key: string, default: Json): Json {
    Get(j, key).GetOr(default)
  }

  /** Python's `bool(x)`. */
  predicate Truthy(j: Json) {
    match j
    case JNull => false
    case JBool(b) => b
    case JInt(i) => i != 0
    case JFloat(f) => f != 0.0
    case JStr(s) => s != []
    case JList(items) => items != []
    case JObj(fields) => fields != map[]
  }

  /** `type(x).__name__`, as it appears in Python's error messages. */
  function TypeName(j: Json): string {
    match j
    case JNull => "NoneType"
    case JBool(_) => "bool"
    case JInt(_) => "int"
    case JFloat(_) => "float"
    case JStr(_) => "str"
    case JList(_) => "list"
    case JObj(_) => "dict"
  }

  /** `str(x)`. Floats, lists and dicts are rendered by `repr`, which stands for Python's own
    * float and container formatting. */
  function Str(j: Json, repr: Json -> string): (r: string)
    ensures j.JStr? ==> r == j.s
  {
    match j
    case JNull => "None"
    case JBool(b) => if b then "True" else "False"
    case JInt(i) => IntToString(i)
    case JStr(s) => s
    case _ => repr(j)
  }

  /** `x == n` for an int `n`: booleans and floats compare by value, everything else is unequal. */
  predicate EqualsInt(j: Json, n: int) {
    match j
    case JBool(b) => (if b then 1 else 0) == n
    case JInt(i) => i == n
    case JFloat(f) => f == n as real
    case _ => false
  }

  /** The message of the `AttributeError` raised by calling method `name` on a value that lacks it. */
  function NoAttribute(j: Json, name: string): string {
    "'" + TypeName(j) + "' object has no attribute '" + name + "'"
  }
}
