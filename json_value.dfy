/** The values that travel between the components: what `json.loads` and
    `response.json()` produce, and the Python dictionaries the tools and the
    agent return. Dictionary key order is not modelled. */
module JsonValue {

  datatype Json =
    | JNull
    | JBool(b: bool)
    | JInt(i: int)
    | JFloat(f: real)
    | JStr(s: string)
    | JList(items: seq<Json>)
    | JObj(fields: map<string, Json>)

  /** A Python `dict` with string keys. */
  type Dict = map<string, Json>

  /** `d.get(key)`: the value, or `None` when the key is absent. */
  function Get(d: Dict, key: string): (v: Json)
    ensures key in d ==> v == d[key]
    ensures key !in d ==> v == JNull
  {
    if key in d then d[key] else JNull
  }

  /** `d.get(key, default)`. */
  function GetOr(d: Dict, key: string, default: Json): (v: Json)
    ensures key in d ==> v == d[key]
    ensures key !in d ==> v == default
  {
    if key in d then d[key] else default
  }

  /** `type(v).__name__` for the Python object a JSON value decodes to. */
  function TypeName(v: Json): string
  {
    match v
    case JNull => "NoneType"
    case JBool(_) => "bool"
    case JInt(_) => "int"
    case JFloat(_) => "float"
    case JStr(_) => "str"
    case JList(_) => "list"
    case JObj(_) => "dict"
  }

  /** The single-key dictionary `{"error": message}` every failing path returns. */
  function ErrorDict(message: string): (d: Dict)
    ensures d.Keys == {"error"}
    ensures d["error"] == JStr(message)
  {
    map["error" := JStr(message)]
  }
}
