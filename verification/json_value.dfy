/** The values a JSON parser produces, with Python's truthiness and type names. */
module JsonValue {

  /** A decoded JSON document. Integers and floats are kept apart, as Python keeps them. */
  datatype Json =
    | JNull
    | JBool(b: bool)
    | JInt(i: int)
    | JFloat(f: real)
    | JString(s: string)
    | JArray(items: seq<Json>)
    | JObject(fields: map<string, Json>)

  /** Python's `bool(v)`: None, False, zero and empty containers are falsy. */
  function Truthy(v: Json): (t: bool)
    ensures !t <==> v in {JNull, JBool(false), JInt(0), JFloat(0.0), JString(""), JArray([]), JObject(map[])}
  {
    match v
    case JNull => false
    case JBool(b) => b
    case JInt(i) => i != 0
    case JFloat(f) => f != 0.0
    case JString(s) => |s| > 0
    case JArray(items) => |items| > 0
    case JObject(fields) => |fields| > 0
  }

  /** Python's `type(v).__name__` for the value `json.loads` would build. */
  function TypeName(v: Json): (name: string)
    ensures v.JNull? <==> name == "NoneType"
    ensures v.JBool? <==> name == "bool"
    ensures v.JInt? <==> name == "int"
    ensures v.JFloat? <==> name == "float"
    ensures v.JString? <==> name == "str"
    ensures v.JArray? <==> name == "list"
    ensures v.JObject? <==> name == "dict"
  {
    match v
    case JNull => "NoneType"
    case JBool(_) => "bool"
    case JInt(_) => "int"
    case JFloat(_) => "float"
    case JString(_) => "str"
    case JArray(_) => "list"
    case JObject(_) => "dict"
  }
}
