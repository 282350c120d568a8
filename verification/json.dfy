/** Values as `encoding/json` produces them when it decodes into an empty
    interface: nil, bool, float64, string, `[]interface{}` and
    `map[string]interface{}`. */
module Json {

  /** A decoded JSON value. Numbers carry an integer: no operation of this
      model inspects a number, only its presence and its Go type. */
  datatype JValue =
    | JNull
    | JBool(b: bool)
    | JNumber(n: int)
    | JString(s: string)
    | JArray(elems: seq<JValue>)
    | JObject(fields: map<string, JValue>)

  /** The Go type that holds a decoded value, as the `%T` verb prints it. */
  function GoTypeName(v: JValue): string
  {
    match v
    case JNull => "<nil>"
    case JBool(_) => "bool"
    case JNumber(_) => "float64"
    case JString(_) => "string"
    case JArray(_) => "[]interface {}"
    case JObject(_) => "map[string]interface {}"
  }

  /** The JSON kind `encoding/json` names in an `UnmarshalTypeError`. */
  function JsonKind(v: JValue): string
  {
    match v
    case JNull => "null"
    case JBool(_) => "bool"
    case JNumber(_) => "number"
    case JString(_) => "string"
    case JArray(_) => "array"
    case JObject(_) => "object"
  }
}
