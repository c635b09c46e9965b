/** JSON-shaped values: the `any` payloads that travel in request sections and response bodies. */
module Json {

  /** Numbers are restricted to integers; object members keep their insertion order. */
  datatype Value =
    | JNull
    | JBool(b: bool)
    | JNumber(n: int)
    | JString(s: string)
    | JArray(items: seq<Value>)
    | JObject(members: seq<(string, Value)>)

  /** JavaScript truthiness of a defined value (`null`, `false`, `0` and `""` are falsy). */
  predicate Truthy(v: Value) {
    match v
    case JNull => false
    case JBool(b) => b
    case JNumber(n) => n != 0
    case JString(s) => s != ""
    case JArray(_) => true
    case JObject(_) => true
  }
}
