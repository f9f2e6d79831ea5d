/** A JSON value as JavaScript and Python hold it after parsing, and the
    truthiness JavaScript gives such a value. */
module Json {

  datatype Json =
    | JNull
    | JBool(b: bool)
    | JNum(r: real)
    | JStr(s: string)
    | JArr(items: seq<Json>)
    | JObj(fields: map<string, Json>)

  /** A JSON object's members. */
  type JsonObject = map<string, Json>

  /** `!!v` in JavaScript: null, false, 0 and "" are falsy; arrays and
      objects, even empty ones, are truthy. */
  predicate Truthy(v: Json) {
    match v
    case JNull => false
    case JBool(b) => b
    case JNum(r) => r != 0.0
    case JStr(s) => s != ""
    case JArr(_) => true
    case JObj(_) => true
  }
}
