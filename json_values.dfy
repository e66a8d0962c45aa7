/**
  Decoded JSON values as the HTTP adapter hands them to a geocoder, and the
  parameter maps a geocoder hands to the HTTP adapter.
*/
module JsonValues {

  /** A JSON value. Numbers are kept exactly, as reals. */
  datatype Json =
    | JNull
    | JBool(b: bool)
    | JNum(n: real)
    | JStr(s: string)
    | JArr(items: seq<Json>)
    | JObj(fields: map<string, Json>)

  /** Request parameters: an object whose keys become the query string. */
  type Params = map<string, Json>

  /** JavaScript truthiness: null (and undefined), false, 0 and '' are falsy. */
  predicate Truthy(v: Json) {
    match v
    case JNull => false
    case JBool(b) => b
    case JNum(n) => n != 0.0
    case JStr(s) => s != ""
    case _ => true
  }
}
