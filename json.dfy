/** A decoded JSON document, as Python's `json.load` hands it back. */
module Json {

  /** JSON objects are dictionaries keyed by member name; arrays keep their order. */
  datatype Json =
    | JNull
    | JBool(truth: bool)
    | JNumber(number: real)
    | JString(str: string)
    | JArray(items: seq<Json>)
    | JObject(members: map<string, Json>)
  {
    /** True for the values Python's `len` accepts: strings, lists and dictionaries. */
    predicate HasLength() {
      JString? || JArray? || JObject?
    }

    /** Python's truth test: None, False, 0, and empty strings, lists and dictionaries are false. */
    predicate Falsy() {
      match this
      case JNull => true
      case JBool(b) => !b
      case JNumber(x) => x == 0.0
      case JString(t) => t == ""
      case JArray(xs) => xs == []
      case JObject(m) => m == map[]
    }

    /** `d.get(key, default)` on a dictionary. */
    function Get(key: string, default: Json): Json
      requires JObject?
    {
      if key in members then members[key] else default
    }
  }
}
