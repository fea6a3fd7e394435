/** JSON values as Python's `json` module hands them to the service
    (None, bool, int or float, str, list, dict), and the two pieces of
    Python semantics the envelope lookup depends on: truthiness and `in`. */
module Json {
  import opened Wrappers
  import Text

  /** A decoded JSON value. Numbers are kept as reals: the lookup only asks
      whether a number is zero. Object keys are strings, as in JSON. */
  datatype JsonValue =
    | JNull
    | JBool(b: bool)
    | JNum(n: real)
    | JStr(s: string)
    | JArr(items: seq<JsonValue>)
    | JObj(members: map<string, JsonValue>)

  /** What a JSON decoder (`response.json()`, `json.loads`) produced from a
      text: a value, or the message of the decoding error it raised. */
  datatype Decoded = Parsed(value: JsonValue) | Undecodable(message: string)

  /** Python's `bool(v)`: empty containers, "", 0, False and None are false. */
  predicate Truthy(v: JsonValue)
  {
    match v
    case JNull => false
    case JBool(b) => b
    case JNum(n) => n != 0.0
    case JStr(s) => s != ""
    case JArr(items) => items != []
    case JObj(members) => members != map[]
  }

  /** Python's `key in container` for a string key: a key test on a dict,
      an element test on a list, a substring test on a str. On None, a bool
      or a number Python raises TypeError, modelled as None. */
  function Contains(container: JsonValue, key: string): (r: Option<bool>)
    ensures r.Some? <==> (container.JObj? || container.JArr? || container.JStr?)
  {
    match container
    case JObj(members) => Some(key in members)
    case JArr(items) => Some(JStr(key) in items)
    case JStr(s) => Some(Text.IsSubstring(key, s))
    case _ => None
  }
}
