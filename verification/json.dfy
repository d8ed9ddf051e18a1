/** The value tree that Go's encoding/json builds when it decodes a document
    into an `interface{}`: nil, bool, float64, string, []interface{} and
    map[string]interface{}, one per value kind of section 3 of RFC 8259.
    Numbers are kept as integers. */
module Json {
  import opened Wrappers

  datatype JValue =
    | JNull
    | JBool(b: bool)
    | JNum(n: int)
    | JString(s: string)
    | JArray(items: seq<JValue>)
    | JObject(fields: map<string, JValue>)

  /** Indexing a map[string]interface{}: a missing key reads as nil, the same
      value a JSON null decodes to, so the two cannot be told apart. */
  function Get(fields: map<string, JValue>, key: string): JValue {
    if key in fields then fields[key] else JNull
  }

  // The single-result type assertions `x.(map[string]interface{})`,
  // `x.([]interface{})`, `x.(string)`, `x.(float64)` and `x.(bool)`:
  // None exactly where Go panics.

  function AsObject(v: JValue): Option<map<string, JValue>> {
    if v.JObject? then Some(v.fields) else None
  }

  function AsArray(v: JValue): Option<seq<JValue>> {
    if v.JArray? then Some(v.items) else None
  }

  function AsString(v: JValue): Option<string> {
    if v.JString? then Some(v.s) else None
  }

  function AsNumber(v: JValue): Option<int> {
    if v.JNum? then Some(v.n) else None
  }

  function AsBool(v: JValue): Option<bool> {
    if v.JBool? then Some(v.b) else None
  }
}
