/** A parsed JSON document, as `json.loads` and aiohttp's `response.json()`
    hand it to the program: objects become dictionaries keyed by string. */
module Json {

  datatype Value =
    | JNull
    | JBool(b: bool)
    | JInt(i: int)
    | JStr(s: string)
    | JArray(items: seq<Value>)
    | JObject(fields: map<string, Value>)

  /** `d.get(key, default)` on a dictionary. */
  function Get(fields: map<string, Value>, key: string, default: Value): Value {
    if key in fields then fields[key] else default
  }
}
