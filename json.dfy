/** The loosely typed document `encoding/json` produces when it decodes into
    `interface{}`: JSON `null`, booleans, numbers (float64 in Go, a `real` here),
    strings, arrays (`[]interface{}`) and objects (`map[string]interface{}`). */
module JsonValues {

  datatype Json =
    | JNull
    | JBool(b: bool)
    | JNumber(n: real)
    | JString(s: string)
    | JArray(items: seq<Json>)
    | JObject(fields: map<string, Json>)

  /** `m[key]` read through Go's comma-ok idiom, with a missing key and an
      explicit `null` both giving `nil`. */
  function Field(m: map<string, Json>, key: string): Json
  {
    if key in m then m[key] else JNull
  }
}
