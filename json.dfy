/** The JSON value tree (`serde_json::Value`) with integer numbers. Objects
    are maps, as `serde_json::Map` is when order is not preserved. */
module JsonValue {

  datatype Json =
    | JNull
    | JBool(b: bool)
    | JNum(n: int)
    | JStr(s: string)
    | JArr(items: seq<Json>)
    | JObj(fields: map<string, Json>)

  /** `json!({ key: value })`. */
  function Obj1(k: string, v: Json): (j: Json)
    ensures j.JObj? && j.fields.Keys == {k} && j.fields[k] == v
  {
    JObj(map[k := v])
  }

  /** `json!({ k1: v1, k2: v2 })` with distinct keys. */
  function Obj2(k1: string, v1: Json, k2: string, v2: Json): (j: Json)
    requires k1 != k2
    ensures j.JObj? && j.fields.Keys == {k1, k2}
    ensures j.fields[k1] == v1 && j.fields[k2] == v2
  {
    JObj(map[k1 := v1, k2 := v2])
  }

  /** `json!(m)` for a `HashMap<String, String>`. */
  function StringMap(m: map<string, string>): (j: Json)
    ensures j.JObj? && j.fields.Keys == m.Keys
    ensures forall k :: k in m ==> j.fields[k] == JStr(m[k])
  {
    JObj(map k | k in m :: JStr(m[k]))
  }
}
