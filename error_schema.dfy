/** `ErrorSchema`, the exported form of every error (status code, error kind
    and optional JSON details), and the shape serde gives it as JSON. */
module ErrorSchemas {
  import opened Wrappers
  import opened JsonValue

  /** `http::StatusCode` admits the three-digit codes 100 to 999. */
  type StatusCode = x: int | 100 <= x < 1000 witness 500

  datatype ErrorSchema = Schema(statusCode: StatusCode, error: string, details: Option<Json>)

  /** `serde_json::to_value` of a schema: an object with the three fields,
      the status code as a number and absent details as `null`. */
  function ToJson(s: ErrorSchema): (j: Json)
    ensures j.JObj? && j.fields.Keys == {"status_code", "error", "details"}
  {
    JObj(map[
      "status_code" := JNum(s.statusCode),
      "error" := JStr(s.error),
      "details" := s.details.GetOr(JNull)])
  }

  /** The derived `Deserialize`: the status code must be a number in range
      and the error a string; details that are absent or `null` read as
      `None`; other fields are ignored. */
  function FromJson(j: Json): (r: Option<ErrorSchema>)
    ensures r.Some? ==> j.JObj? && "status_code" in j.fields && "error" in j.fields
  {
    if !j.JObj? || "status_code" !in j.fields || "error" !in j.fields then None
    else
      var code := j.fields["status_code"];
      var error := j.fields["error"];
      var details := if "details" in j.fields && j.fields["details"] != JNull
                     then Some(j.fields["details"]) else None;
      if code.JNum? && 100 <= code.n < 1000 && error.JStr? then
        Some(Schema(code.n, error.s, details))
      else
        None
  }

  /** The one thing the JSON form cannot tell apart: details `Some(null)`
      and no details. */
  function Normalize(s: ErrorSchema): (t: ErrorSchema)
    ensures t.statusCode == s.statusCode && t.error == s.error
    ensures s.details != Some(JNull) ==> t == s
  {
    if s.details == Some(JNull) then s.(details := None) else s
  }

  /** Reading back the JSON form of a schema gives the schema, up to
      `Normalize`. */
  lemma JsonRoundTrip(s: ErrorSchema)
    ensures FromJson(ToJson(s)) == Some(Normalize(s))
  {
  }

  /** Two schemas have the same JSON form exactly when they agree up to
      `Normalize`. */
  lemma ToJsonInjective(s: ErrorSchema, t: ErrorSchema)
    ensures ToJson(s) == ToJson(t) <==> Normalize(s) == Normalize(t)
  {
    if ToJson(s) == ToJson(t) {
      JsonRoundTrip(s);
      JsonRoundTrip(t);
    }
  }
}
