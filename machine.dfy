/** The default `Machine::validate`: a validator's field errors become a
    422 `ValidationError` schema. */
module Machines {
  import opened Wrappers
  import opened Text
  import opened JsonValue
  import opened ErrorSchemas

  /** Field name to message; `$query` and `$body` stand for the whole query
      or body. */
  type ValidationError = map<string, string>

  const ValidationStatus: StatusCode := 422

  /** The summary line for `count` invalid fields. */
  function CountMessage(count: nat): (m: string)
  {
    "Input cannot be validated. Please see details for " + NatToString(count) + " invalid field"
    + (if count == 1 then "" else "s") + " below."
  }

  /** `validate`, given what `validator` returned for the same query and
      input. */
  function Validate(validated: Result<(), ValidationError>): (r: Result<(), ErrorSchema>)
    ensures r.Ok? <==> validated.Ok?
    ensures validated.Err? ==>
              && r.error.statusCode == ValidationStatus && r.error.error == "ValidationError"
              && r.error.details.Some? && r.error.details.value.JObj?
              && r.error.details.value.fields.Keys == {"message", "fields"}
              && r.error.details.value.fields["message"] == JStr(CountMessage(|validated.error|))
              && r.error.details.value.fields["fields"] == StringMap(validated.error)
  {
    match validated
    case Ok(_) => Ok(())
    case Err(details) =>
      Err(Schema(ValidationStatus, "ValidationError",
                 Some(Obj2("message", JStr(CountMessage(|details|)), "fields", StringMap(details)))))
  }

  /** The `fields` detail determines the validator's map: two different
      maps never give the same schema. */
  lemma {:induction false} ValidateInjective(a: ValidationError, b: ValidationError)
    ensures Validate(Err(a)) == Validate(Err(b)) ==> a == b
  {
    if Validate(Err(a)) == Validate(Err(b)) {
      var ja, jb := StringMap(a), StringMap(b);
      assert ja == jb;
      assert a.Keys == b.Keys;
      forall k | k in a ensures a[k] == b[k] {
        assert ja.fields[k] == JStr(a[k]);
        assert jb.fields[k] == JStr(b[k]);
      }
    }
  }

  /** One invalid field is reported in the singular, any other count in
      the plural. */
  lemma CountMessagePlural(count: nat)
    ensures var m := CountMessage(count);
            var tail := if count == 1 then " field below." else " fields below.";
            |m| >= |tail| && m[|m| - |tail|..] == tail
  {
    var tail := if count == 1 then " field below." else " fields below.";
    var base := "Input cannot be validated. Please see details for " + NatToString(count) + " invalid";
    assert CountMessage(count) == base + tail;
  }
}
