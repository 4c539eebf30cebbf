/** `HelloMachine`: its validator and the decision and formatting part of
    its `call`. The current year is a parameter. */
module HelloMachines {
  import opened Wrappers
  import opened Text
  import opened Durations
  import opened JsonValue
  import opened ErrorSchemas
  import opened Machines
  import opened HelloModels
  import opened Bytes

  type I32 = x: int | -0x8000_0000 <= x < 0x8000_0000

  /** `i32::saturating_sub`. */
  function SaturatingSub(a: I32, b: I32): (r: I32)
    ensures -0x8000_0000 <= a - b < 0x8000_0000 ==> r == a - b
    ensures a - b < -0x8000_0000 ==> r == -0x8000_0000
    ensures a - b >= 0x8000_0000 ==> r == 0x7FFF_FFFF
  {
    if a - b < -0x8000_0000 then -0x8000_0000
    else if a - b >= 0x8000_0000 then 0x7FFF_FFFF
    else a - b
  }

  /** The derived ordering of `Option<Duration>`: `None` comes first. */
  predicate OptionLess(a: Option<Duration>, b: Option<Duration>) {
    match (a, b)
    case (None, Some(_)) => true
    case (Some(x), Some(y)) => x < y
    case (_, None) => false
  }

  const MinTimeout: Duration := FromSecs(1)

  const BodyMissing := "The input is missing."
  const AgeNotPositive := "Age must be positive."
  const AgeUnder18 := "You must be 18 years or older to use this service."
  const AgeUntruthful := "I don't think you are truthful about your age."
  const TimeoutTooShort := "The timeout must be at least 1 second."

  /** The `age` error for an age, if any. */
  function AgeError(age: int): (e: Option<string>)
    ensures e.None? <==> 18 <= age < 130
  {
    if age <= 0 then Some(AgeNotPositive)
    else if age <= 17 then Some(AgeUnder18)
    else if age >= 130 then Some(AgeUntruthful)
    else None
  }

  /** The `timeout` check: an absent timeout is less than any present one,
      so it is refused too. */
  function WithTimeoutCheck(errors: ValidationError, query: HelloQuery): (r: ValidationError)
    ensures "timeout" in r <==> "timeout" in errors || OptionLess(GetTimeout(query), Some(MinTimeout))
  {
    if OptionLess(GetTimeout(query), Some(MinTimeout)) then errors["timeout" := TimeoutTooShort] else errors
  }

  function WithAgeCheck(errors: ValidationError, payload: HelloPayload): ValidationError {
    match AgeError(payload.age)
    case Some(m) => errors["age" := m]
    case None => errors
  }

  function Conclude(errors: ValidationError): (r: Result<(), ValidationError>)
    ensures r.Ok? <==> |errors| == 0
    ensures r.Err? ==> r.error == errors
  {
    if |errors| == 0 then Ok(()) else Err(errors)
  }

  /** `validator` as written: after noting a missing input it unwraps the
      input anyway, which panics; `None` stands for that panic. */
  function ValidatorAsWritten(query: HelloQuery, input: Option<HelloPayload>)
    : (r: Option<Result<(), ValidationError>>)
    ensures r.None? <==> input.None?
  {
    var errors: ValidationError := if input.None? then map["$body" := BodyMissing] else map[];
    match input
    case None => None
    case Some(payload) => Some(Conclude(WithTimeoutCheck(WithAgeCheck(errors, payload), query)))
  }

  /** `validator` with the missing input reported instead of unwrapped:
      the age rule applies only to a present payload. */
  function Validator(query: HelloQuery, input: Option<HelloPayload>): (r: Result<(), ValidationError>)
    ensures r.Ok? <==> input.Some? && 18 <= input.value.age < 130 && !OptionLess(query.timeout, Some(MinTimeout))
    ensures r.Err? ==> ("$body" in r.error <==> input.None?)
    ensures r.Err? ==> ("age" in r.error <==> input.Some? && !(18 <= input.value.age < 130))
    ensures r.Err? && input.Some? && "age" in r.error ==> Some(r.error["age"]) == AgeError(input.value.age)
    ensures r.Err? ==> ("timeout" in r.error <==> OptionLess(query.timeout, Some(MinTimeout)))
    ensures r.Err? ==> r.error.Keys <= {"$body", "age", "timeout"}
  {
    var errors: ValidationError := if input.None? then map["$body" := BodyMissing] else map[];
    var errors := if input.Some? then WithAgeCheck(errors, input.value) else errors;
    Conclude(WithTimeoutCheck(errors, query))
  }

  /** Without an input the validator as written panics, while the
      corrected one reports the missing body. */
  lemma MissingInputPanics(query: HelloQuery)
    ensures ValidatorAsWritten(query, None).None?
    ensures Validator(query, None).Err? && Validator(query, None).error["$body"] == BodyMissing
  {
  }

  /** With an input present the two agree. */
  lemma ValidatorAgrees(query: HelloQuery, payload: HelloPayload)
    ensures ValidatorAsWritten(query, Some(payload)) == Some(Validator(query, Some(payload)))
  {
  }

  /** The greeting for a successful call. */
  function GreetingText(language: AcceptedLanguage, name: string, year: int): (g: string)
  {
    language.Greeting() + ", " + name + "! " + IntToString(year) + " is a good year to be born in."
  }

  /** The greeting opens with the language's greeting and the caller's
      name. */
  lemma GreetingNamesCaller(language: AcceptedLanguage, name: string, year: int)
    ensures var g := GreetingText(language, name, year);
            var lead := language.Greeting() + ", " + name + "! ";
            |lead| <= |g| && g[..|lead|] == lead
  {
    var lead := language.Greeting() + ", " + name + "! ";
    assert GreetingText(language, name, year) == lead + (IntToString(year) + " is a good year to be born in.");
  }

  const ForbiddenName := "little timmy"

  /** The banned name, compared after ASCII lower-casing. */
  predicate IsForbiddenName(name: string) {
    AsciiLower(name) == ForbiddenName
  }

  function Forbidden(): ErrorSchema {
    Schema(403, "ForbiddenUser", Some(Obj1("message", JStr("Little Timmy is not allowed to use this system."))))
  }

  /** The outcome of `call` in the year `currentYear`, when `count`
      requests were processed before it. */
  function CallOutcome(query: HelloQuery, payload: HelloPayload, currentYear: I32, count: nat)
    : (r: Result<HelloResult, ErrorSchema>)
    ensures r.Err? <==> IsForbiddenName(payload.name)
    ensures r.Err? ==> r.error == Forbidden()
    ensures r.Ok? ==> r.value.answerId == count + 1
    ensures r.Ok? ==> r.value.greeting == GreetingText(query.language, payload.name, SaturatingSub(currentYear, payload.age))
  {
    var year := SaturatingSub(currentYear, payload.age);
    if IsForbiddenName(payload.name) then Err(Forbidden())
    else Ok(HelloResult(GreetingText(query.language, payload.name, year), count + 1))
  }

  /** `name` lower-cases to the banned name, shown index by index. */
  lemma {:induction false} LowersToForbidden(name: string)
    requires |name| == |ForbiddenName|
    requires forall i :: 0 <= i < |name| ==>
               name[i] == ForbiddenName[i] || ((name[i] as int) + 32 == ForbiddenName[i] as int && 'A' <= name[i] <= 'Z')
    ensures IsForbiddenName(name)
  {
    var r := AsciiLower(name);
    forall i | 0 <= i < |name| ensures r[i] == ForbiddenName[i] {
      if name[i] != ForbiddenName[i] {
        assert (name[i] as int + 32) as char == ForbiddenName[i];
      } else {
        assert !('A' <= ForbiddenName[i] <= 'Z');
      }
    }
  }

  /** The ban on the name ignores ASCII case. */
  lemma ForbiddenInAnyCase(query: HelloQuery, payload: HelloPayload, currentYear: I32, count: nat)
    requires payload.name == "Little Timmy" || payload.name == "LITTLE TIMMY"
    ensures CallOutcome(query, payload, currentYear, count) == Err(Forbidden())
  {
    LowersToForbidden(payload.name);
  }

  class HelloMachine {
    /** The number of requests processed so far. */
    var processCount: nat

    constructor ()
      ensures processCount == 0
    {
      processCount := 0;
    }

    /** `call`. The source unwraps the input; the shop only calls the
        machine on input its validator accepted, which is never `None`. */
    method Call(query: HelloQuery, input: Option<HelloPayload>, currentYear: I32)
      returns (r: Result<HelloResult, ErrorSchema>)
      requires input.Some?
      modifies this
      ensures r == CallOutcome(query, input.value, currentYear, old(processCount))
      ensures processCount == old(processCount) + (if r.Ok? then 1 else 0)
    {
      var payload := input.value;
      var year := SaturatingSub(currentYear, payload.age);
      if IsForbiddenName(payload.name) {
        return Err(Forbidden());
      }
      var greeting := GreetingText(query.language, payload.name, year);
      processCount := processCount + 1;
      r := Ok(HelloResult(greeting, processCount));
    }
  }
}
