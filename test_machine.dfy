/** `TestMachine`, the crate's own machine for its tests: an if-chain on the
    payload and the query's name. */
module TestMachines {
  import opened Wrappers
  import opened Durations
  import opened JsonValue
  import opened ErrorSchemas

  datatype TestStatus = Eat | Sleep | Work {
    /** The derived `Debug` rendering. */
    function DebugText(): string {
      match this
      case Eat => "Eat"
      case Sleep => "Sleep"
      case Work => "Work"
    }
  }

  /** The derived `Default`. */
  const DefaultStatus := Eat

  datatype TestQuery = TestQuery(name: string, timeout: Option<Duration>)

  /** `TestQuery::get_timeout`. */
  function GetTimeout(q: TestQuery): (t: Option<Duration>)
    ensures t == q.timeout
  {
    q.timeout
  }

  /** The duration is an `f64`; `renderFloat` below is its `Debug` text. */
  datatype TestPayload = TestPayload(action: TestStatus, duration: real)

  datatype TestResult = TestResult(greetings: string, narration: string)

  function Refusal(code: StatusCode, error: string, message: string): ErrorSchema {
    Schema(code, error, Some(Obj1("message", JStr(message))))
  }

  /** `TestMachine::call`. */
  function Call(query: TestQuery, input: Option<TestPayload>, renderFloat: real -> string)
    : (r: Result<TestResult, ErrorSchema>)
    ensures input.None? ==> r == Err(Refusal(400, "MissingInput", "No payload was provided."))
    ensures input.Some? && input.value.action == Sleep ==>
              r == Err(Refusal(406, "NoSleepForYou", query.name + " is not allowed to sleep."))
    ensures r.Ok? <==> input.Some? && input.value.action != Sleep && query.name != "" && query.name != "Little Timmy"
    ensures r.Ok? ==> r.value.greetings == "Hello, " + query.name + "!"
  {
    match input
    case None => Err(Refusal(400, "MissingInput", "No payload was provided."))
    case Some(payload) =>
      if payload.action == Sleep then
        Err(Refusal(406, "NoSleepForYou", query.name + " is not allowed to sleep."))
      else if query.name == "" then
        Err(Refusal(422, "MissingName", "No name was provided."))
      else if query.name == "Little Timmy" then
        Err(Refusal(403, "NoTimmy", "Little Timmy is not allowed in the coffee shop."))
      else
        Ok(TestResult("Hello, " + query.name + "!",
                      "You want to " + payload.action.DebugText() + " for " + renderFloat(payload.duration)
                      + " seconds."))
  }

  /** Each refusal has its own status code and error kind: the sleep rule
      comes first, then the missing name, then the banned name. */
  lemma CallRefusals(query: TestQuery, payload: TestPayload, renderFloat: real -> string)
    ensures payload.action != Sleep && query.name == "" ==>
              Call(query, Some(payload), renderFloat) == Err(Refusal(422, "MissingName", "No name was provided."))
    ensures payload.action != Sleep && query.name == "Little Timmy" ==>
              Call(query, Some(payload), renderFloat)
              == Err(Refusal(403, "NoTimmy", "Little Timmy is not allowed in the coffee shop."))
    ensures Call(query, Some(payload), renderFloat).Err? ==>
              Call(query, Some(payload), renderFloat).error.statusCode in {406, 422, 403}
  {
  }

  /** A `Sleep` payload is refused whatever the name, even one that would
      be refused for another reason. */
  lemma SleepCheckedFirst(renderFloat: real -> string, duration: real)
    ensures Call(TestQuery("", None), Some(TestPayload(Sleep, duration)), renderFloat).error.statusCode == 406
    ensures Call(TestQuery("Little Timmy", None), Some(TestPayload(Sleep, duration)), renderFloat).error.error
            == "NoSleepForYou"
  {
  }
}
