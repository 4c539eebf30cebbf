/** The hello-world example's query, payload and result types. */
module HelloModels {
  import opened Wrappers
  import opened Durations
  import opened Bytes

  /** The languages the service greets in, with their wire names. */
  datatype AcceptedLanguage = English | Italian | Chinese {
    /** `greeting`. */
    function Greeting(): string {
      match this
      case English => "Hello"
      case Italian => "Ciao"
      case Chinese => "你好"
    }

    /** The serde rename of each variant. */
    function WireName(): string {
      match this
      case English => "en"
      case Italian => "es"
      case Chinese => "zh"
    }
  }

  /** The derived `Deserialize` of a language from its wire name. */
  function LanguageFromWire(w: string): (l: Option<AcceptedLanguage>)
    ensures l.Some? ==> l.value.WireName() == w
    ensures w in {"en", "es", "zh"} <==> l.Some?
  {
    if w == "en" then Some(English)
    else if w == "es" then Some(Italian)
    else if w == "zh" then Some(Chinese)
    else None
  }

  /** `AcceptedLanguage::default`. */
  const DefaultLanguage := English

  /** Every language reads back from its wire name, so the wire names are
      distinct. */
  lemma WireNameRoundTrip(l: AcceptedLanguage)
    ensures LanguageFromWire(l.WireName()) == Some(l)
  {
  }

  datatype HelloQuery = HelloQuery(language: AcceptedLanguage, timeout: Option<Duration>, isAsync: bool)

  /** Reading the query: the `async` field defaults to false when absent. */
  function QueryFromFields(language: AcceptedLanguage, timeout: Option<Duration>, asyncField: Option<bool>)
    : (q: HelloQuery)
    ensures q.language == language && q.timeout == timeout
    ensures q.isAsync <==> asyncField == Some(true)
  {
    HelloQuery(language, timeout, asyncField.GetOr(false))
  }

  /** `HelloQuery::get_timeout`. */
  function GetTimeout(q: HelloQuery): (t: Option<Duration>)
    ensures t == q.timeout
  {
    q.timeout
  }

  /** `HelloQuery::is_async`. */
  function IsAsync(q: HelloQuery): (b: bool)
    ensures b == q.isAsync
  {
    q.isAsync
  }

  datatype HelloPayload = HelloPayload(name: string, age: Byte)

  datatype HelloResult = HelloResult(greeting: string, answerId: nat)
}
