/** Reading a process result back from a DynamoDB item (`ToProcessResult`
    on the item map). The payload deserialiser and the JSON parser are
    parameters. */
module ItemToResult {
  import opened Wrappers
  import opened Bytes
  import opened Text
  import opened JsonValue
  import opened ErrorSchemas
  import opened ShopError
  import opened DynamoKeys
  import opened ResultToItem

  const MalformedItemText: string := "A map was retrieved, but its structure could not be parsed."

  const UnparsableErrorText: string :=
    "A processing error had occurred, but the error message cannot be parsed; could not report the actual error."

  /** `to_process_status`: the ticket and the success flag, both of which
      must be present with the right types. */
  function ToProcessStatus(item: Item, partitionKey: string): (r: Result<(Ticket, bool), CoffeeShopError>)
    ensures r.Ok? <==> partitionKey in item && item[partitionKey].S? && SuccessKey in item && item[SuccessKey].Bool?
    ensures r.Ok? ==> r.value == (item[partitionKey].s, item[SuccessKey].b)
    ensures r.Err? ==> r.error == AWSDynamoDBMalformedItem(MalformedItemText)
  {
    match (Get(item, partitionKey), Get(item, SuccessKey))
    case (Some(S(ticket)), Some(Bool(success))) => Ok((ticket, success))
    case _ => Err(AWSDynamoDBMalformedItem(MalformedItemText))
  }

  /** The schema read from a stored error text, or the fallback schema that
      keeps the text when it does not parse as one. */
  function ParseErrorSchema(errorJson: string, parseJson: string -> Option<Json>): (s: ErrorSchema)
    ensures parseJson(errorJson).Some? && FromJson(parseJson(errorJson).value).Some? ==>
              s == FromJson(parseJson(errorJson).value).value
    ensures parseJson(errorJson).None? || FromJson(parseJson(errorJson).value).None? ==>
              s == Schema(500, "UnknownProcessingError",
                          Some(Obj2("message", JStr(UnparsableErrorText), "original", JStr(errorJson))))
  {
    var parsed := match parseJson(errorJson)
                  case Some(j) => FromJson(j)
                  case None => None;
    match parsed
    case Some(schema) => schema
    case None =>
      Schema(500, "UnknownProcessingError",
             Some(Obj2("message", JStr(UnparsableErrorText), "original", JStr(errorJson))))
  }

  /** `to_process_result`: takes out the partition key, `success`,
      `status_code`, `output` and `error`, in that order (a key taken out
      once reads as absent afterwards), and accepts exactly the success
      shape and the failure shape; every other key is ignored. */
  function ToProcessResult<O>(item: Item, partitionKey: string,
                              deserialize: seq<Byte> -> Result<O, CoffeeShopError>,
                              parseJson: string -> Option<Json>)
    : (r: Result<(Ticket, Result<O, ErrorSchema>), CoffeeShopError>)
  {
    var ticket := Get(item, partitionKey);
    var rest1 := item - {partitionKey};
    var success := Get(rest1, SuccessKey);
    var rest2 := rest1 - {SuccessKey};
    var status := Get(rest2, StatusKey);
    var rest3 := rest2 - {StatusKey};
    var output := Get(rest3, OutputKey);
    var rest4 := rest3 - {OutputKey};
    var error := Get(rest4, ErrorKey);
    match (ticket, success, status, output, error)
    case (Some(S(t)), Some(Bool(true)), Some(N(_)), Some(B(blob)), None) =>
      (match deserialize(blob)
       case Ok(o) => Ok((t, Ok(o)))
       case Err(e) => Err(e))
    case (Some(S(t)), Some(Bool(false)), Some(N(_)), None, Some(S(errorJson))) =>
      Ok((t, Err(ParseErrorSchema(errorJson, parseJson))))
    case _ => Err(AWSDynamoDBMalformedItem(MalformedItemText))
  }

  /** The success shape: a string ticket, `success` true, a numeric
      `status_code`, a binary `output` and no `error`. */
  predicate SuccessShape(item: Item, partitionKey: string) {
    partitionKey in item && item[partitionKey].S?
    && SuccessKey in item && item[SuccessKey] == Bool(true)
    && StatusKey in item && item[StatusKey].N?
    && OutputKey in item && item[OutputKey].B? && ErrorKey !in item
  }

  /** The failure shape: a string ticket, `success` false, a numeric
      `status_code`, no `output` and a string `error`. */
  predicate FailureShape(item: Item, partitionKey: string) {
    partitionKey in item && item[partitionKey].S?
    && SuccessKey in item && item[SuccessKey] == Bool(false)
    && StatusKey in item && item[StatusKey].N?
    && OutputKey !in item && ErrorKey in item && item[ErrorKey].S?
  }

  /** With a partition key that is none of the result keys, the item shapes
      `to_process_result` accepts, read directly off the item: the success
      shape gives the deserialiser's verdict, the failure shape gives the
      parsed schema, and every other combination of the five keys is
      `AWSDynamoDBMalformedItem`. */
  lemma {:induction false} ToProcessResultShapes<O>(item: Item, partitionKey: string,
                                                    deserialize: seq<Byte> -> Result<O, CoffeeShopError>,
                                                    parseJson: string -> Option<Json>)
    requires !Reserved(partitionKey)
    ensures ToProcessResult(item, partitionKey, deserialize, parseJson).Ok? ==>
              partitionKey in item && item[partitionKey].S? && SuccessKey in item && item[SuccessKey].Bool?
              && StatusKey in item && item[StatusKey].N?
              && ToProcessResult(item, partitionKey, deserialize, parseJson).value.0 == item[partitionKey].s
    ensures ToProcessResult(item, partitionKey, deserialize, parseJson).Ok? ==>
              (ToProcessResult(item, partitionKey, deserialize, parseJson).value.1.Ok?
               <==> item[SuccessKey] == Bool(true))
    ensures partitionKey !in item || !item[partitionKey].S? || StatusKey !in item || !item[StatusKey].N? ==>
              ToProcessResult(item, partitionKey, deserialize, parseJson) == Err(AWSDynamoDBMalformedItem(MalformedItemText))
    ensures OutputKey in item && ErrorKey in item ==>
              ToProcessResult(item, partitionKey, deserialize, parseJson) == Err(AWSDynamoDBMalformedItem(MalformedItemText))
    ensures SuccessShape(item, partitionKey) ==>
              ToProcessResult(item, partitionKey, deserialize, parseJson)
              == (match deserialize(item[OutputKey].blob)
                  case Ok(o) => Ok((item[partitionKey].s, Ok(o)))
                  case Err(e) => Err(e))
    ensures FailureShape(item, partitionKey) ==>
              ToProcessResult(item, partitionKey, deserialize, parseJson)
              == Ok((item[partitionKey].s, Err(ParseErrorSchema(item[ErrorKey].s, parseJson))))
    ensures !SuccessShape(item, partitionKey) && !FailureShape(item, partitionKey) ==>
              ToProcessResult(item, partitionKey, deserialize, parseJson) == Err(AWSDynamoDBMalformedItem(MalformedItemText))
  {
    assert Get(item - {partitionKey}, SuccessKey) == Get(item, SuccessKey);
    assert Get(item - {partitionKey} - {SuccessKey}, StatusKey) == Get(item, StatusKey);
    assert Get(item - {partitionKey} - {SuccessKey} - {StatusKey}, OutputKey) == Get(item, OutputKey);
    assert Get(item - {partitionKey} - {SuccessKey} - {StatusKey} - {OutputKey}, ErrorKey) == Get(item, ErrorKey);
  }

  /** An item in the success shape reads back as its ticket and payload. */
  lemma DecodeSuccessItem<O>(item: Item, partitionKey: string, ticket: Ticket, blob: seq<Byte>,
                             deserialize: seq<Byte> -> Result<O, CoffeeShopError>,
                             parseJson: string -> Option<Json>)
    requires !Reserved(partitionKey)
    requires partitionKey in item && item[partitionKey] == S(ticket)
    requires SuccessKey in item && item[SuccessKey] == Bool(true)
    requires StatusKey in item && item[StatusKey].N?
    requires OutputKey in item && item[OutputKey] == B(blob) && ErrorKey !in item
    ensures ToProcessResult(item, partitionKey, deserialize, parseJson)
            == (match deserialize(blob) case Ok(o) => Ok((ticket, Ok(o))) case Err(e) => Err(e))
  {
    ToProcessResultShapes(item, partitionKey, deserialize, parseJson);
    assert Get(item - {partitionKey} - {SuccessKey} - {StatusKey} - {OutputKey}, ErrorKey) == None;
  }

  /** An item in the failure shape reads back as its ticket and the schema
      parsed from its error text. */
  lemma DecodeFailureItem<O>(item: Item, partitionKey: string, ticket: Ticket, errorJson: string,
                             deserialize: seq<Byte> -> Result<O, CoffeeShopError>,
                             parseJson: string -> Option<Json>)
    requires !Reserved(partitionKey)
    requires partitionKey in item && item[partitionKey] == S(ticket)
    requires SuccessKey in item && item[SuccessKey] == Bool(false)
    requires StatusKey in item && item[StatusKey].N?
    requires OutputKey !in item && ErrorKey in item && item[ErrorKey] == S(errorJson)
    ensures ToProcessResult(item, partitionKey, deserialize, parseJson)
            == Ok((ticket, Err(ParseErrorSchema(errorJson, parseJson))))
  {
    ToProcessResultShapes(item, partitionKey, deserialize, parseJson);
    assert Get(item - {partitionKey} - {SuccessKey} - {StatusKey}, OutputKey) == None;
  }

  /** A success item written by `report_ticket_success` reads back as the
      ticket and the output, when the deserialiser inverts the
      serialiser. */
  lemma SuccessRoundTrip<O>(builder: Item, partitionKey: string, ticket: Ticket, output: O, ttl: nat, now: int,
                            serialize: O -> Result<seq<Byte>, CoffeeShopError>,
                            deserialize: seq<Byte> -> Result<O, CoffeeShopError>,
                            parseJson: string -> Option<Json>)
    requires now <= MaxUtcNanos && !Reserved(partitionKey) && ErrorKey !in builder
    requires serialize(output).Ok? && deserialize(serialize(output).value) == Ok(output)
    ensures ReportTicketSuccess(builder, partitionKey, ticket, output, ttl, now, serialize).Ok?
    ensures ToProcessResult(ReportTicketSuccess(builder, partitionKey, ticket, output, ttl, now, serialize).value,
                            partitionKey, deserialize, parseJson)
            == Ok((ticket, Ok(output)))
    ensures ToProcessStatus(ReportTicketSuccess(builder, partitionKey, ticket, output, ttl, now, serialize).value,
                            partitionKey)
            == Ok((ticket, true))
  {
    var item := ReportTicketSuccess(builder, partitionKey, ticket, output, ttl, now, serialize).value;
    DecodeSuccessItem(item, partitionKey, ticket, serialize(output).value, deserialize, parseJson);
  }

  /** A failure item carrying the rendered JSON form of a schema reads back
      as that schema, up to `Normalize`. */
  lemma FailureItemRoundTrip<O>(common: Item, partitionKey: string, ticket: Ticket, status: string,
                                schema: ErrorSchema, renderJson: Json -> string,
                                deserialize: seq<Byte> -> Result<O, CoffeeShopError>,
                                parseJson: string -> Option<Json>)
    requires !Reserved(partitionKey) && OutputKey !in common
    requires partitionKey in common && common[partitionKey] == S(ticket)
    requires parseJson(renderJson(ToJson(schema))) == Some(ToJson(schema))
    ensures ToProcessResult(WithResult(common, status, false, ErrorKey, S(renderJson(ToJson(schema)))),
                            partitionKey, deserialize, parseJson)
            == Ok((ticket, Err(Normalize(schema))))
  {
    var text := renderJson(ToJson(schema));
    DecodeFailureItem(WithResult(common, status, false, ErrorKey, S(text)), partitionKey, ticket, text,
                      deserialize, parseJson);
    JsonRoundTrip(schema);
  }

  /** A failure item written by `report_ticket_failure` reads back as the
      ticket and the error's schema, up to `Normalize`, when the JSON parser
      inverts the renderer. */
  lemma FailureRoundTrip<O>(builder: Item, partitionKey: string, ticket: Ticket, error: CoffeeShopError, ttl: nat,
                            now: int, renderJson: Json -> string,
                            deserialize: seq<Byte> -> Result<O, CoffeeShopError>,
                            parseJson: string -> Option<Json>)
    requires now <= MaxUtcNanos && !Reserved(partitionKey) && OutputKey !in builder
    requires parseJson(renderJson(error.AsJson())) == Some(error.AsJson())
    ensures ToProcessResult(ReportTicketFailure(builder, partitionKey, ticket, error, ttl, now, renderJson).value,
                            partitionKey, deserialize, parseJson)
            == Ok((ticket, Err(Normalize(error.AsErrorSchema()))))
    ensures ToProcessStatus(ReportTicketFailure(builder, partitionKey, ticket, error, ttl, now, renderJson).value,
                            partitionKey)
            == Ok((ticket, false))
  {
    ReportedFailureReadsBack(builder, partitionKey, ticket, ttl, now, NatToString(error.StatusCode()),
                             renderJson(error.AsJson()), error.AsJson(), Normalize(error.AsErrorSchema()),
                             deserialize, parseJson);
  }

  /** An item written by the failure encoder, whatever its status text,
      whose error text parses to JSON that reads as a schema gives back its
      ticket and that schema. */
  lemma ReportedFailureReadsBack<O>(builder: Item, partitionKey: string, ticket: Ticket, ttl: nat, now: int,
                                    status: string, text: string, json: Json, schema: ErrorSchema,
                                    deserialize: seq<Byte> -> Result<O, CoffeeShopError>,
                                    parseJson: string -> Option<Json>)
    requires now <= MaxUtcNanos && !Reserved(partitionKey) && OutputKey !in builder
    requires parseJson(text) == Some(json) && FromJson(json) == Some(schema)
    ensures var item := WithResult(AddCommonItems(builder, partitionKey, ticket, ttl, now), status, false,
                                   ErrorKey, S(text));
            && ToProcessResult(item, partitionKey, deserialize, parseJson) == Ok((ticket, Err(schema)))
            && ToProcessStatus(item, partitionKey) == Ok((ticket, false))
  {
    var item := WithResult(AddCommonItems(builder, partitionKey, ticket, ttl, now), status, false, ErrorKey, S(text));
    ResultFields(builder, partitionKey, ticket, ttl, now, status, false, ErrorKey, S(text));
    assert FailureShape(item, partitionKey);
    ToProcessResultShapes(item, partitionKey, deserialize, parseJson);
  }

  /** Reading back what `report_ticket_result` wrote gives the ticket and
      the result, errors replaced by their schema. */
  lemma ResultRoundTrip<O>(builder: Item, partitionKey: string, ticket: Ticket, result: Result<O, CoffeeShopError>,
                           ttl: nat, now: int,
                           serialize: O -> Result<seq<Byte>, CoffeeShopError>, renderJson: Json -> string,
                           deserialize: seq<Byte> -> Result<O, CoffeeShopError>,
                           parseJson: string -> Option<Json>)
    requires now <= MaxUtcNanos && !Reserved(partitionKey) && OutputKey !in builder && ErrorKey !in builder
    requires result.Ok? ==> serialize(result.value).Ok? && deserialize(serialize(result.value).value) == Ok(result.value)
    requires result.Err? ==> parseJson(renderJson(result.error.AsJson())) == Some(result.error.AsJson())
    ensures ReportTicketResult(builder, partitionKey, ticket, result, ttl, now, serialize, renderJson).Ok?
    ensures ToProcessResult(ReportTicketResult(builder, partitionKey, ticket, result, ttl, now, serialize, renderJson).value,
                            partitionKey, deserialize, parseJson)
            == Ok((ticket, if result.Ok? then Ok(result.value) else Err(Normalize(result.error.AsErrorSchema()))))
  {
    if result.Ok? {
      SuccessRoundTrip(builder, partitionKey, ticket, result.value, ttl, now, serialize, deserialize, parseJson);
    } else {
      FailureRoundTrip(builder, partitionKey, ticket, result.error, ttl, now, renderJson, deserialize, parseJson);
    }
  }

  /** A stored error text that does not parse is kept, under a 500
      `UnknownProcessingError` schema. */
  lemma UnparsableErrorFallsBack(errorJson: string, parseJson: string -> Option<Json>)
    requires parseJson(errorJson).None?
    ensures ParseErrorSchema(errorJson, parseJson).statusCode == 500
    ensures ParseErrorSchema(errorJson, parseJson).error == "UnknownProcessingError"
    ensures ParseErrorSchema(errorJson, parseJson).details.value.fields["original"] == JStr(errorJson)
  {
  }
}
