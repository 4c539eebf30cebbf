/** `IntoCoffeeShopError`: the conversion of the web framework's extractor
    rejections into shop errors. A rejection is known by its variant and its
    `body_text`; `debug` is the `Debug` rendering of that text. */
module IntoShopError {
  import opened ShopError

  datatype QueryRejection =
    | FailedToDeserializeQueryString(bodyText: string)
    | OtherQueryRejection(bodyDebug: string)

  datatype JsonRejection =
    | BytesRejection(bodyText: string)
    | JsonDataError(bodyText: string)
    | JsonSyntaxError(bodyText: string)
    | MissingJsonContentType(bodyText: string)
    | OtherJsonRejection(bodyDebug: string)

  /** `http::header::CONTENT_TYPE` as `HeaderName::as_str` gives it. */
  const ContentType := "content-type"

  /** A shop error converts to itself. */
  function FromShopError(e: CoffeeShopError): (r: CoffeeShopError)
    ensures r == e
  {
    e
  }

  function FromQueryRejection(q: QueryRejection): (r: CoffeeShopError)
    ensures r.InvalidQueryOptions?
    ensures q.FailedToDeserializeQueryString? ==> r.text == q.bodyText
    ensures q.OtherQueryRejection? ==> r.text == "Unknown query rejection: " + q.bodyDebug
  {
    match q
    case FailedToDeserializeQueryString(t) => InvalidQueryOptions(t)
    case OtherQueryRejection(d) => InvalidQueryOptions("Unknown query rejection: " + d)
  }

  function FromJsonRejection(j: JsonRejection): (r: CoffeeShopError)
    ensures j.BytesRejection? <==> r.InvalidPayload? && r.kind == "BytesRejection"
    ensures j.JsonDataError? <==> r.InvalidPayload? && r.kind == "JsonDataError"
    ensures j.JsonSyntaxError? <==> r.MalformedJsonPayload?
    ensures j.MissingJsonContentType? <==> r.InvalidHeader?
    ensures j.OtherJsonRejection? <==> r.InvalidPayload? && r.kind == "UnknownJsonRejection"
    ensures r.InvalidHeader? ==> r.key == ContentType
  {
    match j
    case BytesRejection(t) => InvalidPayload("BytesRejection", "Failed to buffer body: " + t)
    case JsonDataError(t) => InvalidPayload("JsonDataError", t)
    case JsonSyntaxError(t) => MalformedJsonPayload("Invalid JSON syntax: " + t)
    case MissingJsonContentType(t) =>
      InvalidHeader(ContentType, "This endpoint only accepts JSON payload; " + t + ". Please check your headers.")
    case OtherJsonRejection(d) => InvalidPayload("UnknownJsonRejection", "Unknown JSON rejection: " + d)
  }

  /** Every query rejection is answered with 400 Bad Request. */
  lemma QueryRejectionStatus(q: QueryRejection)
    ensures FromQueryRejection(q).StatusCode() == 400
  {
  }

  /** The status a JSON rejection is answered with: 406 for a missing
      content type, 400 for bad syntax, 422 for everything else. */
  lemma JsonRejectionStatus(j: JsonRejection)
    ensures FromJsonRejection(j).StatusCode() ==
      (if j.MissingJsonContentType? then 406 else if j.JsonSyntaxError? then 400 else 422)
  {
  }
}
