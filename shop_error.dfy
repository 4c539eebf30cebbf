/** `CoffeeShopError`: every error the shop raises, its HTTP status code
    (numbered as in section 15 of RFC 9110), its kind, its message, and its
    exported `ErrorSchema`. Payloads of foreign types whose text the shop only
    copies (URIs, SDK errors, `io::Error`, paths) are carried as their
    rendered text. */
module ShopError {
  import opened Wrappers
  import opened Text
  import opened JsonValue
  import opened Net
  import opened Durations
  import opened Bytes
  import opened ErrorSchemas
  import Base64

  type Ticket = string

  /** `std::io::ErrorKind`, told apart only where the shop does. */
  datatype IoErrorKind = AlreadyExists | OtherIoKind(description: string) {
    /** `Display` of the kind. */
    function Text(): string {
      match this
      case AlreadyExists => "entity already exists"
      case OtherIoKind(d) => d
    }
  }

  /** An `std::io::Error`: its kind and its rendered message. */
  datatype IoError = IoError(kind: IoErrorKind, message: string)

  datatype CoffeeShopError =
    | InvalidConfiguration(field: string, message: string)
    | InvalidMulticastAddress(ip: Ipv4)
    | InvalidMulticastMessage(data: seq<Byte>, addr: string, decodeError: string)
    | InvalidHeader(key: string, message: string)
    | InvalidRoute(uri: string)
    | InvalidQueryOptions(text: string)
    | MalformedJsonPayload(text: string)
    | InvalidPayload(kind: string, message: string)
    | HTTPServerError(ioKind: IoErrorKind, io: IoError)
    | ListenerCreationFailure(reason: string, socket: SocketAddr)
    | ResultBinaryConversionError(cause: string)
    | ResultBinaryCompressionError(cause: string)
    | TempDirCreationFailure(text: string)
    | TempFileAccessFailure(path: string, reason: string)
    | NonUniqueTemporaryFile
    | Base64DecodingError(base64Error: Base64.DecodeError)
    | Base64EncodingOversize(size: nat)
    | IOError(ioKind: IoErrorKind, io: IoError)
    | MulticastIOError(ioKind: IoErrorKind, io: IoError)
    | RetrieveTimeout(timeout: Duration)
    | AWSCredentialsError(text: string)
    | AWSConfigIncomplete(text: string)
    | AWSDynamoDBTableDoesNotExist(text: string)
    | AWSDynamoDBMalformedItem(text: string)
    | AWSDynamoDBRateLimitExceeded
    | AWSQueueDoesNotExist(text: string)
    | AWSSQSInvalidMessage(text: string)
    | AWSSQSQueueEmpty(timeout: Duration)
    | AWSSQSSendMessageError(sdkDebug: string)
    | AWSSQSReceiveMessageError(sdkDebug: string)
    | AWSSQSStagedReceiptAlreadyCompleted(action: string)
    | UnexpectedAWSResponse(text: string)
    | AWSSdkError(text: string)
    | ProcessingError(schema: ErrorSchema)
    | ResultAlreadySet
    | ResultNotFound(ticket: Ticket)
    | TicketNotFound(ticket: Ticket)
    | ErrorSchema(schema: ErrorSchema)
  {
    /** The variants whose exported schema is the one they carry. */
    predicate CarriesSchema() { ProcessingError? || ErrorSchema? }

    /** `status_code`. */
    function StatusCode(): StatusCode {
      match this
      case AWSConfigIncomplete(_) => 401
      case AWSQueueDoesNotExist(_) => 502
      case InvalidConfiguration(_, _) => 500
      case InvalidHeader(_, _) => 406
      case InvalidMulticastAddress(_) => 400
      case InvalidMulticastMessage(_, _, _) => 400
      case InvalidRoute(_) => 404
      case InvalidQueryOptions(_) => 400
      case InvalidPayload(_, _) => 422
      case MalformedJsonPayload(_) => 400
      case RetrieveTimeout(_) => 408
      case Base64EncodingOversize(_) => 413
      case ProcessingError(s) => s.statusCode
      case ErrorSchema(s) => s.statusCode
      case AWSDynamoDBMalformedItem(_) => 502
      case _ => 500
    }

    /** `kind`: the variant's name. */
    function Kind(): (k: string)
      ensures k == "ErrorSchema" <==> ErrorSchema?
    {
      match this
      case InvalidConfiguration(_, _) => "InvalidConfiguration"
      case InvalidMulticastAddress(_) => "InvalidMulticastAddress"
      case InvalidMulticastMessage(_, _, _) => "InvalidMulticastMessage"
      case InvalidHeader(_, _) => "InvalidHeader"
      case InvalidRoute(_) => "InvalidRoute"
      case InvalidQueryOptions(_) => "InvalidQueryOptions"
      case MalformedJsonPayload(_) => "MalformedJsonPayload"
      case InvalidPayload(_, _) => "InvalidPayload"
      case HTTPServerError(_, _) => "HTTPServerError"
      case ListenerCreationFailure(_, _) => "ListenerCreationFailure"
      case ResultBinaryConversionError(_) => "ResultBinaryConversionError"
      case ResultBinaryCompressionError(_) => "ResultBinaryCompressionError"
      case TempDirCreationFailure(_) => "TempDirCreationFailure"
      case TempFileAccessFailure(_, _) => "TempFileAccessFailure"
      case NonUniqueTemporaryFile => "NonUniqueTemporaryFile"
      case Base64DecodingError(_) => "Base64DecodingError"
      case Base64EncodingOversize(_) => "Base64EncodingOversize"
      case IOError(_, _) => "IOError"
      case MulticastIOError(_, _) => "MulticastIOError"
      case RetrieveTimeout(_) => "RetrieveTimeout"
      case AWSCredentialsError(_) => "AWSCredentialsError"
      case AWSConfigIncomplete(_) => "AWSConfigIncomplete"
      case AWSDynamoDBTableDoesNotExist(_) => "AWSDynamoDBTableDoesNotExist"
      case AWSDynamoDBMalformedItem(_) => "AWSDynamoDBMalformedItem"
      case AWSDynamoDBRateLimitExceeded => "AWSDynamoDBRateLimitExceeded"
      case AWSQueueDoesNotExist(_) => "AWSQueueDoesNotExist"
      case AWSSQSInvalidMessage(_) => "AWSSQSInvalidMessage"
      case AWSSQSQueueEmpty(_) => "AWSSQSQueueEmpty"
      case AWSSQSSendMessageError(_) => "AWSSQSSendMessageError"
      case AWSSQSReceiveMessageError(_) => "AWSSQSReceiveMessageError"
      case AWSSQSStagedReceiptAlreadyCompleted(_) => "AWSSQSStagedReceiptAlreadyCompleted"
      case UnexpectedAWSResponse(_) => "UnexpectedAWSResponse"
      case AWSSdkError(_) => "AWSSdkError"
      case ProcessingError(_) => "ProcessingError"
      case ResultAlreadySet => "ResultAlreadySet"
      case ResultNotFound(_) => "ResultNotFound"
      case TicketNotFound(_) => "TicketNotFound"
      case ErrorSchema(_) => "ErrorSchema"
    }

    /** `Display`, for the variants whose message does not go through the
        carried schema's own `Display`. */
    function Message(): string
      requires !CarriesSchema()
    {
      match this
      case InvalidConfiguration(field, message) =>
        "Invalid configuration for " + field + ": " + message
      case InvalidMulticastAddress(ip) =>
        Ipv4Text(ip) + " is not a valid multicast address."
      case InvalidMulticastMessage(_, addr, _) =>
        "Received an invalid MulticastMessage from " + addr + "."
      case InvalidHeader(key, message) =>
        "Header " + key + " is not acceptable: " + message
      case InvalidRoute(uri) =>
        "Endpoint " + uri + " is not found on this server. Please consult the API documentation."
      case InvalidQueryOptions(t) => "Invalid URL query options: " + t
      case MalformedJsonPayload(t) => "Malformed JSON payload; could not be parsed: " + t
      case InvalidPayload(kind, message) =>
        "Failed to parse the payload due to " + kind + ": " + message
      case HTTPServerError(kind, _) => "HTTP Host failed: " + kind.Text()
      case ListenerCreationFailure(reason, socket) =>
        "Failed to bind listener to socket address " + SocketAddrText(socket) + ": " + reason
      case ResultBinaryConversionError(cause) => "Could not serialize the payload: " + cause
      case ResultBinaryCompressionError(cause) => "Could not compress/decompress the payload: " + cause
      case TempDirCreationFailure(t) => "Temporary directory could not be created: " + t
      case TempFileAccessFailure(path, reason) =>
        "Temporary file access failure at " + path + ": " + reason
      case NonUniqueTemporaryFile =>
        "The path for a temporary file is non-uniquely generated; this is improbable unless cleanup is not working. Please verify."
      case Base64DecodingError(e) => "Failed to decode from Base64: " + Base64DecodeErrorText(e)
      case Base64EncodingOversize(size) =>
        "The requested payload is " + NatToString(size)
        + " bytes in size, exceeding the limit; try chunking the payload and retry the request."
      case IOError(kind, io) => "An IOError::" + kind.Text() + " had occurred: " + io.message
      case MulticastIOError(kind, io) =>
        "An IOError::" + kind.Text() + " had occurred during multicast operations: " + io.message
      case RetrieveTimeout(d) => "Timed out awaiting results after " + DurationDebug(d) + " seconds"
      case AWSCredentialsError(t) => "An error relating to AWS IAM credentials occurred: " + t
      case AWSConfigIncomplete(t) => "AWS Configuration incomplete: " + t
      case AWSDynamoDBTableDoesNotExist(t) =>
        "The specified AWS DynamoDB Table does not exists. Please verify the table: " + t
      case AWSDynamoDBMalformedItem(t) => "DynamoDB item is found malformed: " + t
      case AWSDynamoDBRateLimitExceeded => "AWS DynamoDB Provisioned Throughput Exceeded."
      case AWSQueueDoesNotExist(t) =>
        "The specified AWS SQS queue URL does not exists. Please verify the URL: " + t
      case AWSSQSInvalidMessage(t) =>
        "AWS SQS Rejected the message: " + t + "; please verify the payload and try again."
      case AWSSQSQueueEmpty(d) => "AWS SQS Queue is empty after waiting for " + DurationDebug(d) + "."
      case AWSSQSSendMessageError(t) => "Unexpected AWS SQS Send Message Error: " + t
      case AWSSQSReceiveMessageError(t) => "Unexpected AWS SQS Receive Message Error: " + t
      case AWSSQSStagedReceiptAlreadyCompleted(action) =>
        "Message from AWS SQS had already been completed, and cannot be " + action + " again."
      case UnexpectedAWSResponse(t) => "AWS responded with unexpected data: " + t
      case AWSSdkError(t) => "AWS SDK Error: " + t
      case ResultAlreadySet => "Result is already set, cannot set again."
      case ResultNotFound(t) =>
        "The ticket " + t + " does not have a result. It could have been purged, or the ticket is invalid."
      case TicketNotFound(t) => "The ticket " + t + " was not found."
    }

    /** `as_error_schema`. */
    function AsErrorSchema(): (s: ErrorSchema)
      ensures CarriesSchema() ==> s == schema
      ensures !CarriesSchema() ==> s.statusCode == StatusCode() && s.error == Kind()
      ensures !CarriesSchema() && !InvalidHeader? ==> s.details == Some(Obj1("message", JStr(Message())))
      ensures InvalidHeader? ==>
                s.details == Some(Obj2("message", JStr("Unacceptable headers provided; please check the following headers."),
                                       "headers", Obj1(key, JStr(message))))
    {
      if CarriesSchema() then schema
      else if InvalidHeader? then
        Schema(StatusCode(), Kind(), Some(Obj2(
          "message", JStr("Unacceptable headers provided; please check the following headers."),
          "headers", Obj1(key, JStr(message)))))
      else Schema(StatusCode(), Kind(), Some(Obj1("message", JStr(Message()))))
    }

    /** `as_json`: the exported schema serialised, so that it reads back as
        that schema (a `null` details field reads back as absent). */
    function AsJson(): (j: Json)
      ensures FromJson(j) == Some(Normalize(AsErrorSchema()))
      ensures !CarriesSchema() ==> FromJson(j) == Some(AsErrorSchema())
    {
      var s := AsErrorSchema();
      JsonRoundTrip(s);
      ErrorSchemas.ToJson(s)
    }
  }

  /** `Display` of the `base64` crate's `DecodeError` (as in its 0.22 line). */
  function Base64DecodeErrorText(e: Base64.DecodeError): string {
    match e
    case InvalidByte(offset, c) =>
      "Invalid symbol " + NatToString(c as nat) + ", offset " + NatToString(offset) + "."
    case InvalidLength(n) => "Invalid input length: " + NatToString(n)
    case InvalidLastSymbol(offset, c) =>
      "Invalid last symbol " + NatToString(c as nat) + ", offset " + NatToString(offset) + "."
    case InvalidPadding => "Invalid padding"
  }

  /** The message names the kind of decoding failure: the four variants
      render differently whatever their offsets and symbols. */
  lemma Base64DecodeErrorTextsDiffer(a: Base64.DecodeError, b: Base64.DecodeError)
    requires a.InvalidByte? != b.InvalidByte? || a.InvalidLength? != b.InvalidLength?
             || a.InvalidLastSymbol? != b.InvalidLastSymbol? || a.InvalidPadding? != b.InvalidPadding?
    ensures Base64DecodeErrorText(a) != Base64DecodeErrorText(b)
  {
    KindLetter(a);
    KindLetter(b);
  }

  /** The letter after `Invalid ` tells the variants apart. */
  lemma KindLetter(e: Base64.DecodeError)
    ensures |Base64DecodeErrorText(e)| > 8
    ensures Base64DecodeErrorText(e)[8] == (match e
                                          case InvalidByte(_, _) => 's'
                                          case InvalidLength(_) => 'i'
                                          case InvalidLastSymbol(_, _) => 'l'
                                          case InvalidPadding => 'p')
  {
  }

  /** `PartialEq`: equal kinds, or either side an `ErrorSchema`, and equal JSON. */
  predicate Eq(a: CoffeeShopError, b: CoffeeShopError) {
    (a.Kind() == b.Kind() || a.Kind() == "ErrorSchema" || b.Kind() == "ErrorSchema")
    && a.AsJson() == b.AsJson()
  }

  /** `from_io_error`. */
  function FromIoError(e: IoError): (r: CoffeeShopError)
    ensures e.kind == AlreadyExists <==> r == NonUniqueTemporaryFile
    ensures e.kind != AlreadyExists ==> r == IOError(e.kind, e)
  {
    if e.kind == AlreadyExists then NonUniqueTemporaryFile else IOError(e.kind, e)
  }

  /** `from_multicast_io_error`. */
  function FromMulticastIoError(e: IoError): (r: CoffeeShopError)
    ensures r.MulticastIOError? && r.ioKind == e.kind && r.io == e
  {
    MulticastIOError(e.kind, e)
  }

  /** `from_server_io_error`. */
  function FromServerIoError(e: IoError): (r: CoffeeShopError)
    ensures r.HTTPServerError? && r.ioKind == e.kind && r.io == e
  {
    HTTPServerError(e.kind, e)
  }

  const DefaultErrorMessage := "(No details provided)"

  /** The receive-message errors the SDK reports, with the optional messages
      the shop reads; every other error is known by its `Debug` text. */
  datatype ReceiveMessageError =
    | ReceiveQueueDoesNotExist
    | ReceiveInvalidAddress(message: Option<string>)
    | ReceiveKmsAccessDenied(message: Option<string>)
    | ReceiveOther(debug: string)

  datatype SendMessageError =
    | SendQueueDoesNotExist
    | SendInvalidMessageContents(message: Option<string>)
    | SendInvalidAddress(message: Option<string>)
    | SendKmsAccessDenied(message: Option<string>)
    | SendOther(debug: string)

  datatype PutItemError =
    | ResourceNotFound
    | InvalidEndpoint
    | ProvisionedThroughputExceeded
    | ConditionalCheckFailed(itemDebug: string, messageDebug: string)
    | PutItemOther(debug: string)

  /** `from_aws_sqs_receive_message_error`, with the configured queue URL. */
  function FromSqsReceiveError(e: ReceiveMessageError, queueUrl: string): (r: CoffeeShopError)
    ensures e.ReceiveQueueDoesNotExist? <==> r == AWSQueueDoesNotExist(queueUrl)
    ensures e.ReceiveInvalidAddress? <==> r.InvalidConfiguration? && r.field == "sqs_queue"
    ensures e.ReceiveKmsAccessDenied? <==> r.AWSCredentialsError?
    ensures e.ReceiveOther? <==> r.AWSSQSReceiveMessageError?
    ensures (e.ReceiveInvalidAddress? || e.ReceiveKmsAccessDenied?) ==>
      r == (if e.ReceiveInvalidAddress? then InvalidConfiguration("sqs_queue", e.message.GetOr(DefaultErrorMessage))
            else AWSCredentialsError(e.message.GetOr(DefaultErrorMessage)))
  {
    match e
    case ReceiveQueueDoesNotExist => AWSQueueDoesNotExist(queueUrl)
    case ReceiveInvalidAddress(m) => InvalidConfiguration("sqs_queue", m.GetOr(DefaultErrorMessage))
    case ReceiveKmsAccessDenied(m) => AWSCredentialsError(m.GetOr(DefaultErrorMessage))
    case ReceiveOther(d) => AWSSQSReceiveMessageError(d)
  }

  /** `from_aws_sqs_send_message_error`, with the configured queue URL. */
  function FromSqsSendError(e: SendMessageError, queueUrl: string): (r: CoffeeShopError)
    ensures e.SendQueueDoesNotExist? <==> r == AWSQueueDoesNotExist(queueUrl)
    ensures e.SendInvalidMessageContents? <==> r.AWSSQSInvalidMessage?
    ensures e.SendInvalidAddress? <==> r.InvalidConfiguration? && r.field == "sqs_queue"
    ensures e.SendKmsAccessDenied? <==> r.AWSCredentialsError?
    ensures e.SendOther? <==> r.AWSSQSSendMessageError?
  {
    match e
    case SendQueueDoesNotExist => AWSQueueDoesNotExist(queueUrl)
    case SendInvalidMessageContents(m) => AWSSQSInvalidMessage(m.GetOr(DefaultErrorMessage))
    case SendInvalidAddress(m) => InvalidConfiguration("sqs_queue", m.GetOr(DefaultErrorMessage))
    case SendKmsAccessDenied(m) => AWSCredentialsError(m.GetOr(DefaultErrorMessage))
    case SendOther(d) => AWSSQSSendMessageError(d)
  }

  /** `from_aws_dynamodb_put_item_error`, with the configured table name. */
  function FromPutItemError(e: PutItemError, table: string): (r: CoffeeShopError)
    ensures e.ResourceNotFound? <==> r == AWSDynamoDBTableDoesNotExist(table)
    ensures e.InvalidEndpoint? <==> r.InvalidConfiguration? && r.field == "dynamodb_table"
    ensures e.ProvisionedThroughputExceeded? <==> r == AWSDynamoDBRateLimitExceeded
    ensures e.ConditionalCheckFailed? <==> r.AWSDynamoDBMalformedItem?
    ensures e.PutItemOther? <==> r.AWSSdkError?
  {
    match e
    case ResourceNotFound => AWSDynamoDBTableDoesNotExist(table)
    case InvalidEndpoint =>
      InvalidConfiguration("dynamodb_table", "Invalid endpoint for DynamoDB; please verify the table: " + table)
    case ProvisionedThroughputExceeded => AWSDynamoDBRateLimitExceeded
    case ConditionalCheckFailed(item, message) =>
      AWSDynamoDBMalformedItem("Conditional check failed for " + item + ": " + message)
    case PutItemOther(d) => AWSSdkError(d)
  }

  /** `from_axum_box_error`, given the box error's `to_string`. */
  function FromAxumBoxError(message: string): (r: CoffeeShopError)
    ensures r.ErrorSchema? && r.StatusCode() == 500 && r.schema.error == "BoxError"
    ensures r.schema.details == Some(Obj1("message", JStr(message)))
  {
    ErrorSchema(Schema(500, "BoxError", Some(Obj1("message", JStr(message)))))
  }

  // Properties of the classification.

  /** Every error of the shop's own reports a 4xx or 5xx code; below 500
      exactly for the errors a request or its caller can cause. */
  lemma StatusClasses(e: CoffeeShopError)
    requires !e.CarriesSchema()
    ensures 400 <= e.StatusCode() < 600
    ensures e.StatusCode() < 500 <==>
      e.AWSConfigIncomplete? || e.InvalidHeader? || e.InvalidMulticastAddress?
      || e.InvalidMulticastMessage? || e.InvalidRoute? || e.InvalidQueryOptions?
      || e.InvalidPayload? || e.MalformedJsonPayload? || e.RetrieveTimeout?
      || e.Base64EncodingOversize?
  {
  }

  /** The exported schema reports the error's own status code. */
  lemma SchemaStatus(e: CoffeeShopError)
    ensures e.AsErrorSchema().statusCode == e.StatusCode()
  {
  }

  /** `Eq` is reflexive and symmetric. */
  lemma EqReflexiveSymmetric(a: CoffeeShopError, b: CoffeeShopError)
    ensures Eq(a, a)
    ensures Eq(a, b) <==> Eq(b, a)
  {
  }

  /** An error equals its own exported schema re-raised as `ErrorSchema`,
      which is what makes a stored and retrieved error compare equal. */
  lemma EqualToOwnSchema(e: CoffeeShopError)
    ensures Eq(e, ErrorSchema(e.AsErrorSchema()))
  {
    var b := ErrorSchema(e.AsErrorSchema());
    assert b.Kind() == "ErrorSchema";
    assert b.AsErrorSchema() == e.AsErrorSchema();
  }

  /** `Eq` is not transitive: a processing error and a schema-less error of
      the same JSON both equal the same `ErrorSchema` but not each other. */
  lemma EqNotTransitive()
    ensures exists a, b, c :: Eq(a, b) && Eq(b, c) && !Eq(a, c)
  {
    var c := ResultAlreadySet;
    var s := c.AsErrorSchema();
    var a := ProcessingError(s);
    var b := ErrorSchema(s);
    CarriedSchemaEq(s);
    EqualToOwnSchema(c);
    EqReflexiveSymmetric(b, c);
    KindsDiffer(s);
    assert Eq(a, b) && Eq(b, c) && !Eq(a, c);
  }

  lemma CarriedSchemaEq(s: ErrorSchema)
    ensures Eq(ProcessingError(s), ErrorSchema(s))
  {
  }

  lemma KindsDiffer(s: ErrorSchema)
    ensures ProcessingError(s).Kind() == "ProcessingError"
    ensures ResultAlreadySet.Kind() == "ResultAlreadySet"
  {
  }
}
