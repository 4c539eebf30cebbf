/** `StagedReceipt`: a message received from the SQS queue and held until
    it is either deleted from the queue or made visible again. The SQS
    client is abstracted: each SDK call is a function from the request to
    its outcome, an error being its `Debug` text. */
module StagedReceipts {
  import opened Wrappers
  import opened Bytes
  import opened Durations
  import opened ShopError
  import SqsEncoding

  /** How long a receive waits for a message when no timeout is given. */
  const DefaultWaitTime: Duration := FromSecs(20)

  const TwoTo31: int := 0x8000_0000
  const TwoTo32: int := 0x1_0000_0000

  /** Rust's `as i32` on an unsigned value: the low 32 bits read as two's
      complement. */
  function AsI32(n: nat): (r: int)
    ensures -TwoTo31 <= r < TwoTo31
    ensures (n - r) % TwoTo32 == 0
    ensures n < TwoTo31 ==> r == n
  {
    var low := n % TwoTo32;
    if low < TwoTo31 then low else low - TwoTo32
  }

  /** The decoded message body: the query and the optional input. */
  datatype CombinedInput<Q, I> = CombinedInput(query: Q, input: Option<I>)

  /** What `receive_message` is asked for. */
  datatype ReceiveRequest = ReceiveRequest(queueUrl: string, maxNumberOfMessages: int, waitTimeSeconds: int)

  /** The fields of a received SQS message that are inspected. */
  datatype SqsMessage = SqsMessage(receiptHandle: Option<string>, body: Option<string>, messageId: Option<string>)

  datatype ReceiveOutput = ReceiveOutput(messages: Option<seq<SqsMessage>>)

  /** The SDK call that completes a receipt: deletion, or a visibility
      change. */
  datatype CompletionRequest =
    | DeleteMessage(queueUrl: string, receiptHandle: string)
    | ChangeMessageVisibility(queueUrl: string, receiptHandle: string, visibilityTimeout: int)

  /** The fields `receive` fills in. */
  datatype Receipt<Q, I> = Receipt(ticket: Ticket, message: CombinedInput<Q, I>, receiptHandle: string, queueUrl: string)

  /** The request `receive` sends for the given timeout. */
  function ReceiveRequestFor(queueUrl: string, timeout: Option<Duration>): (req: ReceiveRequest)
    ensures req.queueUrl == queueUrl && req.maxNumberOfMessages == 1
    ensures timeout.None? ==> req.waitTimeSeconds == 20
    ensures timeout.Some? && AsSecs(timeout.value) < TwoTo31 ==> req.waitTimeSeconds == AsSecs(timeout.value)
  {
    ReceiveRequest(queueUrl, 1, AsI32(AsSecs(timeout.GetOr(DefaultWaitTime))))
  }

  /** The last message of the batch (`Vec::pop`), if there is one. */
  function Pop(messages: Option<seq<SqsMessage>>): (m: Option<SqsMessage>)
    ensures m.None? <==> messages.None? || messages.value == []
    ensures m.Some? ==> m.value == messages.value[|messages.value| - 1]
  {
    match messages
    case Some(batch) => if batch == [] then None else Some(batch[|batch| - 1])
    case None => None
  }

  /** The checks `receive` makes on one message, in order: receipt handle,
      body, message id, then decoding and deserialising the body. */
  function FromMessage<Q, I>(queueUrl: string, m: SqsMessage,
                             deserialize: seq<Byte> -> Result<CombinedInput<Q, I>, CoffeeShopError>)
    : (r: Result<Receipt<Q, I>, CoffeeShopError>)
    ensures m.receiptHandle.None? ==> r == Err(UnexpectedAWSResponse("Missing SQS receipt handle"))
    ensures m.receiptHandle.Some? && m.body.None? ==> r == Err(UnexpectedAWSResponse("Missing SQS message body"))
    ensures m.receiptHandle.Some? && m.body.Some? && m.messageId.None? ==>
              r == Err(UnexpectedAWSResponse("Missing SQS message ID"))
    ensures r.Ok? ==> m.receiptHandle.Some? && m.body.Some? && m.messageId.Some?
                      && SqsEncoding.Decode(m.body.value).Ok?
                      && Ok(r.value.message) == deserialize(SqsEncoding.Decode(m.body.value).value)
                      && r.value.ticket == m.messageId.value
                      && r.value.receiptHandle == m.receiptHandle.value && r.value.queueUrl == queueUrl
  {
    match m.receiptHandle
    case None => Err(UnexpectedAWSResponse("Missing SQS receipt handle"))
    case Some(handle) =>
      match m.body
      case None => Err(UnexpectedAWSResponse("Missing SQS message body"))
      case Some(body) =>
        match m.messageId
        case None => Err(UnexpectedAWSResponse("Missing SQS message ID"))
        case Some(ticket) =>
          match SqsEncoding.Decode(body)
          case Err(e) => Err(e)
          case Ok(bytes) =>
            match deserialize(bytes)
            case Err(e) => Err(e)
            case Ok(message) => Ok(Receipt(ticket, message, handle, queueUrl))
  }

  /** `receive`'s validation: an SDK failure, an empty batch, or the checks
      on the last received message. */
  function ReceiveFields<Q, I>(queueUrl: string, timeout: Option<Duration>,
                               sdk: ReceiveRequest -> Result<ReceiveOutput, string>,
                               deserialize: seq<Byte> -> Result<CombinedInput<Q, I>, CoffeeShopError>)
    : (r: Result<Receipt<Q, I>, CoffeeShopError>)
    ensures sdk(ReceiveRequestFor(queueUrl, timeout)).Err? ==>
              r == Err(AWSSdkError(sdk(ReceiveRequestFor(queueUrl, timeout)).error))
    ensures sdk(ReceiveRequestFor(queueUrl, timeout)).Ok?
            && Pop(sdk(ReceiveRequestFor(queueUrl, timeout)).value.messages).None? ==>
              r == Err(AWSSQSQueueEmpty(timeout.GetOr(DefaultWaitTime)))
    ensures sdk(ReceiveRequestFor(queueUrl, timeout)).Ok?
            && Pop(sdk(ReceiveRequestFor(queueUrl, timeout)).value.messages).Some? ==>
              r == FromMessage(queueUrl, Pop(sdk(ReceiveRequestFor(queueUrl, timeout)).value.messages).value, deserialize)
  {
    match sdk(ReceiveRequestFor(queueUrl, timeout))
    case Err(debug) => Err(AWSSdkError(debug))
    case Ok(output) =>
      match Pop(output.messages)
      case None => Err(AWSSQSQueueEmpty(timeout.GetOr(DefaultWaitTime)))
      case Some(m) => FromMessage(queueUrl, m, deserialize)
  }

  /** What dropping a receipt does. */
  datatype DropOutcome = Quiet | LogError | LogErrorAndPanic

  class StagedReceipt<Q, I> {
    const ticket: Ticket
    const message: CombinedInput<Q, I>
    const receiptHandle: string
    const queueUrl: string
    /** Whether the receipt was completed by deletion; written once. */
    var completed: Option<bool>

    constructor (fields: Receipt<Q, I>)
      ensures ticket == fields.ticket && message == fields.message
      ensures receiptHandle == fields.receiptHandle && queueUrl == fields.queueUrl
      ensures completed == None
    {
      ticket := fields.ticket;
      message := fields.message;
      receiptHandle := fields.receiptHandle;
      queueUrl := fields.queueUrl;
      completed := None;
    }

    /** `receive`: a fresh, uncompleted receipt for the validated message. */
    static method Receive(queueUrl: string, timeout: Option<Duration>,
                          sdk: ReceiveRequest -> Result<ReceiveOutput, string>,
                          deserialize: seq<Byte> -> Result<CombinedInput<Q, I>, CoffeeShopError>)
      returns (r: Result<StagedReceipt<Q, I>, CoffeeShopError>)
      ensures ReceiveFields(queueUrl, timeout, sdk, deserialize).Err? ==>
                r == Err(ReceiveFields(queueUrl, timeout, sdk, deserialize).error)
      ensures ReceiveFields(queueUrl, timeout, sdk, deserialize).Ok? ==>
                r.Ok? && fresh(r.value) && r.value.completed.None?
                && r.value.Fields() == ReceiveFields(queueUrl, timeout, sdk, deserialize).value
    {
      var fields := ReceiveFields(queueUrl, timeout, sdk, deserialize);
      if fields.Err? {
        return Err(fields.error);
      }
      var receipt := new StagedReceipt(fields.value);
      r := Ok(receipt);
    }

    function Fields(): (f: Receipt<Q, I>)
      ensures f.ticket == ticket && f.message == message
      ensures f.receiptHandle == receiptHandle && f.queueUrl == queueUrl
    {
      Receipt(ticket, message, receiptHandle, queueUrl)
    }

    /** `query`. */
    function Query(): (q: Q)
      ensures q == message.query
    {
      message.query
    }

    /** `input`. */
    function Input(): (i: Option<I>)
      ensures i == message.input
    {
      message.input
    }

    /** The SDK call that completes the receipt: deletion when `result`, or
        else making the message visible again at once. */
    function CompletionFor(result: bool): (req: CompletionRequest)
      ensures result <==> req.DeleteMessage?
      ensures req.queueUrl == queueUrl && req.receiptHandle == receiptHandle
      ensures req.ChangeMessageVisibility? ==> req.visibilityTimeout == 0
    {
      if result then DeleteMessage(queueUrl, receiptHandle) else ChangeMessageVisibility(queueUrl, receiptHandle, 0)
    }

    /** `complete`: records the completion once, then makes the SDK call;
        a second completion fails without a call. */
    method Complete(result: bool, sdk: CompletionRequest -> Result<(), string>) returns (r: Result<(), CoffeeShopError>)
      modifies this
      ensures old(completed).Some? ==>
                completed == old(completed)
                && r == Err(AWSSQSStagedReceiptAlreadyCompleted(if result then "deleted" else "aborted"))
      ensures old(completed).None? ==>
                completed == Some(result)
                && r == (if sdk(CompletionFor(result)).Ok? then Ok(())
                         else Err(AWSSdkError(sdk(CompletionFor(result)).error)))
    {
      if completed.Some? {
        return Err(AWSSQSStagedReceiptAlreadyCompleted(if result then "deleted" else "aborted"));
      }
      completed := Some(result);
      var outcome := sdk(CompletionFor(result));
      if outcome.Err? {
        return Err(AWSSdkError(outcome.error));
      }
      r := Ok(());
    }

    /** `abort`. */
    method Abort(sdk: CompletionRequest -> Result<(), string>) returns (r: Result<(), CoffeeShopError>)
      modifies this
      ensures old(completed).Some? ==> completed == old(completed) && r == Err(AWSSQSStagedReceiptAlreadyCompleted("aborted"))
      ensures old(completed).None? ==>
                completed == Some(false)
                && r == (if sdk(CompletionFor(false)).Ok? then Ok(()) else Err(AWSSdkError(sdk(CompletionFor(false)).error)))
    {
      r := Complete(false, sdk);
    }

    /** `delete`. */
    method Delete(sdk: CompletionRequest -> Result<(), string>) returns (r: Result<(), CoffeeShopError>)
      modifies this
      ensures old(completed).Some? ==> completed == old(completed) && r == Err(AWSSQSStagedReceiptAlreadyCompleted("deleted"))
      ensures old(completed).None? ==>
                completed == Some(true)
                && r == (if sdk(CompletionFor(true)).Ok? then Ok(()) else Err(AWSSdkError(sdk(CompletionFor(true)).error)))
    {
      r := Complete(true, sdk);
    }

    /** `Drop`: an uncompleted receipt logs an error, and panics unless the
        `sqs_strict` feature is enabled. */
    function DropOutcomeWith(sqsStrict: bool): (d: DropOutcome)
      reads this
      ensures d == Quiet <==> completed.Some?
      ensures d == LogErrorAndPanic <==> completed.None? && !sqsStrict
    {
      if completed.Some? then Quiet else if sqsStrict then LogError else LogErrorAndPanic
    }
  }

  /** A missing timeout means waiting 20 seconds, and an empty batch is
      reported with that wait. */
  lemma EmptyQueueReportsDefaultWait<Q, I>(queueUrl: string, sdk: ReceiveRequest -> Result<ReceiveOutput, string>,
                                           deserialize: seq<Byte> -> Result<CombinedInput<Q, I>, CoffeeShopError>)
    requires sdk(ReceiveRequest(queueUrl, 1, 20)) == Ok(ReceiveOutput(Some([])))
    ensures ReceiveFields(queueUrl, None, sdk, deserialize) == Err(AWSSQSQueueEmpty(FromSecs(20)))
  {
  }

  /** A timeout of 2^31 seconds or more wraps around when passed to SQS
      as a 32-bit wait time. */
  lemma LongTimeoutWraps()
    ensures ReceiveRequestFor("", Some(FromSecs(TwoTo31))).waitTimeSeconds == -TwoTo31
  {
    assert AsSecs(FromSecs(TwoTo31)) == TwoTo31;
  }

  /** A well-formed message is received as a receipt whose ticket is the
      SQS message id and whose query and input come from the body. */
  lemma WellFormedMessageReceived<Q, I>(queueUrl: string, handle: string, id: string, payload: seq<Byte>,
                                        message: CombinedInput<Q, I>,
                                        deserialize: seq<Byte> -> Result<CombinedInput<Q, I>, CoffeeShopError>)
    requires SqsEncoding.Encode(payload).Ok?
    requires deserialize(payload) == Ok(message)
    ensures FromMessage(queueUrl, SqsMessage(Some(handle), Some(SqsEncoding.Encode(payload).value), Some(id)), deserialize)
            == Ok(Receipt(id, message, handle, queueUrl))
  {
    SqsEncoding.RoundTrip(payload);
  }

  /** Once completed, a receipt is dropped without complaint. */
  lemma CompletedReceiptDropsQuietly<Q, I>(receipt: StagedReceipt<Q, I>, sqsStrict: bool)
    requires receipt.completed.Some?
    ensures receipt.DropOutcomeWith(sqsStrict) == Quiet
  {
  }
}
