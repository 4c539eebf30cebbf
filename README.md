# coffeeshop core, modelled in Dafny

`coffeeshop` is a Rust framework for running a "coffee machine" (any user
computation) behind an HTTP waiter. Baristas take tickets from an AWS SQS
queue, run the machine, store each result in DynamoDB and announce completion
over multicast. The shop keeps its outstanding orders in an insertion-ordered
chain. A hello-world example machine and its Python client exercise the
framework.

This project models the sequential logic in that system and proves what it
promises:

- the order chain (`OrderChain`, `ChainSegment`, `ChainIter`, `ChainErrors`):
  write-once links, key-checked append, lookup, length, and `advance` with its
  outside reference counts;
- orders and the shop (`Orders`, `ShopOrders`, `ShopBase`): results set once,
  staleness, get-or-insert spawning, and the stale-order purge;
- the configuration builders (`Cli`), checked against the class-D range of
  section 4 of RFC 1112;
- the retry combinator (`Retry`);
- the SQS payload codec (`SqsEncoding`, over `Base64`): the standard alphabet
  of section 4 of RFC 4648, without padding (section 3.2), plus the 256 KiB
  limit;
- the staged receipt (`StagedReceipts`);
- error classification (`ShopError`, `IntoShopError`, `ErrorSchemas`): status
  codes as numbered in section 15 of RFC 9110;
- the DynamoDB item codec (`ResultToItem`, `ItemToResult`, `DynamoKeys`);
- the barista's decisions (`Baristas`) and the multicast messages
  (`MulticastMessages`);
- the machines: the default validator wrapper (`Machines`), the test machine
  (`TestMachines`), and the hello-world models and machine (`HelloModels`,
  `HelloMachines`);
- the Python client's sequential logic (`HelloClient`).

Code that updates state in place is modelled as classes with `modifies`
frames:

- `OrderChain.Chain`, `ChainIter.IterChain`, `Orders.Order`,
  `ShopBase.Shop`, `StagedReceipts.StagedReceipt`, `Baristas.Barista` and
  `HelloMachines.HelloMachine`;
- the loops of `tail`, `attach`, `len`, `get`, `insert`, `from_iter`,
  `advance`, `until`, `serve`, `Shop::new`, `request_async` and `main`'s
  partition loop.

Pure code is modelled as functions and lemmas.

Some abstractions run through the whole model:

- The chain is a sequence of segments. A segment is addressed by its
  position, and `refs[i]` counts the strong references held outside the
  chain.
- Time is an integer number of nanoseconds. The current time is a parameter
  wherever the source reads a clock.
- Foreign code is a function parameter:
  - the SDK calls;
  - the bincode/gzip serialiser;
  - JSON rendering and parsing;
  - the machine;
  - float rendering.

  A round trip through a serialiser is a precondition of the lemma that
  needs it.

Where the code and its documentation disagree, the model follows the code:

- The duplicate check of `attach` only consults the segment it starts from
  and the last segment (`ChainSegment.MiddleDuplicateAccepted`).
- `Chain::insert` is declared to return `()`, but its callers use the attached
  segment, so `OrderChain.Chain.Insert` returns it.
- Dropping an uncompleted staged receipt panics when the `sqs_strict` feature
  is *off*, whatever the comment says.

## Model

| member | source | states |
|---|---|---|
| ChainSegment.FromPair | src/helpers/order_chain/segment.rs:25-34 | the segment holds the given key and value |
| ChainSegment.AttachSpec | src/helpers/order_chain/segment.rs:105-121 | attaching from position `at` succeeds iff the key differs from that segment's key and from the last segment's key; on failure it gives `KeyAlreadyExists` naming the clashing segment and carrying the candidate |
| ChainSegment.MiddleDuplicateAccepted | src/helpers/order_chain/segment.rs:109-118 | a key held only by a middle segment is attached again (the check is weak) |
| ChainErrors.AttachmentError.IntoInner | src/helpers/order_chain/errors.rs:22-33 | both variants give back the segment that failed to attach |
| ChainErrors.IntoInnerNotExisting | src/helpers/order_chain/errors.rs:22-33 | `into_inner` of `KeyAlreadyExists` never gives back the existing segment |
| ChainIter.IterChain.constructor | src/helpers/order_chain/iter.rs:42-44 | the iterator points at the given segments, the first one first |
| ChainIter.IterChain.Next | src/helpers/order_chain/iter.rs:21-32 | yields the pointed segment and moves to its successor; once exhausted it yields `None` for ever |
| OrderChain.FreePrefix | src/helpers/order_chain/base.rs:220-250 | the longest prefix of segments that nobody outside the chain holds |
| OrderChain.Find | src/helpers/order_chain/base.rs:175-177 | `None` iff no segment holds the key; otherwise a segment with that key |
| OrderChain.FindIsFirst | src/helpers/order_chain/base.rs:175-177 | the segment found is the first one in chain order with the key |
| OrderChain.Chain.constructor | src/helpers/order_chain/base.rs:65-74 | a new chain has no segments |
| OrderChain.Chain.FromPair | src/helpers/order_chain/base.rs:76-86 | a chain of one segment holding the pair, with no outside reference |
| OrderChain.Chain.Head | src/helpers/order_chain/base.rs:115 | `None` iff the chain is empty, otherwise the first segment |
| OrderChain.Chain.IsEmpty | src/helpers/order_chain/base.rs:166 | true iff there is no head |
| OrderChain.Chain.Next | src/helpers/order_chain/segment.rs:38-50 | the successor of a segment; `None` iff it is the last one |
| OrderChain.Chain.TailFrom | src/helpers/order_chain/segment.rs:53-59 | following links from any segment reaches the last segment, which has no successor |
| OrderChain.Chain.TryAttach | src/helpers/order_chain/segment.rs:71-103 | equal key: `KeyAlreadyExists` and no change; a segment with a successor: `NotTail` and no change; otherwise the candidate becomes the new last segment |
| OrderChain.Chain.Attach | src/helpers/order_chain/segment.rs:105-121 | the loop of `try_attach` calls has the outcome of `AttachSpec`, appends exactly on success, and never ends in `NotTail` |
| OrderChain.Chain.Tail | src/helpers/order_chain/base.rs:134 | the last segment, or `None` for an empty chain |
| OrderChain.Chain.Iter | src/helpers/order_chain/base.rs:139 | a fresh iterator over all segments in chain order |
| OrderChain.Chain.Len | src/helpers/order_chain/base.rs:148-163 | the number of segments reachable from the head |
| OrderChain.Chain.Get | src/helpers/order_chain/base.rs:175-177 | the first segment with the key, as `Find` |
| OrderChain.Chain.Insert | src/helpers/order_chain/base.rs:184-218 | an empty chain takes the segment as head; otherwise it is attached from the head; the segments and counts change exactly as `InsertSpec` says |
| OrderChain.Chain.FromIter | src/helpers/order_chain/base.rs:101-112 | inserts the pairs in order and returns the first insertion error, or a fresh chain |
| OrderChain.Chain.Advance | src/helpers/order_chain/base.rs:220-250 | drops exactly the longest unreferenced prefix |
| OrderChain.Chain.Hold | src/helpers/order_chain/base.rs:220-250 | one more outside reference to a segment (an `Arc` clone); the segments are unchanged |
| OrderChain.Chain.Release | src/helpers/order_chain/base.rs:220-250 | one outside reference fewer (an `Arc` drop); the segments are unchanged |
| OrderChain.FromIterInOrder | src/helpers/order_chain/base.rs:101-112 | a chain that `from_iter` builds holds the pairs in iteration order |
| OrderChain.FromIterDistinct | src/helpers/order_chain/base.rs:101-112 | pairs with pairwise different keys always build a chain |
| OrderChain.FromIterRejectsRepeat | src/helpers/order_chain/base.rs:101-112 | a key that repeats the key just before it makes `from_iter` fail with `KeyAlreadyExists` |
| OrderChain.InsertOutcome | src/helpers/order_chain/base.rs:184-218 | `insert` succeeds iff the key is accepted, and then returns the new segment |
| OrderChain.InsertHeadKeyFails | src/helpers/order_chain/base.rs:192-193 | inserting the head's key fails and leaves the chain unchanged |
| OrderChain.InsertFreshKey | src/helpers/order_chain/base.rs:203-214 | a key no segment holds is appended as the new last segment |
| OrderChain.AdvanceUnreferenced | src/helpers/order_chain/base.rs:220-250 | with no outside references `advance` empties the chain |
| OrderChain.AdvanceKeepsHeld | src/helpers/order_chain/base.rs:220-250 | a held segment and everything after it survive `advance` |
| OrderChain.ReinsertAfterAdvance | src/helpers/order_chain/base.rs:220-250 | once `advance` dropped the head, the head's key, refused before, can be inserted again |
| Orders.Elapsed | src/models/order.rs:56 | the time from `since` to `now`, or zero when `now` is earlier |
| Orders.Order.constructor | src/models/order.rs:41-48 | a new order for the ticket, without a result |
| Orders.Order.IsFulfilled | src/models/order.rs:81-83 | true iff a result is stored |
| Orders.Order.AgeOfResult | src/models/order.rs:55-58 | `None` iff unfulfilled; otherwise the time since completion |
| Orders.Order.CompleteWithTimestamp | src/models/order.rs:60-74 | the first completion stores `(timestamp, success)` and returns `Ok`; a later one fails with `ResultAlreadySet` and keeps the stored result |
| Orders.Order.Complete | src/models/order.rs:76-79 | `complete_with_timestamp` with the current time |
| Orders.StaleIff | src/models/order.rs:92-101 | `is_stale` (`Orders.Order.IsStale`): stale iff at most one strong reference, a stored result, and an age strictly above the limit |
| Orders.UnfulfilledNeverStale | src/models/order.rs:100 | an order without a result is never stale |
| Orders.ExtraReferencePreventsStaleness | src/models/order.rs:207-276 | a second reference prevents staleness; with it dropped, staleness is back to fulfilled and old |
| Orders.StaleStaysStale | src/models/order.rs:100 | a stale order stays stale as time goes on |
| Orders.FreshResultNotStale | src/models/order.rs:100 | an order completed just now is not stale |
| ShopOrders.GetOrder | src/models/shop/order.rs:36-42 | the chain lookup: a segment keyed by the ticket, or `None` iff no segment holds it |
| ShopOrders.HasOrder | src/models/shop/order.rs:31-34 | true iff the lookup finds the ticket |
| ShopOrders.SpawnOrder | src/models/shop/order.rs:44-66 | a key the chain accepts gets a fresh order appended; on `KeyAlreadyExists` the existing segment comes back and the chain is unchanged; the returned segment is keyed by the ticket |
| ShopBase.TableName | src/models/shop/base.rs:121-129 | the configured name verbatim, or `task-queue-` followed by the shop's name |
| ShopBase.Retained | src/models/shop/implementations/collection_point.rs:35 | the orders `retain` keeps: exactly the non-stale ones, never more than before |
| ShopBase.Shop.Build | src/models/shop/base.rs:140-154 | the shop holds the given fields and no orders |
| ShopBase.Shop.New | src/models/shop/base.rs:112-154 | AWS and temporary-folder errors come first; otherwise the table and queue names default from the shop name, are taken out of the config, and the shop has exactly `barista_count` fresh baristas and no orders |
| ShopBase.Shop.SpawnOrder | src/models/shop/base.rs:168-175 | gives back the existing order for the ticket or inserts a new one; the map then holds the ticket and grows by at most one |
| ShopBase.Shop.PurgeStaleOrders | src/models/shop/implementations/collection_point.rs:30-44 | keeps exactly the non-stale orders, reports the original minus the remaining count, and returns `Ok` |
| ShopBase.RetainedIdempotent | src/models/shop/implementations/collection_point.rs:35 | purging twice at the same time removes nothing more |
| ShopBase.UnfulfilledSurvives | src/models/shop/implementations/collection_point.rs:35 | an order without a result survives every purge |
| Cli.IsMulticastHighBits | src/cli.rs:118-126 | `is_multicast` holds iff the four high-order bits are `1110` (section 4 of RFC 1112) |
| Cli.ValidateMulticastAddr | src/cli.rs:118-126 | `Ok` with the config unchanged iff the multicast host is class D; otherwise `InvalidMulticastAddress(host)` |
| Cli.WithHostAddr | src/cli.rs:129-134 | sets host and port and nothing else |
| Cli.WithMulticastAddr | src/cli.rs:137-142 | sets multicast host and port; succeeds iff the host is class D, else `InvalidMulticastAddress(host)` |
| Cli.WithBaristas | src/cli.rs:145-156 | zero fails with field `baristas` and message `must be positive number, found 0.`; any other count is stored and nothing else changes |
| Cli.WithMaxTickets | src/cli.rs:159-169 | zero fails with field `max_tickets`; any other count is stored and nothing else changes |
| Cli.WithDynamodbTable | src/cli.rs:172-175 | sets only the table |
| Cli.WithDynamodbPartitionKey | src/cli.rs:178-181 | sets only the partition key |
| Cli.WithResultTtl | src/cli.rs:184-187 | sets only the result TTL |
| Cli.WithSqsQueue | src/cli.rs:190-193 | sets only the queue |
| Cli.MulticastAddr | src/cli.rs:198-200 | pairs the stored multicast host with its port |
| Cli.HostAddr | src/cli.rs:203-205 | pairs the stored host with its port |
| Cli.DefaultIsValid | src/cli.rs:93-107 | `Config::default` (`Cli.Default`): the defaults pass every builder check; the default multicast host is class D |
| Cli.MulticastAddrRoundTrip | src/cli.rs:137-142 | setting the multicast address the config already has gives the config back |
| Cli.SettersIndependent | src/cli.rs:172-193 | the plain setters commute, the last table set wins, and each leaves the other fields alone |
| Retry.AttemptLimit | src/helpers/retry.rs:30-34 | at least one attempt is made, even with `max_retries` 0 |
| Retry.Until | src/helpers/retry.rs:4-36 | between one and max(1, `max_retries`) attempts; the result is the last attempt's; every earlier result was refused; either the result is accepted or the limit was reached |
| Retry.UntilOk | src/helpers/retry.rs:46-60 | `until` with the predicate "the outcome is `Ok`" |
| Base64.RoundTrip | src/helpers/sqs/encoding.rs:16-17 | `Base64.Decode` inverts `Base64.Encode`: the unpadded standard engine decodes its own encoding |
| Base64.EncodedLength | src/helpers/sqs/encoding.rs:16-17 | n bytes encode to ⌈4n/3⌉ symbols, all from the alphabet |
| Base64.Canonical | src/helpers/sqs/encoding.rs:16-17 | only canonical text decodes: what decodes is the encoding of its result |
| Base64.DecodeFails | src/helpers/sqs/encoding.rs:16-17 | decoding fails iff a symbol is outside the alphabet, the length is 1 mod 4, or the trailing bits are not zero |
| SqsEncoding.Encode | src/helpers/sqs/encoding.rs:20-28 | the encoding itself iff it is at most 256 KiB long, otherwise `Base64EncodingOversize(length)` |
| SqsEncoding.Decode | src/helpers/sqs/encoding.rs:31-35 | every failure is a `Base64DecodingError` |
| SqsEncoding.EncodeAcceptsUpTo | src/helpers/sqs/encoding.rs:13 | `encode` accepts exactly the payloads of at most 196608 bytes |
| SqsEncoding.RoundTrip | src/helpers/sqs/encoding.rs:20-35 | `decode(encode(d)) = d` whenever `encode` succeeds |
| SqsEncoding.DecodeCanonical | src/helpers/sqs/encoding.rs:31-35 | whatever `decode` accepts is the encoding of its result |
| SqsEncoding.DecodeRejects | src/helpers/sqs/encoding.rs:31-35 | a symbol outside the alphabet (padding included) or a length of 1 mod 4 fails with `Base64DecodingError` |
| Durations.FromSecs | src/helpers/sqs/staged_receipt.rs:22 | `as_secs` of `from_secs(s)` is `s` |
| Durations.WholeSecondsDebug | src/errors/shop_error.rs:128-129 | a whole number of seconds renders as that number followed by `s` |
| StagedReceipts.AsI32 | src/helpers/sqs/staged_receipt.rs:60 | `as i32`: in range, congruent modulo 2^32, and the identity below 2^31 |
| StagedReceipts.ReceiveRequestFor | src/helpers/sqs/staged_receipt.rs:56-68 | one message from the queue, waiting 20 s by default or the timeout's whole seconds |
| StagedReceipts.Pop | src/helpers/sqs/staged_receipt.rs:72-74 | the batch's last message, `None` iff the batch is absent or empty |
| StagedReceipts.FromMessage | src/helpers/sqs/staged_receipt.rs:77-96 | a missing receipt handle, body, or message id fails with `UnexpectedAWSResponse`, checked in that order |
| StagedReceipts.ReceiveFields | src/helpers/sqs/staged_receipt.rs:48-100 | an SDK error is passed on, an empty batch is `AWSSQSQueueEmpty(timeout)`, otherwise the last message's checks decide |
| StagedReceipts.StagedReceipt.constructor | src/helpers/sqs/staged_receipt.rs:87-96 | a receipt with the given fields, not completed |
| StagedReceipts.StagedReceipt.Receive | src/helpers/sqs/staged_receipt.rs:48-100 | a fresh, uncompleted receipt holding the fields `ReceiveFields` produces, or its error |
| StagedReceipts.StagedReceipt.Fields | src/helpers/sqs/staged_receipt.rs:27-40 | the ticket, message, receipt handle and queue URL the receipt holds |
| StagedReceipts.StagedReceipt.Query | src/helpers/sqs/staged_receipt.rs:103-105 | the query of the decoded body |
| StagedReceipts.StagedReceipt.Input | src/helpers/sqs/staged_receipt.rs:108-110 | the input of the decoded body |
| StagedReceipts.StagedReceipt.CompletionFor | src/helpers/sqs/staged_receipt.rs:131-161 | deletion iff `result`; otherwise a visibility reset to 0; both on this receipt's handle and queue |
| StagedReceipts.StagedReceipt.Complete | src/helpers/sqs/staged_receipt.rs:113-163 | a second completion fails with `AWSSQSStagedReceiptAlreadyCompleted` and changes nothing; the first records the result and makes the SDK call |
| StagedReceipts.StagedReceipt.Abort | src/helpers/sqs/staged_receipt.rs:166-168 | `complete(false)` |
| StagedReceipts.StagedReceipt.Delete | src/helpers/sqs/staged_receipt.rs:171-173 | `complete(true)` |
| StagedReceipts.StagedReceipt.DropOutcomeWith | src/helpers/sqs/staged_receipt.rs:176-205 | quiet iff completed; an uncompleted receipt logs an error, and panics iff `sqs_strict` is off |
| StagedReceipts.EmptyQueueReportsDefaultWait | src/helpers/sqs/staged_receipt.rs:97-99 | with no timeout an empty batch reports `AWSSQSQueueEmpty(20 s)` |
| StagedReceipts.LongTimeoutWraps | src/helpers/sqs/staged_receipt.rs:60 | a timeout of 2^31 s reaches SQS as -2^31 |
| StagedReceipts.WellFormedMessageReceived | src/helpers/sqs/staged_receipt.rs:77-96 | a complete message is received with its message id as the ticket and its decoded body |
| StagedReceipts.CompletedReceiptDropsQuietly | src/helpers/sqs/staged_receipt.rs:190-205 | a completed receipt drops without complaint |
| ErrorSchemas.ToJson | src/errors/generic_schema.rs:13-31 | the serialised schema is an object with exactly the keys `status_code`, `error` and `details` |
| ErrorSchemas.FromJson | src/errors/generic_schema.rs:13-31 | deserialising succeeds only on an object holding `status_code` and `error` |
| ErrorSchemas.Normalize | src/errors/generic_schema.rs:30 | keeps status and error; only details of `Some(null)` change (to `None`), as `Option<Value>` deserialises |
| ErrorSchemas.JsonRoundTrip | src/errors/generic_schema.rs:13-31 | deserialising a schema's JSON gives the schema back, up to `Normalize` |
| ErrorSchemas.ToJsonInjective | src/errors/generic_schema.rs:13-31 | two schemas serialise alike iff they agree up to `Normalize` |
| ShopError.CoffeeShopError.Kind | src/errors/shop_error.rs:308-310 | the variant's name; `ErrorSchema` for exactly that variant |
| ShopError.CoffeeShopError.AsErrorSchema | src/errors/shop_error.rs:312-336 | carried schemas pass through; every other variant gets its own status and kind, with details `{"message": Display}` (the `Message` text), and `InvalidHeader` gets the fixed message plus `{"headers": {key: message}}` |
| ShopError.CoffeeShopError.AsJson | src/errors/shop_error.rs:338-342 | the JSON reads back as the exported schema (exactly, for every variant that does not carry one); `Message` is the `Display` text it holds |
| ShopError.FromIoError | src/errors/shop_error.rs:172-178 | `AlreadyExists` becomes `NonUniqueTemporaryFile`, every other kind `IOError` |
| ShopError.FromMulticastIoError | src/errors/shop_error.rs:181-185 | wraps the error as `MulticastIOError` |
| ShopError.FromServerIoError | src/errors/shop_error.rs:187-192 | wraps the error as `HTTPServerError` |
| ShopError.FromSqsReceiveError | src/errors/shop_error.rs:194-217 | missing queue, invalid address, KMS denial and others map to their four variants, iff; a missing message becomes `(No details provided)` |
| ShopError.FromSqsSendError | src/errors/shop_error.rs:220-248 | the five send errors map to their five variants, iff |
| ShopError.FromPutItemError | src/errors/shop_error.rs:251-278 | the five put-item errors map to their five variants, iff |
| ShopError.FromAxumBoxError | src/errors/shop_error.rs:346-354 | an `ErrorSchema` with status 500, error `BoxError` and the message |
| ShopError.StatusClasses | src/errors/shop_error.rs:286-305 | `status_code` (`CoffeeShopError.StatusCode`): every own error is 4xx or 5xx, and below 500 exactly for the client-side variants |
| ShopError.SchemaStatus | src/errors/shop_error.rs:300-301 | the exported schema reports the error's own status code |
| ShopError.EqReflexiveSymmetric | src/errors/shop_error.rs:357-368 | `PartialEq` (`ShopError.Eq`): equality is reflexive and symmetric |
| ShopError.CarriedSchemaEq | src/errors/shop_error.rs:357-368 | a processing error equals the `ErrorSchema` carrying the same schema |
| ShopError.EqualToOwnSchema | src/errors/shop_error.rs:357-368 | an error equals its own schema re-raised as `ErrorSchema` |
| ShopError.EqNotTransitive | src/errors/shop_error.rs:357-368 | equality is not transitive |
| ShopError.Base64DecodeErrorTextsDiffer | src/errors/shop_error.rs:93-94 | the `Display` of the wrapped `base64::DecodeError` (`Base64DecodeErrorText`) tells the four failure kinds apart, whatever their offsets and symbols |
| ShopError.KindLetter | src/errors/shop_error.rs:93-94 | each `base64::DecodeError` message starts `Invalid ` followed by a letter naming its kind |
| IntoShopError.FromShopError | src/errors/handling/into_coffeeshop_error.rs:15-20 | the identity |
| IntoShopError.FromQueryRejection | src/errors/handling/into_coffeeshop_error.rs:22-37 | every query rejection is `InvalidQueryOptions` with the rejection's text |
| IntoShopError.FromJsonRejection | src/errors/handling/into_coffeeshop_error.rs:39-78 | each JSON rejection maps to its variant and kind, iff; the missing content type is keyed on `content-type` |
| IntoShopError.QueryRejectionStatus | src/errors/handling/into_coffeeshop_error.rs:22-37 | every query rejection answers 400 |
| IntoShopError.JsonRejectionStatus | src/errors/handling/into_coffeeshop_error.rs:39-78 | JSON rejections answer 406, 400 or 422 by kind |
| ResultToItem.ExpiryAsWritten | src/helpers/dynamodb/process_result_to_item.rs:29-34 | the expiry as written: the maximum date when the TTL does not convert, and a panic (`None`) exactly when it converts but the sum overflows |
| ResultToItem.Expiry | src/helpers/dynamodb/process_result_to_item.rs:29-34 | whole seconds of `now + ttl`, or the maximum date whenever that overflows |
| ResultToItem.ExpiryAgreesWhenDefined | src/helpers/dynamodb/process_result_to_item.rs:29-34 | the two agree wherever the code does not panic |
| ResultToItem.LargeTtlPanics | src/helpers/dynamodb/process_result_to_item.rs:29-34 | a TTL of 10^13 s converts, overflows the sum, and panics as written |
| ResultToItem.AddCommonItems | src/helpers/dynamodb/process_result_to_item.rs:23-44 | adds the partition key as `S(ticket)` and `ttl` as `N(expiry)`, keeping the other entries |
| ResultToItem.WithResult | src/helpers/dynamodb/process_result_to_item.rs:97-139 | adds the status, the success flag and the payload, keeping the other entries |
| ResultToItem.ReportTicketSuccess | src/helpers/dynamodb/process_result_to_item.rs:97-116 | a serialiser error is passed on; otherwise status `N("200")`, `success` true, the output, and no new `error` key |
| ResultToItem.ReportTicketFailure | src/helpers/dynamodb/process_result_to_item.rs:118-139 | status of the error, `success` false, the error's JSON text, and no new `output` key |
| ResultToItem.ResultFields | src/helpers/dynamodb/process_result_to_item.rs:97-139 | a complete result item holds the builder's keys plus the partition key, `ttl`, `status_code`, `success` and the payload key, with the given values, and gains no other payload key |
| ResultToItem.ReportTicketResult | src/helpers/dynamodb/process_result_to_item.rs:70-89 | `Ok` goes to the success encoder, `Err` to the failure encoder |
| ItemToResult.ToProcessStatus | src/helpers/dynamodb/item_to_process_result.rs:48-57 | `(ticket, b)` iff the partition key holds a string and `success` a boolean; otherwise `AWSDynamoDBMalformedItem` |
| ItemToResult.ParseErrorSchema | src/helpers/dynamodb/item_to_process_result.rs:99-116 | the parsed schema, or the 500 fallback keeping the original text |
| ItemToResult.ToProcessResultShapes | src/helpers/dynamodb/item_to_process_result.rs:59-129 | `to_process_result` (`ToProcessResult`): an item in the success shape gives the deserialiser's verdict on its output, one in the failure shape gives its ticket and parsed schema, and every other combination of the five keys is `AWSDynamoDBMalformedItem` |
| ItemToResult.DecodeSuccessItem | src/helpers/dynamodb/item_to_process_result.rs:74-90 | an item of the success shape reads as `(ticket, Ok(output))` |
| ItemToResult.DecodeFailureItem | src/helpers/dynamodb/item_to_process_result.rs:92-126 | an item of the failure shape reads as `(ticket, Err(schema))` |
| ItemToResult.SuccessRoundTrip | src/helpers/dynamodb/tests.rs:129-162 | a success item reads back as its ticket and output |
| ItemToResult.FailureItemRoundTrip | src/helpers/dynamodb/item_to_process_result.rs:92-126 | a failure item carrying a schema's JSON reads back as that schema |
| ItemToResult.FailureRoundTrip | src/helpers/dynamodb/tests.rs:129-162 | a failure item reads back as the ticket and the error's schema |
| ItemToResult.ReportedFailureReadsBack | src/helpers/dynamodb/item_to_process_result.rs:92-126 | what the failure encoder writes, with an error text that parses to a schema, reads back as the ticket and that schema, and its status as `(ticket, false)` |
| ItemToResult.ResultRoundTrip | src/helpers/dynamodb/tests.rs:129-162 | reading back what `report_ticket_result` wrote gives the ticket, and the result with errors replaced by their schema |
| ItemToResult.UnparsableErrorFallsBack | src/helpers/dynamodb/item_to_process_result.rs:99-116 | unparsable error text becomes status 500 `UnknownProcessingError` with the original text |
| MulticastMessages.New | src/models/message/proto/implementations/new.rs:7-20 | copies task and ticket, stores kind and status, and always sets a timestamp |
| MulticastMessages.NewTicketComplete | src/models/message/proto/implementations/new.rs:24-31 | kind `Ticket`, status `Success`, the given task and ticket, stamped with the current time |
| MulticastMessages.NewTicketRejected | src/models/message/proto/implementations/new.rs:35-42 | kind `Ticket`, status `Aborted`, the given task and ticket, stamped with the current time |
| MulticastMessages.FinishedStatuses | src/models/message/proto/implementations/status.rs:9-11 | `is_finished` (`MulticastMessageStatus.IsFinished`): finished iff not `Error` |
| MulticastMessages.TicketConstructorsFinished | src/models/message/proto/implementations/status.rs:9-11 | both ticket constructors announce a finished status and differ only in it |
| Baristas.AnnouncedStatus | src/models/barista.rs:217-245 | `Success` iff processed and stored, `Aborted` iff failed and stored, `Error` iff storing failed |
| Baristas.Barista.constructor | src/models/barista.rs:63-69 | a barista with count 0 |
| Baristas.Barista.GetProcessCount | src/models/barista.rs:76-79 | the current count |
| Baristas.Barista.ProcessTicket | src/models/barista.rs:185-201 | the count goes up by exactly one; a machine failure becomes `ProcessingError` |
| Baristas.Barista.ProcessNextTicket | src/models/barista.rs:205-288 | a retrieval failure is returned with nothing announced or acked; otherwise the announced status is `AnnouncedStatus`, the receipt is deleted iff storing succeeded and aborted otherwise, and announce and ack failures are swallowed |
| Baristas.Barista.Serve | src/models/barista.rs:85-157 | the loop's result is `ServeSpec` of the rounds it saw |
| Baristas.ServeEnds | src/models/barista.rs:103-155 | `ServeSpec`, with the fatal errors of `StopsServing`: a shutdown ends with `Ok`; the four fatal errors end with themselves; nothing else ends the loop |
| Baristas.EmptyQueueKeepsServing | src/models/barista.rs:104-110 | an empty queue does not end the loop |
| Machines.Validate | src/models/machine.rs:56-75 | `Ok` iff the validator is; otherwise 422 `ValidationError` with the field count message and the field map |
| Machines.ValidateInjective | src/models/machine.rs:56-75 | different validator maps give different errors, so the field map is recoverable |
| Machines.CountMessagePlural | src/models/machine.rs:62-67 | the message says `field` for one and `fields` otherwise |
| TestMachines.GetTimeout | src/models/test/mod.rs:65-69 | the query's timeout |
| TestMachines.Call | src/models/test/mod.rs:93-146 | no payload: 400 `MissingInput`; `Sleep`: 406 `NoSleepForYou`; `Ok` iff no rule refuses, greeting `Hello, {name}!` |
| TestMachines.CallRefusals | src/models/test/mod.rs:111-127 | the `Refusal` schemas: an empty name: 422 `MissingName`; `Little Timmy`: 403 `NoTimmy`; every refusal is 406, 422 or 403 |
| TestMachines.SleepCheckedFirst | src/models/test/mod.rs:99-110 | `Sleep` is refused before any name rule |
| HelloModels.LanguageFromWire | examples/hello_world/models.rs:7-14 | the language with that wire name, if any |
| HelloModels.WireNameRoundTrip | examples/hello_world/models.rs:7-14 | every language's wire name reads back as that language |
| HelloModels.QueryFromFields | examples/hello_world/models.rs:35-42 | an absent `async` field means false |
| HelloModels.GetTimeout | examples/hello_world/models.rs:46-48 | the `timeout` field |
| HelloModels.IsAsync | examples/hello_world/models.rs:51-53 | the `async` field |
| HelloMachines.SaturatingSub | examples/hello_world/machine.rs:27-29 | `i32::saturating_sub`: the difference clamped to the 32-bit range |
| HelloMachines.AgeError | examples/hello_world/machine.rs:80-97 | age 0, 1 to 17, and 130 or more each give their message; 18 to 129 give none |
| HelloMachines.WithTimeoutCheck | examples/hello_world/machine.rs:99-104 | a timeout below 1 s, or none, adds the `timeout` error |
| HelloMachines.Conclude | examples/hello_world/machine.rs:107-111 | `Ok` iff no error was inserted |
| HelloMachines.ValidatorAsWritten | examples/hello_world/machine.rs:67-112 | the validator as written: it panics exactly when the input is missing |
| HelloMachines.Validator | examples/hello_world/machine.rs:67-112 | the corrected validator, with the age rule of `WithAgeCheck`: `$body`, `age` and `timeout` errors each iff their condition holds |
| HelloMachines.MissingInputPanics | examples/hello_world/machine.rs:74-78 | a missing input panics, so the `$body` error is never reported |
| HelloMachines.ValidatorAgrees | examples/hello_world/machine.rs:67-112 | with an input present the two validators agree |
| HelloMachines.GreetingNamesCaller | examples/hello_world/machine.rs:44-49 | `GreetingText`: the greeting starts with the language's greeting and names the caller |
| HelloMachines.CallOutcome | examples/hello_world/machine.rs:22-60 | refused with 403 iff the lower-cased name is `little timmy`; otherwise the greeting with the saturated birth year and `answer_id` one above the count |
| HelloMachines.ForbiddenInAnyCase | examples/hello_world/machine.rs:34-42 | `IsForbiddenName`, answered with the `Forbidden` schema: `Little Timmy` and `LITTLE TIMMY` are both refused |
| HelloMachines.HelloMachine.constructor | examples/hello_world/machine.rs:9-14 | a machine with count 0 |
| HelloMachines.HelloMachine.Call | examples/hello_world/machine.rs:22-60 | the outcome of `CallOutcome`; the count grows by one iff the call succeeds |
| Text.AsciiLower | examples/hello_world/machine.rs:34 | `to_ascii_lowercase`: only `A` to `Z` change |
| HelloClient.RequestSync | examples/hello_world/client/main.py:65-92 | one POST with `async` false; the response is returned unchanged |
| HelloClient.TicketOf | examples/hello_world/client/main.py:124 | the body's `ticket` field, present iff the body is an object holding it |
| HelloClient.FirstFinal | examples/hello_world/client/main.py:127-134 | the index of the first poll response that is not a 408 |
| HelloClient.RequestAsync | examples/hello_world/client/main.py:94-137 | a failed submit is returned with no poll; otherwise it polls the ticket with wait 5, sleeping once per 408, and returns the first other response |
| HelloClient.TimeoutsThenFinal | examples/hello_world/client/main.py:127-134 | k timeouts then a final response: k sleeps, k + 1 polls, and that response |
| HelloClient.Planned | examples/hello_world/client/main.py:141-147 | `sync_count + async_count` calls, sync first, each block in index order |
| HelloClient.GoodBadPartition | examples/hello_world/client/main.py:151-157 | every outcome lands in exactly one list (lengths and multisets) |
| HelloClient.Partition | examples/hello_world/client/main.py:151-157 | the loop yields the 200 bodies and the others, each in order |
| HelloClient.GreetingOf | examples/hello_world/client/main.py:161-164 | `result["output"]["greeting"]`, present iff both keys are |
| HelloClient.DistinctGreetings | examples/hello_world/client/main.py:161-164 | the set of greetings over the good results; `None` iff one lacks it |
| HelloClient.DistinctGreetingsBound | examples/hello_world/client/main.py:161-165 | never more distinct greetings than good results |

## Left out

- Concurrency is not modelled:
  - the `RwLock` on the chain's head, and the re-check and retry of `insert` and `attach` under concurrent mutation;
  - `Order::wait_until_complete` and its `Notify`;
  - `Barista::serve_all`, `Shop::open`, the waiter, the announcer loop, and the client's `asyncio.gather`.

  The chain is modelled single-threaded, with outside `Arc` counts as explicit numbers.
- The AWS SDK, the multicast socket and HTTP are parameters. Their outcomes come in as function arguments or scripted sequences.
- The bincode/gzip serialiser and JSON parsing and rendering are function parameters, so the round trips assume a serialiser round trip.
- `result_ttl`, `dynamodb_ttl` and `max_execution_time` are `f32` seconds, and their conversions are not modelled. The TTL reaches the item codec already in nanoseconds.
- The client's success ratio and its timers are floats and are not modelled.
- `HelloMachine::call` sleeps for one second; the sleep is not modelled. The current year is a parameter.
- The test machine renders its narration with floats; the rendering is a parameter.
- Disk buffers and temporary files are not modelled. The temporary folder's creation is an argument of `Shop.New`.
- Protocol buffer discriminants are not modelled: message kinds and statuses are enum values.
- Orders.Order.IsStale and ShopBase.Shop.PurgeStaleOrders take the `Arc` strong count of each order as a parameter, because the model has no reference counting of its own.
- ShopOrders.SpawnOrder: the branch the source treats as unreachable (`NotTail` from `insert`) is shown impossible, because `attach` never returns `NotTail`.
- ShopOrders.HasOrder is the lookup's success itself, not a separate scan.
- StagedReceipts.StagedReceipt.Complete: a second completion cannot happen in Rust, since `complete` consumes the receipt. The model keeps the guard against one.
- StagedReceipts.ReceiveFields: the `wait_time_seconds` argument the SDK receives is modelled; the SDK's own handling of it is not.
- HelloMachines.HelloMachine.Call requires an input. The framework runs the validator first, and the validator as written panics without one (see Findings).
- HelloClient.RequestAsync: the endless polling loop is cut off as `StillPolling` when the scripted responses run out. The Python exceptions of a missing ticket or a failing `ticket.json()` are modelled as `NoTicket`.
- HelloClient.RequestAsync: the `timeout` given to retrieve calls is only the wait of 5. Transport timeouts are not modelled.
- The source keeps the shop's orders in two containers that do not fit together. `src/models/order.rs:16` declares `Orders` as `Chain<Ticket, Order>`, and `src/models/shop/order.rs:31-66` uses it as a chain. `src/models/shop/base.rs:141` builds `orders` as a `HashMap`, and `src/models/shop/base.rs:168-175` and `src/models/shop/implementations/collection_point.rs:35` use map methods (`entry`, `retain`). `ShopOrders` follows the chain, over an `OrderChain.Chain<Ticket, Order>`. `ShopBase.Shop` follows the map, with `orders: map<Ticket, Order>`. No lemma relates the two.
- Base64.Decode: scans the text as characters, while the `base64` crate scans its UTF-8 bytes. On non-ASCII input the offset and symbol in `InvalidByte`, and so in the `Base64DecodingError` message, count characters and code points rather than bytes and the first UTF-8 byte. The model also reports every `=` as `InvalidPadding`. The crate does that only for trailing pads after at least two symbols of the last group, as in `AA==` or `AAA=`. It reports any other `=` as `InvalidByte(offset, '=')`: a `=` before the last group (`AA==AAAA`, offset 2), a `=` at position 0 or 1 of that group (`A=AA`, offset 1), and a pad followed by a non-pad (`AA=A`, offset 2). For such inputs the message reads `Invalid symbol 61, offset …` where the model has `Invalid padding`. The rejection, the variant and the status code are the same.
- Baristas.Barista.Serve: the 3-second wait each pass asks of the queue is not modelled. Each pass's outcome is given as a `Round`.
- `PartialEq` of a chain segment compares key and value, and ignores the link. A model segment has no link, so this is the datatype's own equality.
- `Display` texts of foreign error types (SDK errors, `io::Error`, `serde_json::Error`) are carried as already rendered strings.
- `CoffeeShopError::ErrorSchema` display through the http crate's reason phrases is not modelled.
- `src/helpers/dynamodb/func.rs` (batch chunk size in `f32`), the logger and the re-export files contain nothing modelled.

## Findings

| source | as written | input that shows it | evidently intended | confidence | as-written member | corrected member |
|---|---|---|---|---|---|---|
| examples/hello_world/machine.rs:74-78 | inserts a `$body` error for a missing input, then unwraps the input anyway | a request with no body (`input = None`) | report `{"$body": "The input is missing."}` as a validation error | high, not executed | HelloMachines.ValidatorAsWritten, HelloMachines.MissingInputPanics | HelloMachines.Validator |
| src/helpers/dynamodb/process_result_to_item.rs:29-34 | `Utc::now() + duration` once `from_std` succeeds; the addition panics when it passes `MAX_UTC` | `ttl` of 10^13 seconds, which converts to a `chrono::Duration` but overflows the sum | clamp every overflowing expiry to the maximum timestamp, as the comment says | high, not executed | ResultToItem.ExpiryAsWritten, ResultToItem.LargeTtlPanics | ResultToItem.Expiry |
