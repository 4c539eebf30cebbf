/** Turning a process result into the DynamoDB item the put request carries
    (`ToItem` on the put-item builder, whose item map is `builder`). Time is
    taken from the caller: `now` is the wall clock in nanoseconds since the
    Unix epoch. */
module ResultToItem {
  import opened Wrappers
  import opened Bytes
  import opened Text
  import opened Durations
  import opened JsonValue
  import opened ShopError
  import opened DynamoKeys

  /** The largest `chrono::TimeDelta` (`i64::MAX` milliseconds), in
      nanoseconds; `TimeDelta::from_std` fails above it. */
  const MaxDeltaNanos: nat := 9_223_372_036_854_775_807 * 1_000_000

  /** The Unix timestamp, in seconds, of `DateTime::<Utc>::MAX_UTC` as the
      `chrono` 0.4 releases up to 0.4.34 define it: the last instant of the
      year 262143. Later 0.4 releases end the range a year earlier, at
      8_210_266_876_799 (year 262142). */
  const MaxUtcSecs: nat := 8_210_298_412_799

  /** `MAX_UTC` in nanoseconds. */
  const MaxUtcNanos: nat := MaxUtcSecs * NanosPerSec + 999_999_999

  /** The expiry, as a Unix timestamp in seconds, exactly as
      `add_common_items` computes it: a TTL too large for a `TimeDelta`
      gives `MAX_UTC`, and otherwise `now + ttl` is formed, where chrono
      panics (`None` here) when the sum passes `MAX_UTC`. */
  function ExpiryAsWritten(ttl: Duration, now: int): (e: Option<int>)
    requires now <= MaxUtcNanos
    ensures ttl > MaxDeltaNanos ==> e == Some(MaxUtcSecs)
    ensures e.None? <==> ttl <= MaxDeltaNanos && now + ttl > MaxUtcNanos
  {
    if ttl > MaxDeltaNanos then Some(MaxUtcSecs)
    else if now + ttl > MaxUtcNanos then None
    else Some((now + ttl) / NanosPerSec)
  }

  /** The expiry as the comment above `add_common_items` intends it: `now +
      ttl`, in whole seconds, or `MAX_UTC` whenever that would be
      exceeded. */
  function Expiry(ttl: Duration, now: int): (e: int)
    requires now <= MaxUtcNanos
    ensures e <= MaxUtcSecs
    ensures now / NanosPerSec <= e
    ensures ttl <= MaxDeltaNanos && now + ttl <= MaxUtcNanos ==> e * NanosPerSec <= now + ttl < (e + 1) * NanosPerSec
    ensures ttl > MaxDeltaNanos || now + ttl > MaxUtcNanos ==> e == MaxUtcSecs
  {
    if ttl > MaxDeltaNanos || now + ttl > MaxUtcNanos then
      SecondsOf(now, MaxUtcNanos);
      MaxUtcSecs
    else
      SecondsOf(now, now + ttl);
      (now + ttl) / NanosPerSec
  }

  /** Whole seconds round down, and do so monotonically. */
  lemma SecondsOf(x: int, y: int)
    requires x <= y
    ensures (y / NanosPerSec) * NanosPerSec <= y < (y / NanosPerSec + 1) * NanosPerSec
    ensures x / NanosPerSec <= y / NanosPerSec
  {
    assert y == (y / NanosPerSec) * NanosPerSec + y % NanosPerSec;
    assert x == (x / NanosPerSec) * NanosPerSec + x % NanosPerSec;
  }

  /** The two agree wherever the code as written does not panic. */
  lemma ExpiryAgreesWhenDefined(ttl: Duration, now: int)
    requires now <= MaxUtcNanos
    requires ExpiryAsWritten(ttl, now).Some?
    ensures ExpiryAsWritten(ttl, now).value == Expiry(ttl, now)
  {
  }

  /** A TTL of ten trillion seconds converts to a `TimeDelta`, but adding it
      to any time since the epoch passes `MAX_UTC`: the code as written
      panics instead of using the maximum timestamp. */
  lemma LargeTtlPanics(now: int)
    requires 0 <= now <= MaxUtcNanos
    ensures FromSecs(10_000_000_000_000) <= MaxDeltaNanos
    ensures ExpiryAsWritten(FromSecs(10_000_000_000_000), now).None?
    ensures Expiry(FromSecs(10_000_000_000_000), now) == MaxUtcSecs
  {
  }

  /** `add_common_items`: the partition key holds the ticket and `ttl` the
      expiry timestamp; the rest of the builder's item is kept. */
  function AddCommonItems(builder: Item, partitionKey: string, ticket: Ticket, ttl: Duration, now: int): (item: Item)
    requires now <= MaxUtcNanos
    ensures item.Keys == builder.Keys + {partitionKey, TtlKey}
    ensures item[TtlKey] == N(IntToString(Expiry(ttl, now)))
    ensures partitionKey != TtlKey ==> item[partitionKey] == S(ticket)
    ensures forall k :: k in builder && k != partitionKey && k != TtlKey ==> item[k] == builder[k]
  {
    builder[partitionKey := S(ticket)][TtlKey := N(IntToString(Expiry(ttl, now)))]
  }

  /** The three result fields written after the common ones: the status
      code, the success flag, and the payload under `payloadKey`. */
  function WithResult(common: Item, status: string, success: bool, payloadKey: string, payload: AttributeValue)
    : (item: Item)
    requires payloadKey == OutputKey || payloadKey == ErrorKey
    ensures item.Keys == common.Keys + {StatusKey, SuccessKey, payloadKey}
    ensures item[StatusKey] == N(status) && item[SuccessKey] == Bool(success) && item[payloadKey] == payload
    ensures forall k :: k in common && !Reserved(k) ==> item[k] == common[k]
  {
    common[StatusKey := N(status)][SuccessKey := Bool(success)][payloadKey := payload]
  }

  /** `report_ticket_success`: the serialised output under `output`, with
      status 200 and `success` set; a serialisation failure is returned. */
  function ReportTicketSuccess<O>(builder: Item, partitionKey: string, ticket: Ticket, output: O, ttl: Duration,
                                  now: int, serialize: O -> Result<seq<Byte>, CoffeeShopError>)
    : (r: Result<Item, CoffeeShopError>)
    requires now <= MaxUtcNanos
    ensures serialize(output).Err? ==> r == Err(serialize(output).error)
    ensures serialize(output).Ok? ==> r.Ok?
    ensures r.Ok? ==> r.value.Keys == builder.Keys + {partitionKey, TtlKey, StatusKey, SuccessKey, OutputKey}
    ensures r.Ok? ==> r.value[StatusKey] == N("200") && r.value[SuccessKey] == Bool(true)
                      && r.value[OutputKey] == B(serialize(output).value)
    ensures r.Ok? && !Reserved(partitionKey) ==> r.value[partitionKey] == S(ticket)
    ensures r.Ok? && !Reserved(partitionKey) ==> (ErrorKey in r.value <==> ErrorKey in builder)
  {
    var buffer :- serialize(output);
    Ok(WithResult(AddCommonItems(builder, partitionKey, ticket, ttl, now), "200", true, OutputKey, B(buffer)))
  }

  /** `report_ticket_failure`: the error's JSON text under `error`, with its
      status code and `success` cleared. `renderJson` is
      `serde_json::to_string`, which cannot fail on a JSON value. */
  function ReportTicketFailure(builder: Item, partitionKey: string, ticket: Ticket, error: CoffeeShopError,
                               ttl: Duration, now: int, renderJson: Json -> string)
    : (r: Result<Item, CoffeeShopError>)
    requires now <= MaxUtcNanos
    ensures r.Ok?
    ensures r.value.Keys == builder.Keys + {partitionKey, TtlKey, StatusKey, SuccessKey, ErrorKey}
    ensures r.value[StatusKey] == N(NatToString(error.StatusCode())) && r.value[SuccessKey] == Bool(false)
    ensures r.value[ErrorKey] == S(renderJson(error.AsJson()))
    ensures !Reserved(partitionKey) ==> r.value[partitionKey] == S(ticket)
    ensures !Reserved(partitionKey) ==> (OutputKey in r.value <==> OutputKey in builder)
  {
    var status := NatToString(error.StatusCode());
    var text := renderJson(error.AsJson());
    ResultFields(builder, partitionKey, ticket, ttl, now, status, false, ErrorKey, S(text));
    Ok(WithResult(AddCommonItems(builder, partitionKey, ticket, ttl, now), status, false, ErrorKey, S(text)))
  }

  /** The keys and values of a complete result item, for any status text
      and payload. */
  lemma ResultFields(builder: Item, partitionKey: string, ticket: Ticket, ttl: Duration, now: int,
                     status: string, success: bool, payloadKey: string, payload: AttributeValue)
    requires now <= MaxUtcNanos
    requires payloadKey == OutputKey || payloadKey == ErrorKey
    ensures var item := WithResult(AddCommonItems(builder, partitionKey, ticket, ttl, now), status, success,
                                   payloadKey, payload);
            && item.Keys == builder.Keys + {partitionKey, TtlKey, StatusKey, SuccessKey, payloadKey}
            && item[StatusKey] == N(status) && item[SuccessKey] == Bool(success) && item[payloadKey] == payload
            && (!Reserved(partitionKey) ==> item[partitionKey] == S(ticket))
            && (!Reserved(partitionKey) && payloadKey == ErrorKey ==> (OutputKey in item <==> OutputKey in builder))
            && (!Reserved(partitionKey) && payloadKey == OutputKey ==> (ErrorKey in item <==> ErrorKey in builder))
  {
  }

  /** `report_ticket_result`: the success encoder for `Ok`, the failure
      encoder for `Err`. */
  function ReportTicketResult<O>(builder: Item, partitionKey: string, ticket: Ticket, result: Result<O, CoffeeShopError>,
                                 ttl: Duration, now: int, serialize: O -> Result<seq<Byte>, CoffeeShopError>,
                                 renderJson: Json -> string)
    : (r: Result<Item, CoffeeShopError>)
    requires now <= MaxUtcNanos
    ensures result.Ok? ==> r == ReportTicketSuccess(builder, partitionKey, ticket, result.value, ttl, now, serialize)
    ensures result.Err? ==> r == ReportTicketFailure(builder, partitionKey, ticket, result.error, ttl, now, renderJson)
  {
    match result
    case Ok(output) => ReportTicketSuccess(builder, partitionKey, ticket, output, ttl, now, serialize)
    case Err(error) => ReportTicketFailure(builder, partitionKey, ticket, error, ttl, now, renderJson)
  }
}
