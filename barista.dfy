/** `Barista`: the worker that takes a ticket from the queue, runs the
    coffee machine on it, stores the result and announces it. The queue,
    the table, the machine and the multicast socket are abstracted: their
    outcomes are parameters. */
module Baristas {
  import opened Wrappers
  import opened Durations
  import opened ErrorSchemas
  import opened ShopError
  import opened StagedReceipts
  import opened MulticastMessages

  /** The errors that end `serve`; every other one is logged and the loop
      goes on. */
  predicate StopsServing(e: CoffeeShopError) {
    e.AWSQueueDoesNotExist? || e.AWSDynamoDBTableDoesNotExist? || e.InvalidConfiguration? || e.AWSCredentialsError?
  }

  /** One pass of the `serve` loop, as it is observed: whether shutdown was
      requested before it, and what processing the next ticket gave. */
  datatype Round = Round(shutdownRequested: bool, outcome: Result<(), CoffeeShopError>)

  /** Where `serve` ends over the given rounds: `None` when it is still
      serving after the last one. */
  function ServeSpec(rounds: seq<Round>): (r: Option<Result<(), CoffeeShopError>>)
  {
    if |rounds| == 0 then None
    else if rounds[0].shutdownRequested then Some(Ok(()))
    else if rounds[0].outcome.Err? && StopsServing(rounds[0].outcome.error) then Some(rounds[0].outcome)
    else ServeSpec(rounds[1..])
  }

  /** The announced status: `Error` when the result could not be stored,
      and otherwise whether the machine succeeded. */
  function AnnouncedStatus<O>(processed: Result<O, CoffeeShopError>, stored: Result<(), CoffeeShopError>)
    : (s: MulticastMessageStatus)
    ensures s == Error <==> stored.Err?
    ensures s == Success <==> stored.Ok? && processed.Ok?
    ensures s == Aborted <==> stored.Ok? && processed.Err?
  {
    if stored.Err? then Error else if processed.Ok? then Success else Aborted
  }

  class Barista {
    /** The number of tickets this barista has started processing. */
    var processCount: nat

    /** `Barista::new`. */
    constructor ()
      ensures processCount == 0
    {
      processCount := 0;
    }

    /** `get_process_count`. */
    function GetProcessCount(): (n: nat)
      reads this
      ensures n == processCount
    {
      processCount
    }

    /** `process_ticket`: counts the ticket and runs the machine on its
        query and input; a machine failure becomes `ProcessingError`. */
    method ProcessTicket<Q, I, O>(receipt: StagedReceipt<Q, I>, machine: (Q, Option<I>) -> Result<O, ErrorSchema>)
      returns (r: Result<O, CoffeeShopError>)
      modifies this
      ensures processCount == old(processCount) + 1
      ensures machine(receipt.Query(), receipt.Input()).Ok? ==> r == Ok(machine(receipt.Query(), receipt.Input()).value)
      ensures machine(receipt.Query(), receipt.Input()).Err? ==>
                r == Err(ProcessingError(machine(receipt.Query(), receipt.Input()).error))
    {
      processCount := processCount + 1;
      var outcome := machine(receipt.Query(), receipt.Input());
      r := match outcome
           case Ok(o) => Ok(o)
           case Err(e) => Err(ProcessingError(e));
    }

    /** `process_next_ticket`: with the retrieved receipt, processes the
        ticket, stores the result, announces the status, then deletes the
        receipt when the result was stored and aborts it otherwise.
        Announcement and acknowledgement failures are ignored; the result
        is whether the result was stored. */
    method ProcessNextTicket<Q, I, O>(shopName: string, retrieved: Result<StagedReceipt<Q, I>, CoffeeShopError>,
                                      machine: (Q, Option<I>) -> Result<O, ErrorSchema>,
                                      put: (Ticket, Result<O, CoffeeShopError>) -> Result<(), CoffeeShopError>,
                                      sdk: CompletionRequest -> Result<(), string>, now: Timestamp)
      returns (r: Result<(), CoffeeShopError>, announced: Option<MulticastMessage>)
      modifies this, if retrieved.Ok? then {retrieved.value} else {}
      ensures retrieved.Err? ==> r == Err(retrieved.error) && announced.None? && processCount == old(processCount)
      ensures retrieved.Ok? ==>
                var receipt := retrieved.value;
                var m := machine(receipt.Query(), receipt.Input());
                var processed: Result<O, CoffeeShopError> := if m.Ok? then Ok(m.value) else Err(ProcessingError(m.error));
                var stored := put(receipt.ticket, processed);
                && processCount == old(processCount) + 1
                && announced == Some(New(shopName, receipt.ticket, MulticastMessageKind.Ticket,
                                         AnnouncedStatus(processed, stored), now))
                && receipt.completed == (if old(receipt.completed).Some? then old(receipt.completed)
                                         else Some(stored.Ok?))
                && r == (if stored.Ok? then Ok(()) else Err(stored.error))
    {
      if retrieved.Err? {
        return Err(retrieved.error), None;
      }
      var receipt := retrieved.value;
      var processed := ProcessTicket(receipt, machine);
      var stored := put(receipt.ticket, processed);
      var status := if stored.Ok? then (if processed.Ok? then Success else Aborted) else Error;
      announced := Some(New(shopName, receipt.ticket, MulticastMessageKind.Ticket, status, now));
      var acked;
      if stored.Ok? {
        acked := receipt.Delete(sdk);
      } else {
        acked := receipt.Abort(sdk);
      }
      r := if stored.Ok? then Ok(()) else Err(stored.error);
    }

    /** `serve`: checks the shutdown flag, then processes the next ticket,
        until shutdown is requested or an irrecoverable error comes back.
        The rounds are what each pass observes; `None` means the loop was
        still running when they ran out. */
    method Serve(rounds: seq<Round>) returns (r: Option<Result<(), CoffeeShopError>>, passes: nat)
      ensures r == ServeSpec(rounds)
      ensures passes <= |rounds| && (r.None? ==> passes == |rounds|)
      ensures r.Some? ==> ServeSpec(rounds[passes..]) == r && passes < |rounds|
    {
      passes := 0;
      while passes < |rounds|
        invariant 0 <= passes <= |rounds|
        invariant ServeSpec(rounds) == ServeSpec(rounds[passes..])
      {
        var round := rounds[passes];
        if round.shutdownRequested {
          return Some(Ok(())), passes;
        }
        match round.outcome {
          case Err(e) =>
            if StopsServing(e) {
              return Some(Err(e)), passes;
            }
          case Ok(_) =>
        }
        assert rounds[passes..][1..] == rounds[passes + 1..];
        passes := passes + 1;
      }
      r := None;
    }
  }

  /** `serve` ends with `Ok` only on a shutdown request, and with an error
      only an irrecoverable one that some pass returned; an empty queue
      never ends it. */
  lemma {:induction false} ServeEnds(rounds: seq<Round>)
    ensures ServeSpec(rounds) == Some(Ok(())) ==> exists i :: 0 <= i < |rounds| && rounds[i].shutdownRequested
    ensures ServeSpec(rounds).Some? && ServeSpec(rounds).value.Err? ==>
              StopsServing(ServeSpec(rounds).value.error)
              && exists i :: 0 <= i < |rounds| && rounds[i].outcome == ServeSpec(rounds).value
    ensures ServeSpec(rounds).None? <==>
              forall i :: 0 <= i < |rounds| ==>
                !rounds[i].shutdownRequested && !(rounds[i].outcome.Err? && StopsServing(rounds[i].outcome.error))
  {
    if |rounds| > 0 && !rounds[0].shutdownRequested
       && !(rounds[0].outcome.Err? && StopsServing(rounds[0].outcome.error)) {
      ServeEnds(rounds[1..]);
      if ServeSpec(rounds) == Some(Ok(())) {
        var i :| 0 <= i < |rounds| - 1 && rounds[1..][i].shutdownRequested;
        assert rounds[i + 1].shutdownRequested;
      }
      if ServeSpec(rounds).Some? && ServeSpec(rounds).value.Err? {
        var i :| 0 <= i < |rounds| - 1 && rounds[1..][i].outcome == ServeSpec(rounds).value;
        assert rounds[i + 1].outcome == ServeSpec(rounds).value;
      }
      if ServeSpec(rounds).None? {
        forall i | 0 <= i < |rounds|
          ensures !rounds[i].shutdownRequested && !(rounds[i].outcome.Err? && StopsServing(rounds[i].outcome.error))
        {
          if i > 0 { assert rounds[i] == rounds[1..][i - 1]; }
        }
      } else {
        var i :| 0 <= i < |rounds| - 1 && (rounds[1..][i].shutdownRequested
                 || (rounds[1..][i].outcome.Err? && StopsServing(rounds[1..][i].outcome.error)));
        assert rounds[i + 1] == rounds[1..][i];
      }
    }
  }

  /** An empty queue, reported once per pass, keeps the barista serving
      until shutdown is requested. */
  lemma EmptyQueueKeepsServing(timeout: Duration)
    ensures ServeSpec([Round(false, Err(AWSSQSQueueEmpty(timeout))), Round(true, Ok(()))]) == Some(Ok(()))
    ensures ServeSpec([Round(false, Err(AWSSQSQueueEmpty(timeout)))]).None?
  {
    var rounds := [Round(false, Err(AWSSQSQueueEmpty(timeout))), Round(true, Ok(()))];
    assert rounds[1..] == [Round(true, Ok(()))];
  }
}
