/** The hello-world Python client: a blocking request, an asynchronous
    request that polls for its ticket until the wait stops timing out, and
    the tally of the outcomes. The server's responses are a script; the
    concurrent fan-out of the calls is not modelled. */
module HelloClient {
  import opened Wrappers
  import opened Text
  import opened JsonValue
  import opened Sets

  /** The requests the client makes: a POST to `/request`, or a GET to
      `/retrieve` for a ticket. */
  datatype Request =
    | Submit(language: string, timeout: Option<real>, isAsync: bool, name: string, age: int)
    | Retrieve(ticket: Json, wait: int)

  datatype Response = Response(status: int, body: Json)

  /** How a client call ends: with the status and body it returns, with
      the exception that reading a missing ticket raises, or still polling
      when the script of responses runs out. */
  datatype CallOutcome = Returned(status: int, body: Json) | NoTicket | StillPolling

  const Accepted := 202
  const RequestTimeout := 408
  const Ok200 := 200
  /** The wait the client asks the server for on each poll. */
  const PollWait := 5

  /** `request_sync`: one blocking POST, whose response is returned
      unchanged. */
  function RequestSync(name: string, age: int, language: string, timeout: Option<real>, response: Response)
    : (r: (Request, CallOutcome))
    ensures r.0 == Submit(language, timeout, false, name, age)
    ensures r.1 == Returned(response.status, response.body)
  {
    (Submit(language, timeout, false, name, age), Returned(response.status, response.body))
  }

  /** `ticket.json()["ticket"]`: present only when the body is an object
      with that key. */
  function TicketOf(body: Json): (t: Option<Json>)
    ensures t.Some? <==> body.JObj? && "ticket" in body.fields
    ensures t.Some? ==> t.value == body.fields["ticket"]
  {
    if body.JObj? && "ticket" in body.fields then Some(body.fields["ticket"]) else None
  }

  /** The index of the first poll response that is not a timeout, or the
      number of responses when all of them are. */
  function FirstFinal(polls: seq<Response>): (k: nat)
    ensures k <= |polls|
    ensures forall i :: 0 <= i < k ==> polls[i].status == RequestTimeout
    ensures k < |polls| ==> polls[k].status != RequestTimeout
  {
    if |polls| == 0 || polls[0].status != RequestTimeout then 0 else 1 + FirstFinal(polls[1..])
  }

  /** `request_async`: submits the request; on a status other than 202
      returns that response, otherwise polls with the ticket, sleeping a
      second after each 408, and returns the first other response. */
  method RequestAsync(name: string, age: int, language: string, timeout: Option<real>,
                      submitted: Response, polls: seq<Response>)
    returns (outcome: CallOutcome, requests: seq<Request>, sleeps: nat)
    ensures |requests| >= 1 && requests[0] == Submit(language, timeout, true, name, age)
    ensures submitted.status != Accepted ==>
              outcome == Returned(submitted.status, submitted.body) && |requests| == 1 && sleeps == 0
    ensures submitted.status == Accepted && TicketOf(submitted.body).None? ==>
              outcome == NoTicket && |requests| == 1 && sleeps == 0
    ensures submitted.status == Accepted && TicketOf(submitted.body).Some? ==>
              var k := FirstFinal(polls);
              && (forall i :: 1 <= i < |requests| ==> requests[i] == Retrieve(TicketOf(submitted.body).value, PollWait))
              && sleeps == k
              && (k < |polls| ==> outcome == Returned(polls[k].status, polls[k].body) && |requests| == k + 2)
              && (k == |polls| ==> outcome == StillPolling && |requests| == k + 1)
  {
    requests := [Submit(language, timeout, true, name, age)];
    sleeps := 0;
    if submitted.status != Accepted {
      return Returned(submitted.status, submitted.body), requests, sleeps;
    }
    var ticket := TicketOf(submitted.body);
    if ticket.None? {
      return NoTicket, requests, sleeps;
    }
    var i := 0;
    while i < |polls|
      invariant 0 <= i <= |polls| && i <= FirstFinal(polls)
      invariant sleeps == i && |requests| == i + 1 && requests[0] == Submit(language, timeout, true, name, age)
      invariant forall j :: 1 <= j < |requests| ==> requests[j] == Retrieve(ticket.value, PollWait)
    {
      requests := requests + [Retrieve(ticket.value, PollWait)];
      var response := polls[i];
      if response.status != RequestTimeout {
        return Returned(response.status, response.body), requests, sleeps;
      }
      sleeps := sleeps + 1;
      i := i + 1;
    }
    outcome := StillPolling;
  }

  /** `k` timeouts followed by a final response give `k` sleeps and
      `k + 1` polls, and the final response is the outcome. */
  lemma {:induction false} TimeoutsThenFinal(k: nat, final: Response, rest: seq<Response>)
    requires final.status != RequestTimeout
    ensures var polls := seq(k, _ => Response(RequestTimeout, JNull)) + [final] + rest;
            FirstFinal(polls) == k && polls[k] == final
  {
    var polls := seq(k, _ => Response(RequestTimeout, JNull)) + [final] + rest;
    if k > 0 {
      TimeoutsThenFinal(k - 1, final, rest);
      assert polls[1..] == seq(k - 1, _ => Response(RequestTimeout, JNull)) + [final] + rest;
    } else {
      assert polls[0] == final;
    }
  }

  /** One planned call of `main`. */
  datatype PlannedCall = PlannedCall(isAsync: bool, name: string, age: int, language: string, timeout: Option<real>)

  function WorkerName(i: nat): string {
    "Worker #" + NatToString(i)
  }

  /** The calls `main` makes, in the order their outcomes are listed: the
      blocking ones first, then the asynchronous ones, each in index
      order. */
  function Planned(syncCount: nat, asyncCount: nat): (calls: seq<PlannedCall>)
    ensures |calls| == syncCount + asyncCount
    ensures forall i :: 0 <= i < syncCount ==> calls[i] == PlannedCall(false, WorkerName(i), 18, "en", Some(180.0))
    ensures forall i :: syncCount <= i < syncCount + asyncCount ==>
              calls[i] == PlannedCall(true, WorkerName(i - syncCount), 25, "en", Some(180.0))
  {
    seq(syncCount, i requires 0 <= i < syncCount => PlannedCall(false, WorkerName(i), 18, "en", Some(180.0)))
    + seq(asyncCount, i requires 0 <= i < asyncCount => PlannedCall(true, WorkerName(i), 25, "en", Some(180.0)))
  }

  /** The bodies of the outcomes with status 200, in order. */
  function Good(results: seq<(int, Json)>): (good: seq<Json>)
  {
    if |results| == 0 then []
    else (if results[0].0 == Ok200 then [results[0].1] else []) + Good(results[1..])
  }

  /** The bodies of all other outcomes, in order. */
  function Bad(results: seq<(int, Json)>): (bad: seq<Json>)
  {
    if |results| == 0 then []
    else (if results[0].0 != Ok200 then [results[0].1] else []) + Bad(results[1..])
  }

  function Bodies(results: seq<(int, Json)>): (bodies: seq<Json>)
    ensures |bodies| == |results| && forall i :: 0 <= i < |results| ==> bodies[i] == results[i].1
  {
    seq(|results|, i requires 0 <= i < |results| => results[i].1)
  }

  /** Every outcome lands in exactly one of the two lists. */
  lemma {:induction false} GoodBadPartition(results: seq<(int, Json)>)
    ensures |Good(results)| + |Bad(results)| == |results|
    ensures multiset(Good(results)) + multiset(Bad(results)) == multiset(Bodies(results))
  {
    if |results| > 0 {
      GoodBadPartition(results[1..]);
      assert Bodies(results) == [results[0].1] + Bodies(results[1..]);
    }
  }

  lemma GoodStep(results: seq<(int, Json)>, i: nat)
    requires i < |results|
    ensures Good(results[..i + 1]) == Good(results[..i]) + (if results[i].0 == Ok200 then [results[i].1] else [])
    ensures Bad(results[..i + 1]) == Bad(results[..i]) + (if results[i].0 != Ok200 then [results[i].1] else [])
  {
    GoodAppend(results[..i], results[i]);
    assert results[..i + 1] == results[..i] + [results[i]];
  }

  lemma {:induction false} GoodAppend(results: seq<(int, Json)>, last: (int, Json))
    ensures Good(results + [last]) == Good(results) + (if last.0 == Ok200 then [last.1] else [])
    ensures Bad(results + [last]) == Bad(results) + (if last.0 != Ok200 then [last.1] else [])
  {
    if |results| > 0 {
      assert (results + [last])[1..] == results[1..] + [last];
      GoodAppend(results[1..], last);
    }
  }

  /** The loop of `main` that sorts the outcomes by status. */
  method Partition(results: seq<(int, Json)>) returns (good: seq<Json>, bad: seq<Json>)
    ensures good == Good(results) && bad == Bad(results)
  {
    good, bad := [], [];
    for i := 0 to |results|
      invariant good == Good(results[..i]) && bad == Bad(results[..i])
    {
      GoodStep(results, i);
      var (status, result) := results[i];
      if status == Ok200 {
        good := good + [result];
      } else {
        bad := bad + [result];
      }
    }
    assert results[..|results|] == results;
  }

  /** `result["output"]["greeting"]`, present only when both keys are. */
  function GreetingOf(body: Json): (g: Option<Json>)
    ensures g.Some? <==> body.JObj? && "output" in body.fields && body.fields["output"].JObj?
                         && "greeting" in body.fields["output"].fields
  {
    if body.JObj? && "output" in body.fields && body.fields["output"].JObj?
       && "greeting" in body.fields["output"].fields
    then Some(body.fields["output"].fields["greeting"])
    else None
  }

  /** The set of greetings over the good results, or `None` when reading
      one of them raises. */
  function DistinctGreetings(good: seq<Json>): (r: Option<set<Json>>)
    ensures r.None? <==> exists i :: 0 <= i < |good| && GreetingOf(good[i]).None?
    ensures r.Some? ==> forall g :: g in r.value <==> exists i :: 0 <= i < |good| && GreetingOf(good[i]) == Some(g)
  {
    if exists i :: 0 <= i < |good| && GreetingOf(good[i]).None? then None
    else Some(set i | 0 <= i < |good| :: GreetingOf(good[i]).value)
  }

  /** There are never more distinct greetings than good results. */
  lemma {:induction false} DistinctGreetingsBound(good: seq<Json>)
    requires DistinctGreetings(good).Some?
    ensures |DistinctGreetings(good).value| <= |good|
  {
    if |good| > 0 {
      var rest := good[..|good| - 1];
      DistinctGreetingsSnoc(good);
      DistinctGreetingsBound(rest);
      var last := GreetingOf(good[|good| - 1]).value;
      SubsetCardinality(DistinctGreetings(good).value, DistinctGreetings(rest).value + {last});
    }
  }

  /** The greetings of a list are those of its prefix plus the last one. */
  lemma DistinctGreetingsSnoc(good: seq<Json>)
    requires |good| > 0 && DistinctGreetings(good).Some?
    ensures DistinctGreetings(good[..|good| - 1]).Some?
    ensures DistinctGreetings(good).value
            <= DistinctGreetings(good[..|good| - 1]).value + {GreetingOf(good[|good| - 1]).value}
  {
    var rest := good[..|good| - 1];
    forall i | 0 <= i < |rest| ensures GreetingOf(rest[i]).Some? {
      assert rest[i] == good[i];
    }
    var last := GreetingOf(good[|good| - 1]).value;
    forall g | g in DistinctGreetings(good).value ensures g in DistinctGreetings(rest).value + {last} {
      var i :| 0 <= i < |good| && GreetingOf(good[i]) == Some(g);
      if i < |good| - 1 { assert rest[i] == good[i]; }
    }
  }
}
