/** `Order`: the waiter's record of one ticket, whose result is set at most
    once. Time is a monotonic clock reading in nanoseconds (`Instant`); the
    number of strong references to the order is given by the caller. */
module Orders {
  import opened Wrappers
  import opened Durations
  import opened ShopError

  /** A reading of the monotonic clock, in nanoseconds. */
  type Instant = int

  /** `Instant::elapsed` read at `now`: the time from `since` to `now`, or
      zero when `since` is later than `now`. */
  function Elapsed(since: Instant, now: Instant): (d: Duration)
    ensures since <= now ==> since + d == now
    ensures now < since ==> d == 0
  {
    if since <= now then now - since else 0
  }

  class Order {
    const ticket: Ticket
    /** The completion time and whether the ticket succeeded; written once. */
    var result: Option<(Instant, bool)>

    /** `Order::new`: an order without a result. */
    constructor (ticket: Ticket)
      ensures this.ticket == ticket && result == None
    {
      this.ticket := ticket;
      result := None;
    }

    /** `is_fulfilled`. */
    function IsFulfilled(): (b: bool)
      reads this
      ensures b <==> result.Some?
    {
      result.Some?
    }

    /** `age_of_result` at `now`: none until the order is completed. */
    function AgeOfResult(now: Instant): (age: Option<Duration>)
      reads this
      ensures age.None? <==> !IsFulfilled()
      ensures age.Some? && result.value.0 <= now ==> result.value.0 + age.value == now
    {
      match result
      case None => None
      case Some((instant, _)) => Some(Elapsed(instant, now))
    }

    /** `is_stale` at `now`, with `strongCount` strong references to the
        order: a completed result older than `maxAge` that no one else
        holds. */
    function IsStale(maxAge: Duration, now: Instant, strongCount: nat): (b: bool)
      reads this
    {
      match AgeOfResult(now)
      case Some(age) => strongCount <= 1 && age > maxAge
      case None => false
    }

    /** `complete_with_timestamp`: records the first result; any later one
        fails with `ResultAlreadySet` and the first is kept. */
    method CompleteWithTimestamp(success: bool, timestamp: Instant) returns (r: Result<(), CoffeeShopError>)
      modifies this
      ensures old(result).None? ==> r == Ok(()) && result == Some((timestamp, success))
      ensures old(result).Some? ==> r == Err(ResultAlreadySet) && result == old(result)
    {
      if result.Some? {
        return Err(ResultAlreadySet);
      }
      result := Some((timestamp, success));
      r := Ok(());
    }

    /** `complete`: completion stamped with the current time `now`. */
    method Complete(success: bool, now: Instant) returns (r: Result<(), CoffeeShopError>)
      modifies this
      ensures old(result).None? ==> r == Ok(()) && result == Some((now, success))
      ensures old(result).Some? ==> r == Err(ResultAlreadySet) && result == old(result)
    {
      r := CompleteWithTimestamp(success, now);
    }
  }

  /** An order is stale exactly when at most the caller holds it, it has a
      result, and the result is older than `maxAge`. */
  lemma StaleIff(o: Order, maxAge: Duration, now: Instant, strongCount: nat)
    ensures o.IsStale(maxAge, now, strongCount)
            <==> strongCount <= 1 && o.result.Some? && Elapsed(o.result.value.0, now) > maxAge
  {
  }

  /** An order without a result is never stale. */
  lemma UnfulfilledNeverStale(o: Order, maxAge: Duration, now: Instant, strongCount: nat)
    requires !o.IsFulfilled()
    ensures !o.IsStale(maxAge, now, strongCount)
  {
  }

  /** A second live reference keeps an order from going stale; once it is
      dropped, the order is stale again if its result is old enough. */
  lemma ExtraReferencePreventsStaleness(o: Order, maxAge: Duration, now: Instant)
    ensures !o.IsStale(maxAge, now, 2)
    ensures o.IsStale(maxAge, now, 1) <==> o.IsFulfilled() && o.AgeOfResult(now).value > maxAge
  {
  }

  /** A stale order stays stale as time goes on. */
  lemma StaleStaysStale(o: Order, maxAge: Duration, now: Instant, later: Instant, strongCount: nat)
    requires now <= later && o.IsStale(maxAge, now, strongCount)
    ensures o.IsStale(maxAge, later, strongCount)
  {
  }

  /** A just completed order is not stale. */
  lemma FreshResultNotStale(o: Order, maxAge: Duration, now: Instant, strongCount: nat)
    requires o.result.Some? && o.result.value.0 == now
    ensures !o.IsStale(maxAge, now, strongCount)
  {
  }
}
