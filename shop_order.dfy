/** The shop's order lookups and get-or-insert spawning over the order
    chain (`Orders`: a chain of orders keyed by ticket). */
module ShopOrders {
  import opened Wrappers
  import opened ChainErrors
  import opened ChainSegment
  import opened OrderChain
  import opened Orders
  import opened ShopError

  /** `Shop::get_order`: the chain lookup. */
  method GetOrder(orders: Chain<Ticket, Order>, ticket: Ticket) returns (r: Option<Segment<Ticket, Order>>)
    ensures r == Find(orders.segments, ticket)
    ensures r.Some? ==> r.value.key == ticket
    ensures r.None? <==> KeyAbsent(orders.segments, ticket)
  {
    r := orders.Get(ticket);
  }

  /** `Shop::has_order`: whether the chain lookup finds the ticket. */
  method HasOrder(orders: Chain<Ticket, Order>, ticket: Ticket) returns (b: bool)
    ensures b <==> !KeyAbsent(orders.segments, ticket)
  {
    var found := GetOrder(orders, ticket);
    b := found.Some?;
  }

  /** `Shop::spawn_order`: inserts a new order for the ticket, or, when the
      chain reports the key as taken, returns the segment that holds it.
      The caller keeps the returned reference, so the segment at `at` gains
      one outside reference. */
  method SpawnOrder(orders: Chain<Ticket, Order>, ticket: Ticket) returns (segment: Segment<Ticket, Order>, at: nat)
    requires orders.Valid()
    modifies orders
    ensures orders.Valid() && at < |orders.segments| && orders.segments[at] == segment
    ensures segment.key == ticket
    ensures InsertAccepts(old(orders.segments), ticket) ==>
              orders.segments == old(orders.segments) + [segment] && at == |old(orders.segments)|
              && fresh(segment.value) && segment.value.ticket == ticket && segment.value.result.None?
              && orders.refs == old(orders.refs) + [1]
    ensures !InsertAccepts(old(orders.segments), ticket) ==>
              orders.segments == old(orders.segments)
              && at == (if old(orders.segments)[0].key == ticket then 0 else |old(orders.segments)| - 1)
              && orders.refs == old(orders.refs)[at := old(orders.refs)[at] + 1]
  {
    var order := new Order(ticket);
    InsertOutcome(orders.segments, ticket, order);
    var inserted := orders.Insert(ticket, order);
    match inserted {
      case Ok(s) =>
        segment := s;
        at := |orders.segments| - 1;
      case Err(KeyAlreadyExists(existing, _)) =>
        segment := existing;
        at := if orders.segments[0].key == ticket then 0 else |orders.segments| - 1;
      case Err(NotTail(_)) =>
        assert false;
    }
    orders.Hold(at);
  }
}
