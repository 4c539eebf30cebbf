/** `Shop` as built by `Shop::new`, with its map of orders keyed by ticket,
    and the collection point's purge of stale orders. The AWS configuration
    type is a parameter; loading it and creating the temporary directory are
    outcomes supplied by the caller. */
module ShopBase {
  import opened Wrappers
  import opened Durations
  import opened ShopError
  import opened Cli
  import opened Orders
  import opened Baristas
  import opened Sets

  const DynamodbTablePrefix := "task-queue-"
  const SqsQueuePrefix := "task-queue-"

  /** The table a shop named `name` uses: the configured one, or the
      prefixed shop name. */
  function TableName(configured: Option<string>, prefix: string, name: string): (t: string)
    ensures configured.Some? ==> t == configured.value
    ensures configured.None? ==> |t| == |prefix| + |name| && t[..|prefix|] == prefix && t[|prefix|..] == name
  {
    match configured
    case Some(table) => table
    case None => prefix + name
  }

  /** The orders that survive a purge: every order that is not stale under
      `maxAge` at `now`, with `strongCount(t)` references to the order of
      ticket `t`. */
  function Retained(orders: map<Ticket, Order>, maxAge: Duration, now: Instant, strongCount: Ticket -> nat)
    : (r: map<Ticket, Order>)
    reads orders.Values
    ensures forall t :: t in r ==> t in orders && r[t] == orders[t] && !orders[t].IsStale(maxAge, now, strongCount(t))
    ensures forall t :: t in orders && !orders[t].IsStale(maxAge, now, strongCount(t)) ==> t in r
    ensures |r| <= |orders|
  {
    var r := map t | t in orders && !orders[t].IsStale(maxAge, now, strongCount(t)) :: orders[t];
    SubsetCardinality(r.Keys, orders.Keys);
    r
  }

  class Shop<Aws> {
    /** The task this shop serves; multicast messages carry it. */
    const name: string
    /** The configuration, with the table and queue names taken out. */
    const config: Config
    const dynamodbTable: string
    const sqsQueue: string
    const awsConfig: Aws
    const baristas: seq<Barista>
    /** The orders placed at this shop, keyed by ticket. */
    var orders: map<Ticket, Order>

    constructor Build(name: string, config: Config, dynamodbTable: string, sqsQueue: string,
                      awsConfig: Aws, baristas: seq<Barista>)
      ensures this.name == name && this.config == config && this.dynamodbTable == dynamodbTable
      ensures this.sqsQueue == sqsQueue && this.awsConfig == awsConfig && this.baristas == baristas
      ensures orders == map[]
    {
      this.name := name;
      this.config := config;
      this.dynamodbTable := dynamodbTable;
      this.sqsQueue := sqsQueue;
      this.awsConfig := awsConfig;
      this.baristas := baristas;
      orders := map[];
    }

    /** `Shop::new`: the table and queue names default to the prefixed shop
        name; `awsConfig` is used when given, and `loadAws` (the SDK's own
        loading) otherwise; `tempDir` is the outcome of creating the
        temporary directory. The shop gets `baristaCount` fresh baristas and
        no orders. */
    static method New(name: string, config: Config, awsConfig: Option<Aws>, loadAws: Result<Aws, CoffeeShopError>,
                      tempDir: Result<(), string>, baristaCount: nat)
      returns (r: Result<Shop<Aws>, CoffeeShopError>)
      ensures awsConfig.None? && loadAws.Err? ==> r == Err(loadAws.error)
      ensures (awsConfig.Some? || loadAws.Ok?) && tempDir.Err? ==> r == Err(TempDirCreationFailure(tempDir.error))
      ensures (awsConfig.Some? || loadAws.Ok?) && tempDir.Ok? ==>
                && r.Ok? && fresh(r.value)
                && r.value.name == name
                && r.value.dynamodbTable == TableName(config.dynamodbTable, DynamodbTablePrefix, name)
                && r.value.sqsQueue == TableName(config.sqsQueue, SqsQueuePrefix, name)
                && r.value.config == config.(dynamodbTable := None, sqsQueue := None)
                && r.value.awsConfig == (if awsConfig.Some? then awsConfig.value else loadAws.value)
                && |r.value.baristas| == baristaCount
                && (forall i :: 0 <= i < baristaCount ==> fresh(r.value.baristas[i]) && r.value.baristas[i].processCount == 0)
                && r.value.orders == map[]
    {
      var dynamodbTable := TableName(config.dynamodbTable, DynamodbTablePrefix, name);
      var sqsQueue := TableName(config.sqsQueue, SqsQueuePrefix, name);
      var rest := config.(dynamodbTable := None, sqsQueue := None);
      var aws;
      match awsConfig {
        case Some(given) => aws := given;
        case None =>
          if loadAws.Err? {
            return Err(loadAws.error);
          }
          aws := loadAws.value;
      }
      if tempDir.Err? {
        return Err(TempDirCreationFailure(tempDir.error));
      }
      var baristas: seq<Barista> := [];
      while |baristas| < baristaCount
        invariant |baristas| <= baristaCount
        invariant forall i :: 0 <= i < |baristas| ==> fresh(baristas[i]) && baristas[i].processCount == 0
      {
        var barista := new Barista();
        baristas := baristas + [barista];
      }
      var shop := new Shop.Build(name, rest, dynamodbTable, sqsQueue, aws, baristas);
      r := Ok(shop);
    }

    /** `spawn_order`: the order of `ticket`, created when there is none. */
    method SpawnOrder(ticket: Ticket) returns (order: Order)
      modifies this
      ensures ticket in orders && orders[ticket] == order
      ensures ticket in old(orders) ==> orders == old(orders)
      ensures ticket !in old(orders) ==>
                fresh(order) && order.ticket == ticket && order.result.None? && orders == old(orders)[ticket := order]
      ensures |orders| <= |old(orders)| + 1
    {
      if ticket in orders {
        return orders[ticket];
      }
      order := new Order(ticket);
      orders := orders[ticket := order];
    }

    /** `purge_stale_orders`: drops every stale order; `purged` is the
        number dropped, which the source logs. It never fails. */
    method PurgeStaleOrders(maxAge: Duration, now: Instant, strongCount: Ticket -> nat)
      returns (r: Result<(), CoffeeShopError>, purged: nat)
      modifies this
      ensures orders == Retained(old(orders), maxAge, now, strongCount)
      ensures forall t :: t in orders ==> !orders[t].IsStale(maxAge, now, strongCount(t))
      ensures purged == |old(orders)| - |orders|
      ensures r == Ok(())
    {
      var originalLength := |orders|;
      orders := Retained(orders, maxAge, now, strongCount);
      purged := originalLength - |orders|;
      r := Ok(());
    }
  }

  /** A purge keeps exactly the orders that are not stale, so purging again
      at the same moment drops nothing. */
  lemma RetainedIdempotent(orders: map<Ticket, Order>, maxAge: Duration, now: Instant, strongCount: Ticket -> nat)
    ensures Retained(Retained(orders, maxAge, now, strongCount), maxAge, now, strongCount)
            == Retained(orders, maxAge, now, strongCount)
  {
  }

  /** An order that is not yet fulfilled survives every purge. */
  lemma UnfulfilledSurvives(orders: map<Ticket, Order>, t: Ticket, maxAge: Duration, now: Instant,
                            strongCount: Ticket -> nat)
    requires t in orders && !orders[t].IsFulfilled()
    ensures t in Retained(orders, maxAge, now, strongCount)
  {
    UnfulfilledNeverStale(orders[t], maxAge, now, strongCount(t));
  }
}
