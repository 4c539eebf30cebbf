/** The shop's `Config` and its builders. Each builder takes the
    configuration by value and gives back the updated one, or an error when
    the new value is refused. */
module Cli {
  import opened Wrappers
  import opened Text
  import opened Net
  import opened ShopError

  type U16 = x: int | 0 <= x < 65536

  const DefaultHost := Ipv4(0, 0, 0, 0)
  const DefaultPort: Port := 7007
  const MulticastHost := Ipv4(224, 0, 0, 249)
  const MulticastPort: Port := 65355
  const DefaultBaristas: U16 := 1
  const DefaultPartitionKey := "identifier"
  const DefaultResultTtl: real := 7200.0
  const MaxTickets: nat := 1024

  datatype Config = Config(
    host: Ipv4,
    port: Port,
    multicastHost: Ipv4,
    multicastPort: Port,
    baristas: U16,
    maxTickets: nat,
    dynamodbTable: Option<string>,
    dynamodbPartitionKey: string,
    resultTtl: real,
    maxExecutionTime: Option<real>,
    sqsQueue: Option<string>)

  /** `Config::default`, which `Config::new` returns. */
  function Default(): Config {
    Config(DefaultHost, DefaultPort, MulticastHost, MulticastPort, DefaultBaristas, MaxTickets,
           None, DefaultPartitionKey, DefaultResultTtl, None, None)
  }

  /** `IpAddr::is_multicast` for a version 4 address: 224.0.0.0/4. */
  predicate IsMulticast(ip: Ipv4) {
    224 <= ip.a <= 239
  }

  /** The class-D range of section 4 of RFC 1112: the four high-order bits
      of the address are `1110`. */
  lemma IsMulticastHighBits(ip: Ipv4)
    ensures IsMulticast(ip) <==> ip.Bits() / 0x1000_0000 == 0xE
  {
    var low := (ip.b * 256 + ip.c) * 256 + ip.d;
    assert 0 <= low < 0x100_0000;
    assert ip.Bits() == ip.a * 0x100_0000 + low;
    assert ip.Bits() / 0x1000_0000 == ip.a / 16;
  }

  function ValidateMulticastAddr(c: Config): (r: Result<Config, CoffeeShopError>)
    ensures r.Ok? <==> IsMulticast(c.multicastHost)
    ensures r.Ok? ==> r.value == c
    ensures r.Err? ==> r.error == InvalidMulticastAddress(c.multicastHost)
  {
    if IsMulticast(c.multicastHost) then Ok(c) else Err(InvalidMulticastAddress(c.multicastHost))
  }

  function WithHostAddr(c: Config, addr: SocketAddr): (r: Config)
    ensures r == c.(host := addr.ip, port := addr.port)
  {
    c.(port := addr.port).(host := addr.ip)
  }

  /** Sets the multicast host and port, then refuses a host outside 224.0.0.0/4. */
  function WithMulticastAddr(c: Config, addr: SocketAddr): (r: Result<Config, CoffeeShopError>)
    ensures r.Ok? <==> IsMulticast(addr.ip)
    ensures r.Ok? ==> r.value == c.(multicastHost := addr.ip, multicastPort := addr.port)
    ensures r.Err? ==> r.error == InvalidMulticastAddress(addr.ip)
  {
    ValidateMulticastAddr(c.(multicastPort := addr.port).(multicastHost := addr.ip))
  }

  function PositiveError(field: string, count: nat): CoffeeShopError {
    InvalidConfiguration(field, "must be positive number, found " + NatToString(count) + ".")
  }

  function Max(a: int, b: int): int { if a >= b then a else b }

  function WithBaristas(c: Config, count: U16): (r: Result<Config, CoffeeShopError>)
    ensures r.Ok? <==> count > 0
    ensures r.Ok? ==> r.value == c.(baristas := count)
    ensures r.Err? ==> r.error == InvalidConfiguration("baristas", "must be positive number, found 0.")
  {
    if count == 0 then
      assert NatToString(0) == [DigitChar(0)] == "0";
      assert "must be positive number, found " + "0" + "." == "must be positive number, found 0.";
      Err(PositiveError("baristas", count))
    else Ok(c.(baristas := Max(count, 1)))
  }

  function WithMaxTickets(c: Config, count: nat): (r: Result<Config, CoffeeShopError>)
    ensures r.Ok? <==> count > 0
    ensures r.Ok? ==> r.value == c.(maxTickets := count)
    ensures r.Err? ==> r.error == InvalidConfiguration("max_tickets", "must be positive number, found 0.")
  {
    if count == 0 then
      assert NatToString(0) == [DigitChar(0)] == "0";
      assert "must be positive number, found " + "0" + "." == "must be positive number, found 0.";
      Err(PositiveError("max_tickets", count))
    else Ok(c.(maxTickets := count))
  }

  function WithDynamodbTable(c: Config, table: string): (r: Config)
    ensures r == c.(dynamodbTable := Some(table))
  {
    c.(dynamodbTable := Some(table))
  }

  function WithDynamodbPartitionKey(c: Config, key: string): (r: Config)
    ensures r == c.(dynamodbPartitionKey := key)
  {
    c.(dynamodbPartitionKey := key)
  }

  function WithResultTtl(c: Config, ttl: real): (r: Config)
    ensures r == c.(resultTtl := ttl)
  {
    c.(resultTtl := ttl)
  }

  function WithSqsQueue(c: Config, queue: string): (r: Config)
    ensures r == c.(sqsQueue := Some(queue))
  {
    c.(sqsQueue := Some(queue))
  }

  function MulticastAddr(c: Config): (s: SocketAddr)
    ensures s.ip == c.multicastHost && s.port == c.multicastPort
  {
    SocketAddr(c.multicastHost, c.multicastPort)
  }

  function HostAddr(c: Config): (s: SocketAddr)
    ensures s.ip == c.host && s.port == c.port
  {
    SocketAddr(c.host, c.port)
  }

  /** The defaults pass every check the builders make: the default multicast
      host is class D and both counts are positive. */
  lemma DefaultIsValid()
    ensures ValidateMulticastAddr(Default()) == Ok(Default())
    ensures WithBaristas(Default(), Default().baristas) == Ok(Default())
    ensures WithMaxTickets(Default(), Default().maxTickets) == Ok(Default())
    ensures Default().multicastHost.Bits() / 0x1000_0000 == 0xE
  {
    IsMulticastHighBits(Default().multicastHost);
  }

  /** A builder round trip: setting the multicast address that is already
      stored gives back the same configuration exactly when it is valid. */
  lemma MulticastAddrRoundTrip(c: Config)
    ensures WithMulticastAddr(c, MulticastAddr(c)) ==
      (if IsMulticast(c.multicastHost) then Ok(c) else Err(InvalidMulticastAddress(c.multicastHost)))
  {
  }

  /** The plain setters touch disjoint fields, so they commute, and the
      last value set wins. */
  lemma SettersIndependent(c: Config, table: string, key: string, queue: string, other: string)
    ensures WithSqsQueue(WithDynamodbTable(c, table), queue) == WithDynamodbTable(WithSqsQueue(c, queue), table)
    ensures WithDynamodbPartitionKey(WithDynamodbTable(c, table), key)
            == WithDynamodbTable(WithDynamodbPartitionKey(c, key), table)
    ensures WithDynamodbTable(WithDynamodbTable(c, other), table) == WithDynamodbTable(c, table)
    ensures WithSqsQueue(c, queue).dynamodbTable == c.dynamodbTable
    ensures WithDynamodbTable(c, table).sqsQueue == c.sqsQueue
  {
  }
}
