/** Socket addresses as `std::net` renders them. */
module Net {
  import opened Text

  type Octet = x: int | 0 <= x < 256
  type Port = x: int | 0 <= x < 65536

  datatype Ipv4 = Ipv4(a: Octet, b: Octet, c: Octet, d: Octet) {
    /** The address as a big-endian `u32`, as `Ipv4Addr::to_bits` gives it. */
    function Bits(): nat {
      ((a * 256 + b) * 256 + c) * 256 + d
    }
  }

  datatype SocketAddr = SocketAddr(ip: Ipv4, port: Port)

  /** `Display` of an `Ipv4Addr`: dotted decimal. */
  function Ipv4Text(ip: Ipv4): string {
    NatToString(ip.a) + "." + NatToString(ip.b) + "." + NatToString(ip.c) + "." + NatToString(ip.d)
  }

  /** `Display` of a `SocketAddr::V4`: `ip:port`. */
  function SocketAddrText(s: SocketAddr): string {
    Ipv4Text(s.ip) + ":" + NatToString(s.port)
  }
}
