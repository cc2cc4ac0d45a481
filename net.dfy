/** Addresses and ports as the core sees them: the upstream `net.Address`, sing's
    `M.Socksaddr` and Go's `netip.Addr`, reduced to the distinctions the core branches on. */
module Net {

  /** A 16-bit port. */
  type Port = n: int | 0 <= n < 0x1_0000

  /** Go's `uint16(x)` conversion of an unsigned 32-bit value: it keeps the low 16 bits. */
  function Uint16(n: nat): Port {
    n % 0x1_0000
  }

  /** A Go `int32`. */
  type Int32 = x: int | -0x8000_0000 <= x < 0x8000_0000

  /** Go's `uint32(x)` conversion of a signed 32-bit value: negative values wrap around. */
  function Uint32OfInt32(x: Int32): (r: nat)
    ensures r < 0x1_0000_0000
    ensures r % 0x1_0000_0000 == x % 0x1_0000_0000
  {
    if x < 0 then x + 0x1_0000_0000 else x
  }

  /** An already classified upstream address: an IPv4 or IPv6 literal or a domain name. */
  datatype Address = Ipv4Address(text: string) | Ipv6Address(text: string) | DomainAddress(domain: string)

  /** `Address.String()` */
  function AddressString(a: Address): string {
    match a
    case Ipv4Address(t) => t
    case Ipv6Address(t) => t
    case DomainAddress(d) => d
  }

  /** The host part of a `M.Socksaddr`: nothing, an IP address, or a fully qualified domain name. */
  datatype Host = NoHost | IpHost(ip: string) | FqdnHost(fqdn: string)

  datatype Socksaddr = Socksaddr(host: Host, port: Port)

  /** `Socksaddr.IsFqdn()` */
  predicate IsFqdn(a: Socksaddr) {
    a.host.FqdnHost?
  }

  /** `Socksaddr.AddrString()`: the IP or domain text, or "" when there is no host. */
  function AddrString(a: Socksaddr): string {
    match a.host
    case NoHost => ""
    case IpHost(ip) => ip
    case FqdnHost(d) => d
  }

  /** `M.ParseSocksaddrHostPort(address.String(), port)`: an IP literal stays an IP, a
      non-empty domain becomes an FQDN, and an empty string gives no host. */
  function SocksaddrOf(address: Address, port: Port): Socksaddr {
    match address
    case Ipv4Address(t) => Socksaddr(IpHost(t), port)
    case Ipv6Address(t) => Socksaddr(IpHost(t), port)
    case DomainAddress(d) => if d == "" then Socksaddr(NoHost, port) else Socksaddr(FqdnHost(d), port)
  }

  /** A `netip.Addr`: the zero (invalid) address or an IPv4 or IPv6 address. */
  datatype NetAddr = InvalidAddr | Ipv4Addr(text: string) | Ipv6Addr(text: string)

  /** `netip.Addr.BitLen()` */
  function BitLen(a: NetAddr): nat {
    match a
    case InvalidAddr => 0
    case Ipv4Addr(_) => 32
    case Ipv6Addr(_) => 128
  }

  /** `M.ParseAddr(address.String())`: a domain name does not parse and gives the zero address. */
  function NetAddrOf(a: Address): NetAddr {
    match a
    case Ipv4Address(t) => Ipv4Addr(t)
    case Ipv6Address(t) => Ipv6Addr(t)
    case DomainAddress(_) => InvalidAddr
  }

  /** A `netip.Prefix`: an address and a prefix length. */
  datatype Prefix = Prefix(addr: NetAddr, bits: nat)
}
