/** The Xray configuration records the `types/xrayjson` migrator reads, as the upstream loader
    leaves them. The outcomes of the package's own `parseTransport` and `parsePort` helpers,
    which are not part of this model, are fields of these records. */
module XrayConf {
  import opened Wrappers
  import opened Net
  import opened Legacy
  import opened SingBox

  /** The `tcpFastOpen` socket option: absent, a boolean, a JSON number, or another JSON value. */
  datatype Tfo = TfoUnset | TfoBool(b: bool) | TfoNumber(x: real) | TfoOther

  datatype SocketSettings = SocketSettings(tfo: Tfo, tproxy: string, acceptProxyProtocol: bool)

  datatype TlsSettings = TlsSettings(insecure: bool, serverName: string, certs: seq<CertConfig>,
                                     alpn: Option<seq<string>>, fingerprint: string)

  /** The REALITY `dest` field: absent (empty), not decodable, a "host:port" string (as
      `M.ParseSocksaddr` reads it), a number (converted to a port), or another JSON value. */
  datatype RealityDest = NoDest | DestUndecodable | DestString(addr: Socksaddr) | DestNumber(port: Port) | DestOther

  /** REALITY settings; the client side reads the first four fields, the server side the rest.
      `maxTimeDiff` is in milliseconds. */
  datatype RealitySettings = RealitySettings(
    serverName: string, fingerprint: string, publicKey: string, shortId: string,
    serverNames: seq<string>, privateKey: string, shortIds: seq<string>, maxTimeDiff: nat, dest: RealityDest)

  /** `StreamConfig`; `transport` is the outcome of the package's `parseTransport`. */
  datatype StreamConfig = StreamConfig(
    transport: Result<Transport>,
    security: string,
    tls: Option<TlsSettings>,
    reality: Option<RealitySettings>,
    socket: Option<SocketSettings>)

  /** A WireGuard peer, with its endpoint as `M.ParseSocksaddr` reads it. */
  datatype Peer = Peer(endpoint: Socksaddr, publicKey: string, preSharedKey: string)

  /** The built outbound payload, one constructor per case of the translator's type switch. */
  datatype OutboundPayload =
    | Blackhole
    | DnsProxy
    | Loopback
    | Freedom(destinationOverride: Option<DestinationOverride>, domainStrategy: FreedomStrategy)
    | Client(client: ClientConfig)
    | Shadowsocks2022Client(address: Address, port: nat, ssMethod: string, key: string, udpOverTcp: bool)
    | WireGuardDevice(peers: seq<Peer>, endpoints: seq<NetAddr>, secretKey: string, mtu: Int32,
                      numWorkers: Int32, reserved: seq<bv8>)
    | OtherOutbound(typeName: string)

  /** `OutboundDetourConfig`; `settings` is the outcome of loading and building the payload. */
  datatype OutboundConfig = OutboundConfig(tag: string, stream: Option<StreamConfig>, settings: Result<OutboundPayload>)

  datatype MultiUser = MultiUser(email: string, key: string)

  datatype RelayDestination = RelayDestination(email: string, key: string, address: Address, port: nat)

  /** The built inbound payload. */
  datatype InboundPayload =
    | Server(server: ServerConfig)
    | ShadowsocksServer(network: seq<Network>, users: seq<User>)
    | Shadowsocks2022Server(network: seq<Network>, ssMethod: string, key: string)
    | Shadowsocks2022MultiUser(network: seq<Network>, ssMethod: string, key: string, multiUsers: seq<MultiUser>)
    | Shadowsocks2022Relay(network: seq<Network>, ssMethod: string, key: string, destinations: seq<RelayDestination>)
    | OtherInbound(typeName: string)

  /** `InboundDetourConfig`; `port` is the outcome of the package's `parsePort` on a present
      port list. */
  datatype InboundConfig = InboundConfig(tag: string, listenOn: Option<Address>, port: Option<Port>,
                                         stream: Option<StreamConfig>, settings: Result<InboundPayload>)
}
