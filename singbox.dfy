/** The canonical (sing-box) options document that both legacy schemas are migrated into.
    Every record is a value; an optional sub-record (a Go pointer) is an `Option`. */
module SingBox {
  import opened Wrappers
  import opened Net

  /** `option.DomainStrategy`; `AsIs` is the zero value, i.e. "unset". */
  datatype DomainStrategy = AsIs | PreferIPv4 | PreferIPv6 | UseIPv4 | UseIPv6

  datatype ListenOptions = ListenOptions(
    listen: Option<NetAddr>,
    listenPort: Port,
    tcpFastOpen: bool,
    proxyProtocol: bool,
    proxyProtocolAcceptNoHeader: bool)

  const EmptyListen := ListenOptions(None, 0, false, false, false)

  /** `option.V2RayTransportOptions`: the variant stands for its `Type` field. */
  datatype Transport =
    | NoTransport
    | HttpTransport(host: seq<string>, path: string, httpMethod: string, headers: map<string, string>)
    | WebsocketTransport(path: string, wsHeaders: map<string, string>, maxEarlyData: nat, earlyDataHeaderName: string)
    | GrpcTransport(serviceName: string)
    | QuicTransport

  /** The transport's `Type` string; "" means plain TCP (no transport record is attached). */
  function TransportType(t: Transport): string {
    match t
    case NoTransport => ""
    case HttpTransport(_, _, _, _) => "http"
    case WebsocketTransport(_, _, _, _) => "ws"
    case GrpcTransport(_) => "grpc"
    case QuicTransport => "quic"
  }

  /** uTLS options; the source always sets `Enabled: true` alongside the fingerprint. */
  datatype UtlsOptions = UtlsOptions(fingerprint: string)

  /** Outbound REALITY options; the source always sets `Enabled: true`. */
  datatype OutboundReality = OutboundReality(publicKey: string, shortId: string)

  datatype OutboundTls = OutboundTls(
    enabled: bool,
    insecure: bool,
    serverName: string,
    certificate: string,
    certificatePath: string,
    alpn: seq<string>,
    utls: Option<UtlsOptions>,
    reality: Option<OutboundReality>)

  const EmptyOutboundTls := OutboundTls(false, false, "", "", "", [], None, None)

  /** Inbound REALITY options (always `Enabled: true`); `maxTimeDifference` is in nanoseconds. */
  datatype InboundReality = InboundReality(
    privateKey: string,
    shortId: seq<string>,
    maxTimeDifference: nat,
    handshakeServer: string,
    handshakeServerPort: Port)

  datatype InboundTls = InboundTls(
    enabled: bool,
    serverName: string,
    certificate: string,
    key: string,
    certificatePath: string,
    keyPath: string,
    alpn: seq<string>,
    reality: Option<InboundReality>)

  const EmptyInboundTls := InboundTls(false, "", "", "", "", "", [], None)

  datatype AuthUser = AuthUser(username: string, password: string)
  datatype ShadowsocksUser = ShadowsocksUser(name: string, password: string)
  datatype ShadowsocksDestination = ShadowsocksDestination(name: string, password: string, server: string, serverPort: Port)
  datatype VMessUser = VMessUser(name: string, uuid: string, alterId: int)
  datatype VLESSUser = VLESSUser(name: string, uuid: string, flow: string)
  datatype TrojanUser = TrojanUser(name: string, password: string)

  /** One constructor per inbound `Type` the migrators produce. */
  datatype InboundOptions =
    | DirectInbound(listen: ListenOptions, overrideAddress: string, overridePort: Port, network: string)
    | RedirectInbound(listen: ListenOptions)
    | TProxyInbound(listen: ListenOptions, network: string)
    | HttpInbound(listen: ListenOptions, users: seq<AuthUser>, httpTls: Option<InboundTls>)
    | SocksInbound(listen: ListenOptions, users: seq<AuthUser>)
    | ShadowsocksInbound(listen: ListenOptions, network: string, ssMethod: string, password: string,
                         ssUsers: seq<ShadowsocksUser>, destinations: seq<ShadowsocksDestination>)
    | VMessInbound(listen: ListenOptions, vmessUsers: seq<VMessUser>, tls: Option<InboundTls>, transport: Option<Transport>)
    | VLESSInbound(listen: ListenOptions, vlessUsers: seq<VLESSUser>, tls: Option<InboundTls>, transport: Option<Transport>)
    | TrojanInbound(listen: ListenOptions, trojanUsers: seq<TrojanUser>, tls: Option<InboundTls>, transport: Option<Transport>)

  datatype Inbound = Inbound(tag: string, options: InboundOptions)

  /** The inbound's `Type` string (the `C.Type…` constant). */
  function InboundType(o: InboundOptions): string {
    match o
    case DirectInbound(_, _, _, _) => "direct"
    case RedirectInbound(_) => "redirect"
    case TProxyInbound(_, _) => "tproxy"
    case HttpInbound(_, _, _) => "http"
    case SocksInbound(_, _) => "socks"
    case ShadowsocksInbound(_, _, _, _, _, _) => "shadowsocks"
    case VMessInbound(_, _, _, _) => "vmess"
    case VLESSInbound(_, _, _, _) => "vless"
    case TrojanInbound(_, _, _, _) => "trojan"
  }

  /** One constructor per outbound `Type` the migrators produce. */
  datatype OutboundOptions =
    | BlockOutbound
    | DnsOutbound
    | DirectOutbound(overrideAddress: string, overridePort: Port, domainStrategy: DomainStrategy)
    | HttpOutbound(server: string, serverPort: Port, username: string, password: string, tls: Option<OutboundTls>)
    | SocksOutbound(version: string, server: string, serverPort: Port, username: string, password: string)
    | ShadowsocksOutbound(server: string, serverPort: Port, ssMethod: string, password: string, udpOverTcp: bool)
    | TrojanOutbound(server: string, serverPort: Port, password: string, tls: Option<OutboundTls>, transport: Option<Transport>)
    | VMessOutbound(server: string, serverPort: Port, uuid: string, security: string, alterId: int,
                    authenticatedLength: bool, tls: Option<OutboundTls>, transport: Option<Transport>)
    | VLESSOutbound(server: string, serverPort: Port, uuid: string, flow: string, tls: Option<OutboundTls>, transport: Option<Transport>)
    | WireGuardOutbound(server: string, serverPort: Port, peerPublicKey: string, preSharedKey: string,
                        localAddress: seq<Prefix>, privateKey: string, mtu: nat, workers: int, reserved: seq<bv8>)

  datatype Outbound = Outbound(tag: string, options: OutboundOptions)

  /** The outbound's `Type` string (the `C.Type…` constant). */
  function OutboundType(o: OutboundOptions): string {
    match o
    case BlockOutbound => "block"
    case DnsOutbound => "dns"
    case DirectOutbound(_, _, _) => "direct"
    case HttpOutbound(_, _, _, _, _) => "http"
    case SocksOutbound(_, _, _, _, _) => "socks"
    case ShadowsocksOutbound(_, _, _, _, _) => "shadowsocks"
    case TrojanOutbound(_, _, _, _, _) => "trojan"
    case VMessOutbound(_, _, _, _, _, _, _, _) => "vmess"
    case VLESSOutbound(_, _, _, _, _, _) => "vless"
    case WireGuardOutbound(_, _, _, _, _, _, _, _, _) => "wireguard"
  }

  /** `option.DefaultRule`, restricted to the match lists the migrators fill. */
  datatype DefaultRule = DefaultRule(
    outbound: string,
    domain: seq<string>,
    domainSuffix: seq<string>,
    domainKeyword: seq<string>,
    domainRegex: seq<string>,
    geosite: seq<string>,
    geoip: seq<string>,
    sourceGeoip: seq<string>,
    ipCidr: seq<string>,
    sourceIpCidr: seq<string>,
    port: seq<Port>,
    portRange: seq<string>,
    sourcePort: seq<Port>,
    sourcePortRange: seq<string>,
    network: string,
    authUser: seq<string>,
    inbound: seq<string>,
    protocol: seq<string>)

  const EmptyRule := DefaultRule("", [], [], [], [], [], [], [], [], [], [], [], [], [], "", [], [], [])

  /** `option.Rule` of type "default" (the only rule type the migrators produce). */
  datatype Rule = Rule(defaultOptions: DefaultRule)

  datatype RouteOptions = RouteOptions(rules: seq<Rule>)

  datatype DnsServer = DnsServer(tag: string, address: string, detour: string)

  /** `option.DNSRule` of type "default": the domains it matches and the server it selects. */
  datatype DnsRule = DnsRule(domain: seq<string>, server: string)

  datatype DnsOptions = DnsOptions(servers: seq<DnsServer>, rules: seq<DnsRule>, strategy: DomainStrategy)

  datatype LogOptions = LogOptions(output: string, level: string)

  /** `option.Options`: the whole canonical document. */
  datatype Options = Options(
    log: Option<LogOptions>,
    dns: Option<DnsOptions>,
    inbounds: seq<Inbound>,
    outbounds: seq<Outbound>,
    route: Option<RouteOptions>)

  const EmptyOptions := Options(None, None, [], [], None)
}
