/** The V2Ray v4 configuration records the `types/v2rayjson` migrator reads, as the upstream
    loader leaves them. Each loader or builder step that can fail is represented by its
    outcome. */
module V2RayConf {
  import opened Wrappers
  import opened Net
  import opened Legacy

  datatype TcpSettings = TcpSettings(hasHeaderConfig: bool)

  /** HTTP/2 transport settings; each header maps to its (possibly absent) list of values. */
  datatype HttpSettings = HttpSettings(host: Option<seq<string>>, path: string, httpMethod: string,
                                       headers: map<string, Option<seq<string>>>)

  datatype WsSettings = WsSettings(path: string, headers: Option<map<string, string>>, maxEarlyData: Int32,
                                   earlyDataHeaderName: string)

  /** gRPC settings (also used for the older "gun" block). */
  datatype GrpcSettings = GrpcSettings(serviceName: string)

  datatype SocketSettings = SocketSettings(tfo: Option<bool>, tproxy: string, acceptProxyProtocol: bool)

  datatype TlsSettings = TlsSettings(insecure: bool, serverName: string, certs: seq<CertConfig>, alpn: Option<seq<string>>)

  /** `StreamConfig`; `network` is the transport descriptor together with the outcome of
      building it into a protocol name. */
  datatype StreamConfig = StreamConfig(
    network: Option<Result<string>>,
    tcp: Option<TcpSettings>,
    http: Option<HttpSettings>,
    ws: Option<WsSettings>,
    grpc: Option<GrpcSettings>,
    gun: Option<GrpcSettings>,
    security: string,
    tls: Option<TlsSettings>,
    socket: Option<SocketSettings>)

  /** The built outbound payload, one constructor per case of the translator's type switch;
      `OtherOutbound` stands for any other payload type, named by its type. */
  datatype OutboundPayload =
    | Blackhole
    | DnsProxy
    | Loopback
    | Freedom(destinationOverride: Option<DestinationOverride>, domainStrategy: FreedomStrategy)
    | Client(client: ClientConfig)
    | OtherOutbound(typeName: string)

  /** `OutboundDetourConfig`; `settings` is the outcome of loading and building the payload. */
  datatype OutboundConfig = OutboundConfig(tag: string, stream: Option<StreamConfig>, settings: Result<OutboundPayload>)

  datatype PortRange = PortRange(from: nat, to: nat)

  /** The built inbound payload; the Shadowsocks server has a single user. */
  datatype InboundPayload =
    | Server(server: ServerConfig)
    | ShadowsocksServer(network: seq<Network>, user: User)
    | OtherInbound(typeName: string)

  datatype InboundConfig = InboundConfig(tag: string, listenOn: Option<Address>, portRange: Option<PortRange>,
                                         stream: Option<StreamConfig>, settings: Result<InboundPayload>)

  datatype LogConfig = LogConfig(errorLog: string, logLevel: string)

  /** The routing block: its raw rule messages, in order. */
  datatype RouterConfig = RouterConfig(rules: seq<string>)

  /** The whole decoded v4 document. */
  datatype Config = Config(log: Option<LogConfig>, inbounds: seq<InboundConfig>, outbounds: seq<OutboundConfig>,
                           dns: Option<DnsConfig>, router: Option<RouterConfig>)

  function InboundTag(c: InboundConfig): string {
    c.tag
  }

  function OutboundTag(c: OutboundConfig): string {
    c.tag
  }
}
