/** Records shared by the two legacy schemas (V2Ray v4 and Xray) once the upstream
    loaders have built them: networks, accounts, users, server endpoints, certificates and
    the DNS block. Each upstream call that can fail (`GetInstance`, `GetInstanceOf`) is
    represented by its outcome, a `Result`. */
module Legacy {
  import opened Wrappers
  import opened Net

  /** `net.Network`; other enumeration values (unknown, UNIX, …) keep their number. */
  datatype Network = TCP | UDP | OtherNetwork(code: int)

  /** `shadowsocks.CipherType` */
  datatype CipherType = CipherAes128Gcm | CipherAes256Gcm | CipherChacha20Poly1305 | CipherOther(code: int)

  /** `protocol.SecurityType` */
  datatype SecurityType = SecurityAes128Gcm | SecurityChacha20Poly1305 | SecurityNone | SecurityZero | SecurityOther(code: int)

  /** `socks.Version` */
  datatype SocksVersion = Socks5 | Socks4 | Socks4a

  /** `freedom.Config_DomainStrategy` */
  datatype FreedomStrategy = FreedomAsIs | FreedomUseIp | FreedomUseIp4 | FreedomUseIp6 | FreedomOther(code: int)

  /** The concrete account message a user's account instantiates to. */
  datatype Account =
    | HttpAccount(username: string, password: string)
    | SocksAccount(username: string, password: string)
    | ShadowsocksAccount(cipher: CipherType, password: string)
    | TrojanAccount(password: string)
    | VMessAccount(id: string, security: SecurityType, alterId: nat, testsEnabled: string)
    | VLESSAccount(id: string, flow: string)
    | OtherAccount(name: string)

  /** A user's typed account: the declared type name (`Account.Type` in Xray,
      `Account.TypeUrl` in V2Ray) and the outcome of instantiating it. */
  datatype AccountInstance = AccountInstance(typeName: string, instance: Result<Account>)

  datatype User = User(email: string, account: AccountInstance)

  /** `protocol.ServerEndpoint`; the port is the protobuf's 32-bit field. */
  datatype ServerEndpoint = ServerEndpoint(address: Address, port: nat, users: seq<User>)

  /** One certificate entry of a TLS block. */
  datatype CertConfig = CertConfig(usage: string, certStr: seq<string>, certFile: string, keyStr: seq<string>, keyFile: string)

  /** A freedom `DestinationOverride.Server`: `address` is what `AsAddress()` gives, absent
      when the message holds no address; `messageText` is what the message's own `String()`
      gives, the protobuf text form of the `IPOrDomain` (for example `domain:"example.com"`).
      The generated code formats that text, so the model takes it as part of the input. */
  datatype OverrideServer = OverrideServer(address: Option<Address>, messageText: string, port: nat)

  datatype DestinationOverride = DestinationOverride(server: Option<OverrideServer>)

  /** The client payloads both schemas build alike, one constructor per case of the
      outbound translators' type switch. */
  datatype ClientConfig =
    | HttpClient(servers: seq<ServerEndpoint>)
    | SocksClient(version: SocksVersion, servers: seq<ServerEndpoint>)
    | ShadowsocksClient(servers: seq<ServerEndpoint>)
    | TrojanClient(servers: seq<ServerEndpoint>)
    | VMessClient(receivers: seq<ServerEndpoint>)
    | VLESSClient(vnext: seq<ServerEndpoint>)

  /** The endpoint list a client payload names its server by. */
  function ClientServers(c: ClientConfig): seq<ServerEndpoint> {
    match c
    case HttpClient(s) => s
    case SocksClient(_, s) => s
    case ShadowsocksClient(s) => s
    case TrojanClient(s) => s
    case VMessClient(s) => s
    case VLESSClient(s) => s
  }

  /** The server payloads both schemas build alike. The accounts of the HTTP and SOCKS
      servers are a Go map, given here in the order the runtime happens to iterate it. */
  datatype ServerConfig =
    | Dokodemo(address: Option<Address>, port: nat, networks: seq<Network>, followRedirect: bool)
    | HttpServer(accounts: seq<(string, string)>)
    | SocksServer(accounts: seq<(string, string)>)
    | VMessServer(users: seq<User>)
    | VLESSServer(clients: seq<User>)
    | TrojanServer(users: seq<User>)

  datatype NameServer = NameServer(address: string, domains: seq<string>, expectIps: seq<string>)

  /** The source DNS block. */
  datatype DnsConfig = DnsConfig(servers: seq<NameServer>, queryStrategy: string)

  const EmptyDnsConfig := DnsConfig([], "")
}
