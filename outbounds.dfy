/** The outbound cases that the V2Ray and Xray translators (`types/v2rayjson/outbound.go`,
    `types/xrayjson/outbound.go`) handle with the same code: the freedom outbound, the shared
    client payloads, and `addServerToDNSOptions`. */
module Outbounds {
  import opened Wrappers
  import opened Net
  import opened Seqs
  import opened Legacy
  import opened SingBox
  import opened Tables
  import opened Accounts
  import opened V2RayCommon

  /** `addServerToDNSOptions`: the domain list of the shared outbound-server DNS rule, after
      a server is seen. Only an FQDN server is appended; nothing is removed or reordered. */
  function AddServer(addr: Socksaddr, domains: seq<string>): (r: seq<string>)
    ensures domains <= r
    ensures |r| == |domains| + 1 <==> IsFqdn(addr)
    ensures |r| <= |domains| + 1
    ensures IsFqdn(addr) ==> r[|domains|] == addr.host.fqdn
  {
    if IsFqdn(addr) then domains + [addr.host.fqdn] else domains
  }

  /** A sub-record attached through a pointer only when `present`. */
  function Attach<T>(present: bool, x: T): (r: Option<T>)
    ensures r.Some? <==> present
    ensures r.Some? ==> r.value == x
  {
    if present then Some(x) else None
  }

  /** Whether a freedom override names a server with an address, the guard both translators test. */
  predicate HasOverride(d: Option<DestinationOverride>) {
    d.Some? && d.value.server.Some? && d.value.server.value.address.Some?
  }

  /** The freedom outbound as the translators write it: when the override block, its server
      and the server's address are all present, the override address is the message's own
      text form, not the address it holds. */
  function FreedomOfAsWritten(d: Option<DestinationOverride>, strategy: FreedomStrategy): (r: OutboundOptions)
    ensures r.DirectOutbound? && r.domainStrategy == FreedomDomainStrategy(strategy)
    ensures HasOverride(d) ==>
      r.overrideAddress == d.value.server.value.messageText && r.overridePort == Uint16(d.value.server.value.port)
    ensures !HasOverride(d) ==> r.overrideAddress == "" && r.overridePort == 0
  {
    if HasOverride(d) then
      DirectOutbound(d.value.server.value.messageText, Uint16(d.value.server.value.port), FreedomDomainStrategy(strategy))
    else DirectOutbound("", 0, FreedomDomainStrategy(strategy))
  }

  /** The freedom outbound with the evidently intended override: a direct outbound whose
      override is the text of the address the guard tested, set only when the override
      block, its server and the server's address are all present, and whose domain
      strategy follows the freedom table. */
  function FreedomOf(d: Option<DestinationOverride>, strategy: FreedomStrategy): (r: OutboundOptions)
    ensures r.DirectOutbound? && r.domainStrategy == FreedomDomainStrategy(strategy)
    ensures HasOverride(d) ==>
      r.overrideAddress == AddressString(d.value.server.value.address.value) && r.overridePort == Uint16(d.value.server.value.port)
    ensures !HasOverride(d) ==> r.overrideAddress == "" && r.overridePort == 0
  {
    if HasOverride(d) then
      DirectOutbound(AddressString(d.value.server.value.address.value), Uint16(d.value.server.value.port),
                     FreedomDomainStrategy(strategy))
    else DirectOutbound("", 0, FreedomDomainStrategy(strategy))
  }

  /** The two freedom translations agree exactly when there is no override, or when the
      message's text form happens to be the address text; only the override address differs. */
  lemma FreedomVersionsAgree(d: Option<DestinationOverride>, strategy: FreedomStrategy)
    ensures FreedomOfAsWritten(d, strategy) == FreedomOf(d, strategy) <==>
      !HasOverride(d) || d.value.server.value.messageText == AddressString(d.value.server.value.address.value)
    ensures FreedomOfAsWritten(d, strategy).(overrideAddress := "") == FreedomOf(d, strategy).(overrideAddress := "")
  {
  }

  /** As written, a domain override "example.com", whose message text is `domain:"example.com"`,
      becomes the override address `domain:"example.com"`; the intended translation gives
      "example.com". */
  lemma FreedomOverrideAsWritten()
    ensures var d := Some(DestinationOverride(Some(OverrideServer(Some(DomainAddress("example.com")), "domain:\"example.com\"", 443))));
      FreedomOfAsWritten(d, FreedomAsIs).overrideAddress == "domain:\"example.com\"" &&
      FreedomOf(d, FreedomAsIs).overrideAddress == "example.com"
  {
  }

  /** What an HTTP account writes: its credentials. */
  function HttpCredentials(a: Account): Option<(string, string)> {
    if a.HttpAccount? then Some((a.username, a.password)) else None
  }

  /** What a SOCKS account writes: its credentials. */
  function SocksCredentials(a: Account): Option<(string, string)> {
    if a.SocksAccount? then Some((a.username, a.password)) else None
  }

  /** What a Shadowsocks account writes: the method from the outbound cipher table and the password. */
  function ShadowsocksFields(a: Account): Option<(string, string)> {
    if a.ShadowsocksAccount? then Some((OutboundCipher(a.cipher), a.password)) else None
  }

  /** What a Trojan account writes: its password. */
  function TrojanPassword(a: Account): Option<string> {
    if a.TrojanAccount? then Some(a.password) else None
  }

  /** What a VMess account writes: id, security from the VMess table, and alter id. */
  function VMessFields(a: Account): Option<(string, string, nat)> {
    if a.VMessAccount? then Some((a.id, VMessSecurity(a.security), a.alterId)) else None
  }

  /** What a VLESS account writes: id and flow. */
  function VLESSFields(a: Account): Option<(string, string)> {
    if a.VLESSAccount? then Some((a.id, a.flow)) else None
  }

  /** The outbound a client payload becomes, given the stream's TLS options and transport and
      the accumulated server domains. The server (first endpoint) is added to the domains
      before the users are read, so it stays added when a user's account fails. */
  function ClientOutboundOf(c: ClientConfig, tls: OutboundTls, transport: Transport, domains: seq<string>)
    : (Result<OutboundOptions>, seq<string>)
  {
    var (addr, users) := ParseServerAddress(ClientServers(c));
    var domains' := AddServer(addr, domains);
    var server, port := AddrString(addr), addr.port;
    var tlsOpt := Attach(tls.enabled, tls);
    var transportOpt := Attach(TransportType(transport) != "", transport);
    match Instances(users, GetInstance)
    case Err(e) => (Err(e), domains')
    case Ok(accounts) =>
      var r := match c
        case HttpClient(_) =>
          var (username, password) := LastPicked(accounts, HttpCredentials, ("", ""));
          HttpOutbound(server, port, username, password, tlsOpt)
        case SocksClient(v, _) =>
          var (username, password) := LastPicked(accounts, SocksCredentials, ("", ""));
          SocksOutbound(SocksVersionString(v), server, port, username, password)
        case ShadowsocksClient(_) =>
          var (m, password) := LastPicked(accounts, ShadowsocksFields, ("", ""));
          ShadowsocksOutbound(server, port, m, password, false)
        case TrojanClient(_) =>
          TrojanOutbound(server, port, LastPicked(accounts, TrojanPassword, ""), tlsOpt, transportOpt)
        case VMessClient(_) =>
          var (id, security, alterId) := LastPicked(accounts, VMessFields, ("", "", 0));
          VMessOutbound(server, port, id, security, alterId, AuthenticatedLength(accounts), tlsOpt, transportOpt)
        case VLESSClient(_) =>
          var (id, flow) := LastPicked(accounts, VLESSFields, ("", ""));
          VLESSOutbound(server, port, id, flow, tlsOpt, transportOpt);
      (Ok(r), domains')
  }

  /** The client cases of the translators' type switch, field by field, with their user loops. */
  method ClientOutbound(c: ClientConfig, tls: OutboundTls, transport: Transport, domains: seq<string>)
    returns (r: Result<OutboundOptions>, domains': seq<string>)
    ensures (r, domains') == ClientOutboundOf(c, tls, transport, domains)
  {
    var (addr, users) := ParseServerAddress(ClientServers(c));
    domains' := AddServer(addr, domains);
    var server, port := AddrString(addr), addr.port;
    var tlsOpt: Option<OutboundTls> := None;
    if tls.enabled {
      tlsOpt := Some(tls);
    }
    var transportOpt: Option<Transport> := None;
    if TransportType(transport) != "" {
      transportOpt := Some(transport);
    }
    match c {
      case HttpClient(_) =>
        var creds := OverwriteLoop(users, GetInstance, HttpCredentials, ("", ""));
        if creds.Err? { return Err(creds.error), domains'; }
        r := Ok(HttpOutbound(server, port, creds.value.0, creds.value.1, tlsOpt));
      case SocksClient(v, _) =>
        var creds := OverwriteLoop(users, GetInstance, SocksCredentials, ("", ""));
        if creds.Err? { return Err(creds.error), domains'; }
        r := Ok(SocksOutbound(SocksVersionString(v), server, port, creds.value.0, creds.value.1));
      case ShadowsocksClient(_) =>
        var fields := OverwriteLoop(users, GetInstance, ShadowsocksFields, ("", ""));
        if fields.Err? { return Err(fields.error), domains'; }
        r := Ok(ShadowsocksOutbound(server, port, fields.value.0, fields.value.1, false));
      case TrojanClient(_) =>
        var password := OverwriteLoop(users, GetInstance, TrojanPassword, "");
        if password.Err? { return Err(password.error), domains'; }
        r := Ok(TrojanOutbound(server, port, password.value, tlsOpt, transportOpt));
      case VMessClient(_) =>
        var fields := VMessLoop(users, VMessFields, ("", "", 0));
        if fields.Err? { return Err(fields.error), domains'; }
        var (id, security, alterId) := fields.value.0;
        r := Ok(VMessOutbound(server, port, id, security, alterId, fields.value.1, tlsOpt, transportOpt));
      case VLESSClient(_) =>
        var fields := OverwriteLoop(users, GetInstance, VLESSFields, ("", ""));
        if fields.Err? { return Err(fields.error), domains'; }
        r := Ok(VLESSOutbound(server, port, fields.value.0, fields.value.1, tlsOpt, transportOpt));
    }
  }

  /** The server domain is recorded whatever happens to the users; the outbound fails exactly
      when some user's account fails to instantiate, with the first such user's error. */
  lemma ClientOutboundOutcome(c: ClientConfig, tls: OutboundTls, transport: Transport, domains: seq<string>)
    ensures ClientOutboundOf(c, tls, transport, domains).1 == AddServer(ParseServerAddress(ClientServers(c)).0, domains)
    ensures var users := ParseServerAddress(ClientServers(c)).1;
      ClientOutboundOf(c, tls, transport, domains).0.Err? <==>
        exists i :: 0 <= i < |users| && users[i].account.instance.Err?
  {
  }

  /** TLS is attached to the HTTP, Trojan, VMess and VLESS outbounds exactly when enabled, and
      the transport to the Trojan, VMess and VLESS outbounds exactly when its type is not
      empty; the SOCKS and Shadowsocks outbounds carry neither. */
  lemma ClientOutboundAttachments(c: ClientConfig, tls: OutboundTls, transport: Transport, domains: seq<string>)
    requires ClientOutboundOf(c, tls, transport, domains).0.Ok?
    ensures var r := ClientOutboundOf(c, tls, transport, domains).0.value;
      (r.HttpOutbound? || r.TrojanOutbound? || r.VMessOutbound? || r.VLESSOutbound?) ==>
        (r.tls.Some? <==> tls.enabled) && (r.tls.Some? ==> r.tls.value == tls)
    ensures var r := ClientOutboundOf(c, tls, transport, domains).0.value;
      (r.TrojanOutbound? || r.VMessOutbound? || r.VLESSOutbound?) ==>
        (r.transport.Some? <==> TransportType(transport) != "") && (r.transport.Some? ==> r.transport.value == transport)
    ensures var r := ClientOutboundOf(c, tls, transport, domains).0.value;
      OutboundType(r) == match c
        case HttpClient(_) => "http"
        case SocksClient(_, _) => "socks"
        case ShadowsocksClient(_) => "shadowsocks"
        case TrojanClient(_) => "trojan"
        case VMessClient(_) => "vmess"
        case VLESSClient(_) => "vless"
  {
  }

  /** The HTTP outbound's credentials are those of the last HTTP account among the users (an
      account of another type changes nothing), or empty when there is none. */
  lemma HttpCredentialsFromLastAccount(servers: seq<ServerEndpoint>, tls: OutboundTls, transport: Transport, domains: seq<string>,
                                       accounts: seq<Account>)
    requires Instances(ParseServerAddress(servers).1, GetInstance) == Ok(accounts)
    ensures ClientOutboundOf(HttpClient(servers), tls, transport, domains).0.Ok?
    ensures var r := ClientOutboundOf(HttpClient(servers), tls, transport, domains).0.value;
      r.HttpOutbound? &&
      ((forall i :: 0 <= i < |accounts| ==> !accounts[i].HttpAccount?) ==> r.username == "" && r.password == "")
    ensures var r := ClientOutboundOf(HttpClient(servers), tls, transport, domains).0.value;
      (exists i :: 0 <= i < |accounts| && accounts[i].HttpAccount?) ==>
        exists i :: 0 <= i < |accounts| && accounts[i] == HttpAccount(r.username, r.password) &&
          forall j :: i < j < |accounts| ==> !accounts[j].HttpAccount?
  {
    var creds := LastPicked(accounts, HttpCredentials, ("", ""));
    var r := ClientOutboundOf(HttpClient(servers), tls, transport, domains).0.value;
    assert r.HttpOutbound? && r.username == creds.0 && r.password == creds.1;
    assert forall i :: 0 <= i < |accounts| ==> (HttpCredentials(accounts[i]).None? <==> !accounts[i].HttpAccount?);
  }
}
