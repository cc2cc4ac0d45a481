/** `migrateOutbound` of `types/xrayjson/outbound.go`: as the V2Ray translator, plus REALITY
    and uTLS options, Shadowsocks 2022 and WireGuard. The Xray package's own
    `parseServerAddress` and `parseNetworks` are not part of this model; they are taken to
    be the V2Ray ones of `V2RayCommon`. */
module XrayOutbound {
  import opened Wrappers
  import opened Net
  import opened Seqs
  import opened Legacy
  import opened SingBox
  import opened Certs
  import opened XrayConf
  import opened V2RayCommon
  import opened Outbounds

  const LoopbackError := "loopback is not supported, please rewrite your config using listenOptions.detour"

  /** The outbound TLS options of a stream: "tls" and "reality" enable TLS; TLS settings give
      the insecure flag, the server name, a non-empty ALPN list and the certificates, and a
      TLS fingerprint turns uTLS on; REALITY always turns uTLS on with its own fingerprint.
      Without settings, or with any other security, the options are empty. */
  function TlsOf(s: StreamConfig): (r: OutboundTls)
    ensures r.enabled <==> s.security in {"tls", "reality"}
    ensures r.reality.Some? <==> s.security == "reality" && s.reality.Some?
    ensures s.security == "tls" && s.tls.Some? ==>
      r.certificate == LastPicked(s.tls.value.certs, InlineCert, "") &&
      r.certificatePath == LastPicked(s.tls.value.certs, CertPath, "") &&
      (r.utls.Some? <==> s.tls.value.fingerprint != "")
    ensures s.security == "tls" && s.tls.Some? ==>
      r.insecure == s.tls.value.insecure && r.serverName == s.tls.value.serverName &&
      r.alpn == (if s.tls.value.alpn.Some? && |s.tls.value.alpn.value| > 0 then s.tls.value.alpn.value else []) &&
      (s.tls.value.fingerprint != "" ==> r.utls == Some(UtlsOptions(s.tls.value.fingerprint)))
    ensures (s.security == "tls" && s.tls.None?) || (s.security == "reality" && s.reality.None?) ==>
      r == EmptyOutboundTls.(enabled := true)
    ensures s.security !in {"tls", "reality"} ==> r == EmptyOutboundTls
    ensures s.security == "reality" && s.reality.Some? ==>
      r.serverName == s.reality.value.serverName &&
      r.utls == Some(UtlsOptions(s.reality.value.fingerprint)) &&
      r.reality == Some(OutboundReality(s.reality.value.publicKey, s.reality.value.shortId))
  {
    if s.security == "tls" then
      match s.tls
      case None => EmptyOutboundTls.(enabled := true)
      case Some(t) =>
        OutboundTls(true, t.insecure, t.serverName, LastPicked(t.certs, InlineCert, ""), LastPicked(t.certs, CertPath, ""),
                    if t.alpn.Some? && |t.alpn.value| > 0 then t.alpn.value else [],
                    if t.fingerprint != "" then Some(UtlsOptions(t.fingerprint)) else None, None)
    else if s.security == "reality" then
      match s.reality
      case None => EmptyOutboundTls.(enabled := true)
      case Some(x) =>
        EmptyOutboundTls.(enabled := true, serverName := x.serverName, utls := Some(UtlsOptions(x.fingerprint)),
                          reality := Some(OutboundReality(x.publicKey, x.shortId)))
    else EmptyOutboundTls
  }

  /** The TLS options and transport of the stream settings, or the transport's error. */
  function StreamOf(stream: Option<StreamConfig>): Result<(OutboundTls, Transport)> {
    match stream
    case None => Ok((EmptyOutboundTls, NoTransport))
    case Some(s) =>
      match s.transport
      case Err(e) => Err(e)
      case Ok(t) => Ok((TlsOf(s), t))
  }

  /** The WireGuard outbound: the first peer's endpoint and keys (none for no peer), one
      full-length prefix per local endpoint in order, and the device settings. */
  function WireGuardOf(peers: seq<Peer>, endpoints: seq<NetAddr>, secretKey: string, mtu: Int32, numWorkers: Int32,
                       reserved: seq<bv8>): (r: OutboundOptions)
    ensures r.WireGuardOutbound?
    ensures |peers| > 0 ==> (r.server == AddrString(peers[0].endpoint) && r.serverPort == peers[0].endpoint.port &&
                             r.peerPublicKey == peers[0].publicKey && r.preSharedKey == peers[0].preSharedKey)
    ensures |peers| == 0 ==> r.server == "" && r.serverPort == 0 && r.peerPublicKey == "" && r.preSharedKey == ""
    ensures |r.localAddress| == |endpoints|
    ensures forall i :: 0 <= i < |endpoints| ==> r.localAddress[i] == Prefix(endpoints[i], BitLen(endpoints[i]))
    ensures r.mtu == Uint32OfInt32(mtu) && r.workers == numWorkers && r.reserved == reserved
  {
    var first := if |peers| > 0 then Some(peers[0]) else None;
    WireGuardOutbound(
      if first.Some? then AddrString(first.value.endpoint) else "",
      if first.Some? then first.value.endpoint.port else 0,
      if first.Some? then first.value.publicKey else "",
      if first.Some? then first.value.preSharedKey else "",
      Map(endpoints, FullLength), secretKey, Uint32OfInt32(mtu), numWorkers, reserved)
  }

  /** `netip.PrefixFrom(addr, addr.BitLen())` */
  function FullLength(a: NetAddr): Prefix {
    Prefix(a, BitLen(a))
  }

  /** The outbound an Xray outbound becomes, or its error, with the domains after it. */
  function OutboundOf(c: OutboundConfig, domains: seq<string>): (Result<Outbound>, seq<string>) {
    match StreamOf(c.stream)
    case Err(e) => (Err(e), domains)
    case Ok((tls, transport)) =>
      match c.settings
      case Err(e) => (Err(e), domains)
      case Ok(p) =>
        match p
        case Blackhole => (Ok(Outbound(c.tag, BlockOutbound)), domains)
        case DnsProxy => (Ok(Outbound(c.tag, DnsOutbound)), domains)
        case Loopback => (Err(LoopbackError), domains)
        case Freedom(d, strategy) => (Ok(Outbound(c.tag, FreedomOf(d, strategy))), domains)
        case Client(client) =>
          var (r, domains') := ClientOutboundOf(client, tls, transport, domains);
          (if r.Ok? then Ok(Outbound(c.tag, r.value)) else Err(r.error), domains')
        case Shadowsocks2022Client(address, port, m, key, udpOverTcp) =>
          (Ok(Outbound(c.tag, ShadowsocksOutbound(AddressString(address), Uint16(port), m, key, udpOverTcp))), domains)
        case WireGuardDevice(peers, endpoints, secretKey, mtu, numWorkers, reserved) =>
          (Ok(Outbound(c.tag, WireGuardOf(peers, endpoints, secretKey, mtu, numWorkers, reserved))), domains)
        case OtherOutbound(name) => (Err("unknown outbound type: " + name), domains)
  }

  /** The security part of `migrateOutbound`: TLS with its certificate loop, ALPN and uTLS,
      or REALITY. */
  method MigrateTls(s: StreamConfig) returns (tls: OutboundTls)
    ensures tls == TlsOf(s)
  {
    tls := EmptyOutboundTls;
    if s.security != "" {
      if s.security == "tls" {
        tls := tls.(enabled := true);
        if s.tls.Some? {
          var settings := s.tls.value;
          tls := tls.(insecure := settings.insecure, serverName := settings.serverName);
          var certificate, certificatePath := OutboundCertLoop(settings.certs);
          tls := tls.(certificate := certificate, certificatePath := certificatePath);
          if settings.alpn.Some? && |settings.alpn.value| > 0 {
            tls := tls.(alpn := settings.alpn.value);
          }
          if settings.fingerprint != "" {
            tls := tls.(utls := Some(UtlsOptions(settings.fingerprint)));
          }
        }
      } else if s.security == "reality" {
        tls := tls.(enabled := true);
        if s.reality.Some? {
          var settings := s.reality.value;
          tls := tls.(serverName := settings.serverName, utls := Some(UtlsOptions(settings.fingerprint)),
                      reality := Some(OutboundReality(settings.publicKey, settings.shortId)));
        }
      }
    }
  }

  /** `migrateOutbound`, step by step: stream settings and TLS first, then the payload. */
  method MigrateOutbound(c: OutboundConfig, domains: seq<string>) returns (r: Result<Outbound>, domains': seq<string>)
    ensures (r, domains') == OutboundOf(c, domains)
  {
    domains' := domains;
    var tls := EmptyOutboundTls;
    var transport := NoTransport;
    if c.stream.Some? {
      var s := c.stream.value;
      if s.transport.Err? {
        return Err(s.transport.error), domains';
      }
      transport := s.transport.value;
      tls := MigrateTls(s);
    }
    if c.settings.Err? {
      return Err(c.settings.error), domains';
    }
    match c.settings.value {
      case Blackhole => r := Ok(Outbound(c.tag, BlockOutbound));
      case DnsProxy => r := Ok(Outbound(c.tag, DnsOutbound));
      case Loopback => r := Err(LoopbackError);
      case Freedom(d, strategy) => r := Ok(Outbound(c.tag, FreedomOf(d, strategy)));
      case Client(client) =>
        var o;
        o, domains' := ClientOutbound(client, tls, transport, domains);
        if o.Err? {
          return Err(o.error), domains';
        }
        r := Ok(Outbound(c.tag, o.value));
      case Shadowsocks2022Client(address, port, m, key, udpOverTcp) =>
        r := Ok(Outbound(c.tag, ShadowsocksOutbound(AddressString(address), Uint16(port), m, key, udpOverTcp)));
      case WireGuardDevice(peers, endpoints, secretKey, mtu, numWorkers, reserved) =>
        var server, serverPort, publicKey, preSharedKey := "", 0, "", "";
        if |peers| > 0 {
          var peer := peers[0];
          server, serverPort, publicKey, preSharedKey := AddrString(peer.endpoint), peer.endpoint.port, peer.publicKey, peer.preSharedKey;
        }
        var localAddress := MapAll(endpoints, FullLength);
        r := Ok(Outbound(c.tag, WireGuardOutbound(server, serverPort, publicKey, preSharedKey, localAddress, secretKey,
                                                  Uint32OfInt32(mtu), numWorkers, reserved)));
      case OtherOutbound(name) => r := Err("unknown outbound type: " + name);
    }
  }

  /** The tag is always copied; loopback and unknown payloads fail with their messages; the
      server FQDN of a client payload is added to the domains whether or not the outbound
      succeeds, and Shadowsocks 2022, WireGuard and every other payload add nothing. */
  lemma OutboundOutcome(c: OutboundConfig, domains: seq<string>)
    ensures OutboundOf(c, domains).0.Ok? ==> OutboundOf(c, domains).0.value.tag == c.tag
    ensures StreamOf(c.stream).Ok? && c.settings == Ok(Loopback) ==> OutboundOf(c, domains).0 == Err(LoopbackError)
    ensures StreamOf(c.stream).Ok? && c.settings.Ok? && c.settings.value.OtherOutbound? ==>
      OutboundOf(c, domains).0 == Err("unknown outbound type: " + c.settings.value.typeName)
    ensures !(StreamOf(c.stream).Ok? && c.settings.Ok? && c.settings.value.Client?) ==> OutboundOf(c, domains).1 == domains
    ensures StreamOf(c.stream).Ok? && c.settings.Ok? && c.settings.value.Client? ==>
      OutboundOf(c, domains).1 == AddServer(ParseServerAddress(ClientServers(c.settings.value.client)).0, domains)
  {
  }
}
