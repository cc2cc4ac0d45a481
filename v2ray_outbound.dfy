/** `migrateOutbound` of `types/v2rayjson/outbound.go`: a V2Ray v4 outbound becomes a sing-box
    outbound, and the FQDN of a client's server is added to the shared outbound-server DNS
    rule, given here as its domain list. */
module V2RayOutbound {
  import opened Wrappers
  import opened Seqs
  import opened Legacy
  import opened SingBox
  import opened Certs
  import opened V2RayConf
  import opened V2RayCommon
  import opened Outbounds

  const LoopbackError := "loopback is not supported, please rewrite your config using listenOptions.detour"

  /** An ALPN list is copied only when present and not empty. */
  function Alpn(alpn: Option<seq<string>>): seq<string> {
    if alpn.Some? && |alpn.value| > 0 then alpn.value else []
  }

  /** The outbound TLS options of a stream: only the "tls" security enables TLS; the insecure
      flag, the server name and a non-empty ALPN list are copied from its settings, and the
      certificate fields follow the certificate loop. Without settings nothing else is set. */
  function TlsOf(s: StreamConfig): (r: OutboundTls)
    ensures r.enabled <==> s.security == "tls"
    ensures s.security == "tls" && s.tls.Some? ==>
      r.certificate == LastPicked(s.tls.value.certs, InlineCert, "") &&
      r.certificatePath == LastPicked(s.tls.value.certs, CertPath, "")
    ensures s.security == "tls" && s.tls.Some? ==>
      r.insecure == s.tls.value.insecure && r.serverName == s.tls.value.serverName &&
      r.alpn == (if s.tls.value.alpn.Some? && |s.tls.value.alpn.value| > 0 then s.tls.value.alpn.value else [])
    ensures s.security != "tls" || s.tls.None? ==> r == EmptyOutboundTls.(enabled := s.security == "tls")
    ensures r.utls.None? && r.reality.None?
  {
    if s.security != "tls" then EmptyOutboundTls
    else
      match s.tls
      case None => EmptyOutboundTls.(enabled := true)
      case Some(t) =>
        OutboundTls(true, t.insecure, t.serverName, LastPicked(t.certs, InlineCert, ""), LastPicked(t.certs, CertPath, ""),
                    Alpn(t.alpn), None, None)
  }

  /** The TLS options and transport of the stream settings, or the transport's error. */
  function StreamOf(stream: Option<StreamConfig>): Result<(OutboundTls, Transport)> {
    match stream
    case None => Ok((EmptyOutboundTls, NoTransport))
    case Some(s) =>
      match TransportOf(s)
      case Err(e) => Err(e)
      case Ok(t) => Ok((TlsOf(s), t))
  }

  /** The outbound a V2Ray outbound becomes, or its error, with the domains after it. */
  function OutboundOf(c: OutboundConfig, domains: seq<string>): (Result<Outbound>, seq<string>) {
    match StreamOf(c.stream)
    case Err(e) => (Err(e), domains)
    case Ok((tls, transport)) =>
      match c.settings
      case Err(e) => (Err(e), domains)
      case Ok(p) =>
        match p
        case Blackhole => (Ok(Outbound(c.tag, BlockOutbound)), domains)
        case DnsProxy => (Ok(Outbound(c.tag, DnsOutbound)), domains)
        case Loopback => (Err(LoopbackError), domains)
        case Freedom(d, strategy) => (Ok(Outbound(c.tag, FreedomOf(d, strategy))), domains)
        case Client(client) =>
          var (r, domains') := ClientOutboundOf(client, tls, transport, domains);
          (if r.Ok? then Ok(Outbound(c.tag, r.value)) else Err(r.error), domains')
        case OtherOutbound(name) => (Err("unknown outbound type: " + name), domains)
  }

  /** `migrateOutbound`, step by step: stream settings and TLS first, then the payload. */
  method MigrateOutbound(c: OutboundConfig, domains: seq<string>) returns (r: Result<Outbound>, domains': seq<string>)
    ensures (r, domains') == OutboundOf(c, domains)
  {
    domains' := domains;
    var tls := EmptyOutboundTls;
    var transport := NoTransport;
    if c.stream.Some? {
      var s := c.stream.value;
      var t := ParseTransport(s);
      if t.Err? {
        return Err(t.error), domains';
      }
      transport := t.value;
      if s.security != "" {
        if s.security == "tls" {
          tls := tls.(enabled := true);
          if s.tls.Some? {
            var settings := s.tls.value;
            tls := tls.(insecure := settings.insecure, serverName := settings.serverName);
            var certificate, certificatePath := OutboundCertLoop(settings.certs);
            tls := tls.(certificate := certificate, certificatePath := certificatePath);
            if settings.alpn.Some? && |settings.alpn.value| > 0 {
              tls := tls.(alpn := settings.alpn.value);
            }
          }
        }
      }
    }
    if c.settings.Err? {
      return Err(c.settings.error), domains';
    }
    match c.settings.value {
      case Blackhole => r := Ok(Outbound(c.tag, BlockOutbound));
      case DnsProxy => r := Ok(Outbound(c.tag, DnsOutbound));
      case Loopback => r := Err(LoopbackError);
      case Freedom(d, strategy) => r := Ok(Outbound(c.tag, FreedomOf(d, strategy)));
      case Client(client) =>
        var o;
        o, domains' := ClientOutbound(client, tls, transport, domains);
        if o.Err? {
          return Err(o.error), domains';
        }
        r := Ok(Outbound(c.tag, o.value));
      case OtherOutbound(name) => r := Err("unknown outbound type: " + name);
    }
  }

  /** The tag is always copied; loopback and unknown payloads fail with their messages; only
      a client payload can add a domain, and then it adds its server's FQDN whether or not
      the outbound succeeds. */
  lemma OutboundOutcome(c: OutboundConfig, domains: seq<string>)
    ensures OutboundOf(c, domains).0.Ok? ==> OutboundOf(c, domains).0.value.tag == c.tag
    ensures StreamOf(c.stream).Ok? && c.settings == Ok(Loopback) ==> OutboundOf(c, domains).0 == Err(LoopbackError)
    ensures StreamOf(c.stream).Ok? && c.settings.Ok? && c.settings.value.OtherOutbound? ==>
      OutboundOf(c, domains).0 == Err("unknown outbound type: " + c.settings.value.typeName)
    ensures !(StreamOf(c.stream).Ok? && c.settings.Ok? && c.settings.value.Client?) ==> OutboundOf(c, domains).1 == domains
    ensures StreamOf(c.stream).Ok? && c.settings.Ok? && c.settings.value.Client? ==>
      OutboundOf(c, domains).1 == AddServer(ParseServerAddress(ClientServers(c.settings.value.client)).0, domains)
  {
  }

  /** A security other than "tls" (for example "xtls" or "reality") leaves TLS disabled, so no
      outbound carries TLS options. */
  lemma OnlyTlsEnablesTls(c: OutboundConfig, domains: seq<string>)
    requires c.stream.Some? && c.stream.value.security != "tls"
    requires OutboundOf(c, domains).0.Ok?
    ensures var o := OutboundOf(c, domains).0.value.options;
      (o.HttpOutbound? || o.TrojanOutbound? || o.VMessOutbound? || o.VLESSOutbound?) ==> o.tls.None?
  {
  }
}
