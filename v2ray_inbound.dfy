/** `migrateInbound` of `types/v2rayjson/inbound.go`: a V2Ray v4 inbound becomes a sing-box
    inbound. */
module V2RayInbound {
  import opened Wrappers
  import opened Net
  import opened Seqs
  import opened Legacy
  import opened SingBox
  import opened Tables
  import opened Accounts
  import opened Certs
  import opened V2RayConf
  import opened V2RayCommon
  import opened Inbounds

  /** The listen options before the socket settings: the listen address, and the first port
      of the port range truncated to 16 bits. */
  function ListenOf(c: InboundConfig): (r: ListenOptions)
    ensures c.portRange.Some? ==> r.listenPort == Uint16(c.portRange.value.from)
    ensures c.portRange.None? ==> r.listenPort == 0
    ensures r.listen == if c.listenOn.Some? then Some(NetAddrOf(c.listenOn.value)) else None
  {
    ListenOptions(if c.listenOn.Some? then Some(NetAddrOf(c.listenOn.value)) else None,
                  if c.portRange.Some? then Uint16(c.portRange.value.from) else 0, false, false, false)
  }

  /** The socket settings applied to the listen options: TCP fast open copied when given,
      and accepting the PROXY protocol turns on both proxy-protocol flags. */
  function SocketOf(listen: ListenOptions, socket: SocketSettings): (r: ListenOptions)
    ensures r.tcpFastOpen == if socket.tfo.Some? then socket.tfo.value else listen.tcpFastOpen
    ensures r.proxyProtocol == (socket.acceptProxyProtocol || listen.proxyProtocol)
    ensures r.proxyProtocolAcceptNoHeader == (socket.acceptProxyProtocol || listen.proxyProtocolAcceptNoHeader)
    ensures r.listen == listen.listen && r.listenPort == listen.listenPort
  {
    var l := if socket.tfo.Some? then listen.(tcpFastOpen := socket.tfo.value) else listen;
    if socket.acceptProxyProtocol then l.(proxyProtocol := true, proxyProtocolAcceptNoHeader := true) else l
  }

  /** The inbound TLS options of a stream: only "tls" enables TLS; the server name and a
      non-empty ALPN list are copied from its settings, and certificates, keys and their
      paths follow the inbound certificate loop. Without settings nothing else is set. */
  function TlsOf(s: StreamConfig): (r: InboundTls)
    ensures r.enabled <==> s.security == "tls"
    ensures s.security == "tls" && s.tls.Some? ==>
      r.certificate == LastPicked(s.tls.value.certs, InlineCert, "") && r.key == LastPicked(s.tls.value.certs, InlineKey, "") &&
      r.certificatePath == LastPicked(s.tls.value.certs, CertPath, "") && r.keyPath == LastPicked(s.tls.value.certs, KeyPath, "")
    ensures s.security == "tls" && s.tls.Some? ==>
      r.serverName == s.tls.value.serverName &&
      r.alpn == (if s.tls.value.alpn.Some? && |s.tls.value.alpn.value| > 0 then s.tls.value.alpn.value else [])
    ensures s.security != "tls" || s.tls.None? ==> r == EmptyInboundTls.(enabled := s.security == "tls")
    ensures r.reality.None?
  {
    if s.security != "tls" then EmptyInboundTls
    else
      match s.tls
      case None => EmptyInboundTls.(enabled := true)
      case Some(t) =>
        InboundTls(true, t.serverName, LastPicked(t.certs, InlineCert, ""), LastPicked(t.certs, InlineKey, ""),
                   LastPicked(t.certs, CertPath, ""), LastPicked(t.certs, KeyPath, ""),
                   if t.alpn.Some? && |t.alpn.value| > 0 then t.alpn.value else [], None)
  }

  /** What the stream settings contribute: listen options, TLS options, transport and the
      tproxy name, or the transport's error. */
  datatype StreamParts = StreamParts(listen: ListenOptions, tls: InboundTls, transport: Transport, tproxy: string)

  function StreamOf(listen: ListenOptions, stream: Option<StreamConfig>): (r: Result<StreamParts>)
    ensures r.Ok? ==> r.value.listen.listen == listen.listen && r.value.listen.listenPort == listen.listenPort
  {
    match stream
    case None => Ok(StreamParts(listen, EmptyInboundTls, NoTransport, ""))
    case Some(s) =>
      var l := if s.socket.Some? then SocketOf(listen, s.socket.value) else listen;
      var tproxy := if s.socket.Some? then s.socket.value.tproxy else "";
      match TransportOf(s)
      case Err(e) => Err(e)
      case Ok(t) => Ok(StreamParts(l, TlsOf(s), t, tproxy))
  }

  /** What a Shadowsocks account writes on an inbound: the inbound cipher table's method and
      the password. */
  function ShadowsocksFields(a: Account): (string, string) {
    if a.ShadowsocksAccount? then (InboundCipher(a.cipher), a.password) else ("", "")
  }

  /** The inbound a V2Ray inbound becomes, or its error. */
  function InboundOf(c: InboundConfig): Result<Inbound> {
    match StreamOf(ListenOf(c), c.stream)
    case Err(e) => Err(e)
    case Ok(parts) =>
      match c.settings
      case Err(e) => Err(e)
      case Ok(p) =>
        match p
        case Server(s) =>
          (match ServerInboundOf(s, parts.listen, parts.tls, parts.transport, parts.tproxy)
           case Err(e) => Err(e)
           case Ok(o) => Ok(Inbound(c.tag, o)))
        case ShadowsocksServer(network, user) =>
          if user.account.instance.Err? then Err(InstanceError(user, CreateAccount))
          else
            var (m, password) := ShadowsocksFields(user.account.instance.value);
            Ok(Inbound(c.tag, ShadowsocksInbound(parts.listen, ParseNetworks(network), m, password, [], [])))
        case OtherInbound(name) => Err("unsupported inbound type " + name)
  }

  /** The stream part of `migrateInbound`: socket settings, transport, then TLS. */
  method MigrateStream(listen: ListenOptions, stream: Option<StreamConfig>) returns (r: Result<StreamParts>)
    ensures r == StreamOf(listen, stream)
  {
    if stream.None? {
      return Ok(StreamParts(listen, EmptyInboundTls, NoTransport, ""));
    }
    var s := stream.value;
    var l, tproxy := listen, "";
    if s.socket.Some? {
      var socket := s.socket.value;
      if socket.tfo.Some? {
        l := l.(tcpFastOpen := socket.tfo.value);
      }
      tproxy := socket.tproxy;
      if socket.acceptProxyProtocol {
        l := l.(proxyProtocol := true, proxyProtocolAcceptNoHeader := true);
      }
    }
    var t := ParseTransport(s);
    if t.Err? {
      return Err(t.error);
    }
    var tls := EmptyInboundTls;
    if s.security != "" {
      if s.security == "tls" {
        tls := tls.(enabled := true);
        if s.tls.Some? {
          var settings := s.tls.value;
          tls := tls.(serverName := settings.serverName);
          var f := InboundCertLoop(settings.certs);
          tls := tls.(certificate := f.certificate, key := f.key, certificatePath := f.certificatePath, keyPath := f.keyPath);
          if settings.alpn.Some? && |settings.alpn.value| > 0 {
            tls := tls.(alpn := settings.alpn.value);
          }
        }
      }
    }
    r := Ok(StreamParts(l, tls, t.value, tproxy));
  }

  /** `migrateInbound`, step by step: listen options, stream settings, then the payload. */
  method MigrateInbound(c: InboundConfig) returns (r: Result<Inbound>)
    ensures r == InboundOf(c)
  {
    var listen := EmptyListen;
    if c.listenOn.Some? {
      listen := listen.(listen := Some(NetAddrOf(c.listenOn.value)));
    }
    if c.portRange.Some? {
      listen := listen.(listenPort := Uint16(c.portRange.value.from));
    }
    var parts := MigrateStream(listen, c.stream);
    if parts.Err? {
      return Err(parts.error);
    }
    if c.settings.Err? {
      return Err(c.settings.error);
    }
    var p := parts.value;
    match c.settings.value {
      case Server(s) =>
        var o := ServerInbound(s, p.listen, p.tls, p.transport, p.tproxy);
        if o.Err? {
          return Err(o.error);
        }
        r := Ok(Inbound(c.tag, o.value));
      case ShadowsocksServer(network, user) =>
        if user.account.instance.Err? {
          return Err(InstanceError(user, CreateAccount));
        }
        var m, password := "", "";
        var a := user.account.instance.value;
        if a.ShadowsocksAccount? {
          m, password := InboundCipher(a.cipher), a.password;
        }
        r := Ok(Inbound(c.tag, ShadowsocksInbound(p.listen, ParseNetworks(network), m, password, [], [])));
      case OtherInbound(name) =>
        r := Err("unsupported inbound type " + name);
    }
  }

  /** The tag is copied; the listen port is the port range's first port; an unknown payload
      and a Shadowsocks user whose account does not instantiate fail with their messages. */
  lemma InboundOutcome(c: InboundConfig)
    ensures InboundOf(c).Ok? ==> InboundOf(c).value.tag == c.tag
    ensures InboundOf(c).Ok? ==> InboundOf(c).value.options.listen.listenPort == if c.portRange.Some? then Uint16(c.portRange.value.from) else 0
    ensures StreamOf(ListenOf(c), c.stream).Ok? && c.settings.Ok? && c.settings.value.OtherInbound? ==>
      InboundOf(c) == Err("unsupported inbound type " + c.settings.value.typeName)
    ensures (StreamOf(ListenOf(c), c.stream).Ok? && c.settings.Ok? && c.settings.value.ShadowsocksServer? &&
             c.settings.value.user.account.instance.Err?) ==>
      InboundOf(c) == Err("create account: " + c.settings.value.user.account.instance.error)
  {
  }

  /** The socket settings: TCP fast open follows the flag when given, and accepting the PROXY
      protocol sets both proxy-protocol flags. */
  lemma InboundSocket(c: InboundConfig)
    requires c.stream.Some? && c.stream.value.socket.Some? && InboundOf(c).Ok?
    ensures var l := InboundOf(c).value.options.listen;
      var socket := c.stream.value.socket.value;
      l.tcpFastOpen == (socket.tfo.Some? && socket.tfo.value) &&
      l.proxyProtocol == socket.acceptProxyProtocol && l.proxyProtocolAcceptNoHeader == socket.acceptProxyProtocol
  {
  }
}
