/** `migrateInbound` of `types/xrayjson/inbound.go`: as the V2Ray translator, plus REALITY,
    numeric TCP fast open, and the Shadowsocks and Shadowsocks 2022 servers. The Xray
    package's own `parseNetworks` is not part of this model; it is taken to be the V2Ray one
    of `V2RayCommon`. */
module XrayInbound {
  import opened Wrappers
  import opened Net
  import opened Seqs
  import opened Legacy
  import opened SingBox
  import opened Tables
  import opened Accounts
  import opened Certs
  import opened XrayConf
  import opened V2RayCommon
  import opened Inbounds

  /** The listen options before the socket settings: the listen address and the port that
      the package's port parser gave for a present port list. */
  function ListenOf(c: InboundConfig): ListenOptions {
    ListenOptions(if c.listenOn.Some? then Some(NetAddrOf(c.listenOn.value)) else None,
                  if c.port.Some? then c.port.value else 0, false, false, false)
  }

  /** `tcpFastOpen`: a boolean is copied, a number means "on" unless it is -1, and any other
      value leaves the option as it was. */
  function FastOpen(tfo: Tfo, current: bool): (r: bool)
    ensures tfo.TfoBool? ==> r == tfo.b
    ensures tfo.TfoNumber? ==> (r <==> tfo.x != -1.0)
    ensures tfo.TfoUnset? || tfo.TfoOther? ==> r == current
  {
    match tfo
    case TfoBool(b) => b
    case TfoNumber(x) => x != -1.0
    case _ => current
  }

  /** The socket settings applied to the listen options. */
  function SocketOf(listen: ListenOptions, socket: SocketSettings): (r: ListenOptions)
    ensures r.tcpFastOpen == FastOpen(socket.tfo, listen.tcpFastOpen)
    ensures r.proxyProtocol == (socket.acceptProxyProtocol || listen.proxyProtocol)
    ensures r.proxyProtocolAcceptNoHeader == (socket.acceptProxyProtocol || listen.proxyProtocolAcceptNoHeader)
    ensures r.listen == listen.listen && r.listenPort == listen.listenPort
  {
    var l := listen.(tcpFastOpen := FastOpen(socket.tfo, listen.tcpFastOpen));
    if socket.acceptProxyProtocol then l.(proxyProtocol := true, proxyProtocolAcceptNoHeader := true) else l
  }

  /** The loopback address `net.LocalHostIP` prints as. */
  const LocalHost := "127.0.0.1"

  const NanosPerMilli := 1_000_000

  /** The REALITY handshake server: a string destination is its host and port, a numeric one
      is the local host with that port, and an undecodable or other destination leaves it
      unset. */
  function HandshakeOf(dest: RealityDest): (string, Port) {
    match dest
    case DestString(a) => (AddrString(a), a.port)
    case DestNumber(p) => (LocalHost, p)
    case _ => ("", 0)
  }

  /** The inbound REALITY options: the private key, the short ids, the time difference in
      nanoseconds and the handshake server. */
  function RealityOf(x: RealitySettings): (r: InboundReality)
    ensures r.maxTimeDifference == x.maxTimeDiff * NanosPerMilli
    ensures x.dest.DestNumber? ==> r.handshakeServer == LocalHost && r.handshakeServerPort == x.dest.port
    ensures x.dest.DestString? ==> r.handshakeServer == AddrString(x.dest.addr) && r.handshakeServerPort == x.dest.addr.port
    ensures x.dest.NoDest? || x.dest.DestUndecodable? || x.dest.DestOther? ==> r.handshakeServer == "" && r.handshakeServerPort == 0
  {
    var (server, port) := HandshakeOf(x.dest);
    InboundReality(x.privateKey, x.shortIds, x.maxTimeDiff * NanosPerMilli, server, port)
  }

  /** The inbound TLS options of a stream: "tls" and "reality" enable TLS; TLS settings give
      the server name, a non-empty ALPN list and the certificates and keys; with REALITY the
      server name is the first of the server names, when there is one. Without settings, or
      with any other security, the options are empty. */
  function TlsOf(s: StreamConfig): (r: InboundTls)
    ensures r.enabled <==> s.security in {"tls", "reality"}
    ensures s.security == "tls" && s.tls.Some? ==>
      r.certificate == LastPicked(s.tls.value.certs, InlineCert, "") && r.key == LastPicked(s.tls.value.certs, InlineKey, "") &&
      r.certificatePath == LastPicked(s.tls.value.certs, CertPath, "") && r.keyPath == LastPicked(s.tls.value.certs, KeyPath, "")
    ensures s.security == "tls" && s.tls.Some? ==>
      r.serverName == s.tls.value.serverName &&
      r.alpn == (if s.tls.value.alpn.Some? && |s.tls.value.alpn.value| > 0 then s.tls.value.alpn.value else [])
    ensures (s.security == "tls" && s.tls.None?) || (s.security == "reality" && s.reality.None?) ==>
      r == EmptyInboundTls.(enabled := true)
    ensures s.security !in {"tls", "reality"} ==> r == EmptyInboundTls
    ensures r.reality.Some? <==> s.security == "reality" && s.reality.Some?
    ensures s.security == "reality" && s.reality.Some? ==>
      r.serverName == (if |s.reality.value.serverNames| > 0 then s.reality.value.serverNames[0] else "") &&
      r.reality == Some(RealityOf(s.reality.value))
  {
    if s.security == "tls" then
      match s.tls
      case None => EmptyInboundTls.(enabled := true)
      case Some(t) =>
        InboundTls(true, t.serverName, LastPicked(t.certs, InlineCert, ""), LastPicked(t.certs, InlineKey, ""),
                   LastPicked(t.certs, CertPath, ""), LastPicked(t.certs, KeyPath, ""),
                   if t.alpn.Some? && |t.alpn.value| > 0 then t.alpn.value else [], None)
    else if s.security == "reality" then
      match s.reality
      case None => EmptyInboundTls.(enabled := true)
      case Some(x) =>
        EmptyInboundTls.(enabled := true, serverName := if |x.serverNames| > 0 then x.serverNames[0] else "",
                         reality := Some(RealityOf(x)))
    else EmptyInboundTls
  }

  datatype StreamParts = StreamParts(listen: ListenOptions, tls: InboundTls, transport: Transport, tproxy: string)

  /** What the stream settings contribute, or the transport's error. */
  function StreamOf(listen: ListenOptions, stream: Option<StreamConfig>): Result<StreamParts> {
    match stream
    case None => Ok(StreamParts(listen, EmptyInboundTls, NoTransport, ""))
    case Some(s) =>
      var l := if s.socket.Some? then SocketOf(listen, s.socket.value) else listen;
      var tproxy := if s.socket.Some? then s.socket.value.tproxy else "";
      match s.transport
      case Err(e) => Err(e)
      case Ok(t) => Ok(StreamParts(l, TlsOf(s), t, tproxy))
  }

  /** What a Shadowsocks user's account writes on the inbound: the inbound cipher table's
      method and the password. */
  function ShadowsocksFields(a: Account): Option<(string, string)> {
    if a.ShadowsocksAccount? then Some((InboundCipher(a.cipher), a.password)) else None
  }

  function MultiUserOf(u: MultiUser): ShadowsocksUser {
    ShadowsocksUser(u.email, u.key)
  }

  function DestinationOf(d: RelayDestination): ShadowsocksDestination {
    ShadowsocksDestination(d.email, d.key, AddressString(d.address), Uint16(d.port))
  }

  /** The inbound an Xray inbound becomes, or its error. */
  function InboundOf(c: InboundConfig): Result<Inbound> {
    match StreamOf(ListenOf(c), c.stream)
    case Err(e) => Err(e)
    case Ok(parts) =>
      match c.settings
      case Err(e) => Err(e)
      case Ok(p) =>
        match p
        case Server(s) =>
          (match ServerInboundOf(s, parts.listen, parts.tls, parts.transport, parts.tproxy)
           case Err(e) => Err(e)
           case Ok(o) => Ok(Inbound(c.tag, o)))
        case ShadowsocksServer(network, users) =>
          (match Instances(users, CreateAccount)
           case Err(e) => Err(e)
           case Ok(accounts) =>
             var (m, password) := LastPicked(accounts, ShadowsocksFields, ("", ""));
             Ok(Inbound(c.tag, ShadowsocksInbound(parts.listen, ParseNetworks(network), m, password, [], []))))
        case Shadowsocks2022Server(network, m, key) =>
          Ok(Inbound(c.tag, ShadowsocksInbound(parts.listen, ParseNetworks(network), m, key, [], [])))
        case Shadowsocks2022MultiUser(network, m, key, multiUsers) =>
          Ok(Inbound(c.tag, ShadowsocksInbound(parts.listen, ParseNetworks(network), m, key, Map(multiUsers, MultiUserOf), [])))
        case Shadowsocks2022Relay(network, m, key, destinations) =>
          Ok(Inbound(c.tag, ShadowsocksInbound(parts.listen, ParseNetworks(network), m, key, [], Map(destinations, DestinationOf))))
        case OtherInbound(name) => Err("unsupported inbound type " + name)
  }

  /** The socket settings of `migrateInbound`: fast open, tproxy and the PROXY protocol. */
  method MigrateSocket(listen: ListenOptions, socket: SocketSettings) returns (l: ListenOptions)
    ensures l == SocketOf(listen, socket)
  {
    l := listen;
    match socket.tfo {
      case TfoBool(b) => l := l.(tcpFastOpen := b);
      case TfoNumber(x) => l := l.(tcpFastOpen := x != -1.0);
      case _ =>
    }
    if socket.acceptProxyProtocol {
      l := l.(proxyProtocol := true, proxyProtocolAcceptNoHeader := true);
    }
  }

  /** The security part of `migrateInbound`: TLS with its certificate loop and ALPN, or
      REALITY with its handshake server. */
  method MigrateTls(s: StreamConfig) returns (tls: InboundTls)
    ensures tls == TlsOf(s)
  {
    tls := EmptyInboundTls;
    if s.security == "tls" {
      tls := tls.(enabled := true);
      if s.tls.Some? {
        var settings := s.tls.value;
        tls := tls.(serverName := settings.serverName);
        var f := InboundCertLoop(settings.certs);
        tls := tls.(certificate := f.certificate, key := f.key, certificatePath := f.certificatePath, keyPath := f.keyPath);
        if settings.alpn.Some? && |settings.alpn.value| > 0 {
          tls := tls.(alpn := settings.alpn.value);
        }
      }
    } else if s.security == "reality" {
      tls := tls.(enabled := true);
      if s.reality.Some? {
        var x := s.reality.value;
        if |x.serverNames| > 0 {
          tls := tls.(serverName := x.serverNames[0]);
        }
        var reality := InboundReality(x.privateKey, x.shortIds, x.maxTimeDiff * NanosPerMilli, "", 0);
        match x.dest {
          case DestString(a) => reality := reality.(handshakeServer := AddrString(a), handshakeServerPort := a.port);
          case DestNumber(port) => reality := reality.(handshakeServer := LocalHost, handshakeServerPort := port);
          case _ =>
        }
        tls := tls.(reality := Some(reality));
      }
    }
  }

  /** The stream part of `migrateInbound`: socket settings, transport, then TLS or REALITY. */
  method MigrateStream(listen: ListenOptions, stream: Option<StreamConfig>) returns (r: Result<StreamParts>)
    ensures r == StreamOf(listen, stream)
  {
    if stream.None? {
      return Ok(StreamParts(listen, EmptyInboundTls, NoTransport, ""));
    }
    var s := stream.value;
    var l, tproxy := listen, "";
    if s.socket.Some? {
      l := MigrateSocket(listen, s.socket.value);
      tproxy := s.socket.value.tproxy;
    }
    if s.transport.Err? {
      return Err(s.transport.error);
    }
    var tls := MigrateTls(s);
    r := Ok(StreamParts(l, tls, s.transport.value, tproxy));
  }

  /** The Shadowsocks server's user loop: every Shadowsocks account overwrites the method and
      password, so the last one wins. */
  method ShadowsocksUsers(users: seq<User>) returns (r: Result<(string, string)>)
    ensures Instances(users, CreateAccount).Err? ==> r == Err(Instances(users, CreateAccount).error)
    ensures Instances(users, CreateAccount).Ok? ==> r == Ok(LastPicked(Instances(users, CreateAccount).value, ShadowsocksFields, ("", "")))
  {
    r := OverwriteLoop(users, CreateAccount, ShadowsocksFields, ("", ""));
  }

  /** `migrateInbound`, step by step: listen options, stream settings, then the payload. */
  method MigrateInbound(c: InboundConfig) returns (r: Result<Inbound>)
    ensures r == InboundOf(c)
  {
    var listen := EmptyListen;
    if c.listenOn.Some? {
      listen := listen.(listen := Some(NetAddrOf(c.listenOn.value)));
    }
    if c.port.Some? {
      listen := listen.(listenPort := c.port.value);
    }
    assert listen == ListenOf(c);
    var parts := MigrateStream(listen, c.stream);
    if parts.Err? {
      return Err(parts.error);
    }
    if c.settings.Err? {
      return Err(c.settings.error);
    }
    var p := parts.value;
    match c.settings.value {
      case Server(s) =>
        var o := ServerInbound(s, p.listen, p.tls, p.transport, p.tproxy);
        if o.Err? {
          return Err(o.error);
        }
        r := Ok(Inbound(c.tag, o.value));
      case ShadowsocksServer(network, users) =>
        var fields := ShadowsocksUsers(users);
        if fields.Err? {
          return Err(fields.error);
        }
        r := Ok(Inbound(c.tag, ShadowsocksInbound(p.listen, ParseNetworks(network), fields.value.0, fields.value.1, [], [])));
      case Shadowsocks2022Server(network, m, key) =>
        r := Ok(Inbound(c.tag, ShadowsocksInbound(p.listen, ParseNetworks(network), m, key, [], [])));
      case Shadowsocks2022MultiUser(network, m, key, multiUsers) =>
        var ssUsers := MapAll(multiUsers, MultiUserOf);
        r := Ok(Inbound(c.tag, ShadowsocksInbound(p.listen, ParseNetworks(network), m, key, ssUsers, [])));
      case Shadowsocks2022Relay(network, m, key, destinations) =>
        var ds := MapAll(destinations, DestinationOf);
        r := Ok(Inbound(c.tag, ShadowsocksInbound(p.listen, ParseNetworks(network), m, key, [], ds)));
      case OtherInbound(name) =>
        r := Err("unsupported inbound type " + name);
    }
  }

  /** The tag is copied, an unknown payload fails, and the multi-user and relay servers give
      one user per source user and one destination per source destination, in order. */
  lemma InboundOutcome(c: InboundConfig)
    ensures InboundOf(c).Ok? ==> InboundOf(c).value.tag == c.tag
    ensures StreamOf(ListenOf(c), c.stream).Ok? && c.settings.Ok? && c.settings.value.OtherInbound? ==>
      InboundOf(c) == Err("unsupported inbound type " + c.settings.value.typeName)
    ensures (StreamOf(ListenOf(c), c.stream).Ok? && c.settings.Ok? && c.settings.value.Shadowsocks2022MultiUser?) ==>
      var users := c.settings.value.multiUsers;
      var o := InboundOf(c).value.options;
      InboundOf(c).Ok? && |o.ssUsers| == |users| &&
      forall i :: 0 <= i < |users| ==> o.ssUsers[i] == ShadowsocksUser(users[i].email, users[i].key)
    ensures (StreamOf(ListenOf(c), c.stream).Ok? && c.settings.Ok? && c.settings.value.Shadowsocks2022Relay?) ==>
      var ds := c.settings.value.destinations;
      var o := InboundOf(c).value.options;
      InboundOf(c).Ok? && |o.destinations| == |ds| &&
      forall i :: 0 <= i < |ds| ==> o.destinations[i] == ShadowsocksDestination(ds[i].email, ds[i].key, AddressString(ds[i].address), Uint16(ds[i].port))
  {
  }
}
