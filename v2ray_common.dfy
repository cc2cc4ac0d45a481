/** Helpers of `types/v2rayjson/common.go`: the first server endpoint, the network filter and
    the stream-transport dispatch. */
module V2RayCommon {
  import opened Wrappers
  import opened Net
  import opened Legacy
  import opened SingBox
  import opened V2RayConf

  /** `parseServerAddress`: the first endpoint's address and port and its users; the zero
      address and no users for an empty list. */
  function ParseServerAddress(servers: seq<ServerEndpoint>): (Socksaddr, seq<User>) {
    if |servers| == 0 then (Socksaddr(NoHost, 0), [])
    else (SocksaddrOf(servers[0].address, Uint16(servers[0].port)), servers[0].users)
  }

  /** Only the first endpoint matters, and no endpoint means no host, port 0 and no users. */
  lemma ServerAddressUsesFirst(first: ServerEndpoint, rest: seq<ServerEndpoint>)
    ensures ParseServerAddress([first] + rest) == ParseServerAddress([first])
    ensures ParseServerAddress([first]).1 == first.users
    ensures ParseServerAddress([]) == (Socksaddr(NoHost, 0), [])
  {
  }

  /** The networks the filter keeps: TCP and UDP, in order. */
  function TcpUdp(networks: seq<Network>): (r: seq<Network>)
    ensures forall n :: n in r ==> n == TCP || n == UDP
    ensures multiset(r)[TCP] == multiset(networks)[TCP]
    ensures multiset(r)[UDP] == multiset(networks)[UDP]
    decreases |networks|
  {
    if |networks| == 0 then []
    else
      var prefix := networks[..|networks| - 1];
      var n := networks[|networks| - 1];
      assert networks == prefix + [n];
      if n == TCP || n == UDP then TcpUdp(prefix) + [n] else TcpUdp(prefix)
  }

  /** `parseNetworks`: "tcp" or "udp" when exactly one TCP or UDP entry remains after
      filtering, "" otherwise. */
  function ParseNetworks(networks: seq<Network>): string {
    var kept := TcpUdp(networks);
    if |kept| == 1 then (if kept[0] == TCP then "tcp" else "udp") else ""
  }

  /** In terms of the input: the name is "tcp" exactly when the list holds one TCP and no UDP,
      "udp" exactly when it holds one UDP and no TCP, and "" in every other case, so
      [TCP, UDP] and [TCP, TCP] both give "". */
  lemma {:induction false} ParseNetworksCounts(networks: seq<Network>)
    ensures ParseNetworks(networks) == "tcp" <==> multiset(networks)[TCP] == 1 && multiset(networks)[UDP] == 0
    ensures ParseNetworks(networks) == "udp" <==> multiset(networks)[UDP] == 1 && multiset(networks)[TCP] == 0
    ensures ParseNetworks(networks) in {"tcp", "udp", ""}
  {
    var kept := TcpUdp(networks);
    assert |kept| == multiset(kept)[TCP] + multiset(kept)[UDP] by {
      OnlyTcpUdpCount(kept);
    }
    if |kept| == 1 {
      assert kept == [kept[0]];
      assert kept[0] in kept;
    }
  }

  /** A list of TCP and UDP entries has as many elements as TCP and UDP occurrences. */
  lemma {:induction false} OnlyTcpUdpCount(s: seq<Network>)
    requires forall n :: n in s ==> n == TCP || n == UDP
    ensures |s| == multiset(s)[TCP] + multiset(s)[UDP]
    decreases |s|
  {
    if |s| > 0 {
      assert s == [s[0]] + s[1..];
      assert s[0] in s;
      assert forall n :: n in s[1..] ==> n in s;
      OnlyTcpUdpCount(s[1..]);
    }
  }

  /** `parseNetworkList`: "" for an absent list, otherwise `parseNetworks` of the built list. */
  function ParseNetworkList(networks: Option<seq<Network>>): (r: string)
    ensures networks.None? ==> r == ""
    ensures networks.Some? ==> r == ParseNetworks(networks.value)
  {
    match networks
    case None => ""
    case Some(ns) => ParseNetworks(ns)
  }

  /** A header with a present, non-empty value list. */
  predicate HasValue(v: Option<seq<string>>) {
    v.Some? && |v.value| > 0
  }

  /** The HTTP header map the transport carries: the first value of every header that has one. */
  function FirstValues(headers: map<string, Option<seq<string>>>): map<string, string> {
    map k | k in headers && HasValue(headers[k]) :: headers[k].value[0]
  }

  const TcpHeaderError := "unsupported v2ray TCP transport with header"

  /** The transport `parseTransport` builds from stream settings, or its error. */
  function TransportOf(s: StreamConfig): Result<Transport> {
    match s.network
    case None => Ok(NoTransport)
    case Some(Err(e)) => Err(e)
    case Some(Ok(name)) =>
      if name == "tcp" then
        if s.tcp.Some? && s.tcp.value.hasHeaderConfig then Err(TcpHeaderError) else Ok(NoTransport)
      else if name == "http" then
        match s.http
        case None => Ok(HttpTransport([], "", "", map[]))
        case Some(h) => Ok(HttpTransport(if h.host.Some? then h.host.value else [], h.path, h.httpMethod, FirstValues(h.headers)))
      else if name == "ws" then
        match s.ws
        case None => Ok(WebsocketTransport("", map[], 0, ""))
        case Some(w) => Ok(WebsocketTransport(w.path, if w.headers.Some? then w.headers.value else map[],
                                               Uint32OfInt32(w.maxEarlyData), w.earlyDataHeaderName))
      else if name == "grpc" || name == "gun" then
        Ok(GrpcTransport(if s.grpc.Some? then s.grpc.value.serviceName
                         else if s.gun.Some? then s.gun.value.serviceName else ""))
      else if name == "quic" then Ok(QuicTransport)
      else Err("unsupported v2ray transport type: " + name)
  }

  /** The dispatch, case by case: a missing descriptor gives no transport and no error; a
      failing build passes its error on; "tcp" is no transport unless it carries a header
      configuration; "grpc" and "gun" are one transport, preferring the gRPC block's service
      name; any name outside the six known ones is an error that names it. */
  lemma TransportDispatch(s: StreamConfig)
    ensures s.network.None? ==> TransportOf(s) == Ok(NoTransport)
    ensures s.network == Some(Ok("tcp")) ==>
      (TransportOf(s).Err? <==> s.tcp.Some? && s.tcp.value.hasHeaderConfig) &&
      (TransportOf(s).Ok? ==> TransportType(TransportOf(s).value) == "")
    ensures s.network.Some? && s.network.value.Ok? && s.network.value.value in {"grpc", "gun"} ==>
      TransportOf(s).Ok? && TransportOf(s).value.GrpcTransport? &&
      (s.grpc.Some? ==> TransportOf(s).value.serviceName == s.grpc.value.serviceName)
    ensures s.network == Some(Ok("quic")) ==> TransportOf(s) == Ok(QuicTransport)
    ensures s.network.Some? && s.network.value.Ok? && s.network.value.value !in {"tcp", "http", "ws", "grpc", "gun", "quic"} ==>
      TransportOf(s) == Err("unsupported v2ray transport type: " + s.network.value.value)
    ensures TransportOf(s).Ok? && TransportOf(s).value != NoTransport ==>
      s.network.Some? && s.network.value.Ok? && TransportType(TransportOf(s).value) == (if s.network.value.value == "gun" then "grpc" else s.network.value.value)
  {
  }

  /** An HTTP transport keeps exactly the headers with a value, each with its first value. */
  lemma HttpHeadersFirstValue(headers: map<string, Option<seq<string>>>, k: string)
    ensures k in FirstValues(headers) <==> k in headers && HasValue(headers[k])
    ensures k in FirstValues(headers) ==> FirstValues(headers)[k] == headers[k].value[0]
  {
  }

  /** The HTTP header loop, visiting the keys in whatever order the runtime picks. */
  method CopyFirstValues(headers: map<string, Option<seq<string>>>) returns (out: map<string, string>)
    ensures out == FirstValues(headers)
  {
    out := map[];
    var todo := headers.Keys;
    while todo != {}
      invariant todo <= headers.Keys
      invariant forall k :: k in out <==> k in headers && k !in todo && HasValue(headers[k])
      invariant forall k :: k in out ==> out[k] == headers[k].value[0]
      decreases todo
    {
      var k :| k in todo;
      var v := headers[k];
      if v.Some? && |v.value| > 0 {
        out := out[k := v.value[0]];
      }
      todo := todo - {k};
    }
  }

  /** The WebSocket header loop: copies every header. */
  method CopyHeaders(headers: map<string, string>) returns (out: map<string, string>)
    ensures out == headers
  {
    out := map[];
    var todo := headers.Keys;
    while todo != {}
      invariant todo <= headers.Keys
      invariant forall k :: k in out <==> k in headers && k !in todo
      invariant forall k :: k in out ==> out[k] == headers[k]
      decreases todo
    {
      var k :| k in todo;
      out := out[k := headers[k]];
      todo := todo - {k};
    }
  }

  /** `parseTransport`, building the record field by field. */
  method ParseTransport(s: StreamConfig) returns (r: Result<Transport>)
    ensures r == TransportOf(s)
  {
    if s.network.None? {
      return Ok(NoTransport);
    }
    if s.network.value.Err? {
      return Err(s.network.value.error);
    }
    var name := s.network.value.value;
    if name == "tcp" {
      if s.tcp.Some? && s.tcp.value.hasHeaderConfig {
        return Err(TcpHeaderError);
      }
      r := Ok(NoTransport);
    } else if name == "http" {
      var host, path, httpMethod, headers := [], "", "", map[];
      if s.http.Some? {
        var h := s.http.value;
        if h.host.Some? {
          host := h.host.value;
        }
        path, httpMethod := h.path, h.httpMethod;
        if |h.headers| > 0 {
          headers := CopyFirstValues(h.headers);
        } else {
          assert h.headers == map[];
        }
      }
      r := Ok(HttpTransport(host, path, httpMethod, headers));
    } else if name == "ws" {
      var path, headers, maxEarlyData, headerName := "", map[], 0, "";
      if s.ws.Some? {
        var w := s.ws.value;
        path := w.path;
        if w.headers.Some? {
          headers := CopyHeaders(w.headers.value);
        }
        maxEarlyData, headerName := Uint32OfInt32(w.maxEarlyData), w.earlyDataHeaderName;
      }
      r := Ok(WebsocketTransport(path, headers, maxEarlyData, headerName));
    } else if name == "grpc" || name == "gun" {
      var serviceName := "";
      if s.grpc.Some? {
        serviceName := s.grpc.value.serviceName;
      } else if s.gun.Some? {
        serviceName := s.gun.value.serviceName;
      }
      r := Ok(GrpcTransport(serviceName));
    } else if name == "quic" {
      r := Ok(QuicTransport);
    } else {
      r := Err("unsupported v2ray transport type: " + name);
    }
  }
}
