/** The inbound cases that the V2Ray and Xray translators (`types/v2rayjson/inbound.go`,
    `types/xrayjson/inbound.go`) handle with the same code: dokodemo-door selection, the
    HTTP and SOCKS account maps, and the VMess, VLESS and Trojan user lists. */
module Inbounds {
  import opened Wrappers
  import opened Net
  import opened Seqs
  import opened Legacy
  import opened SingBox
  import opened Accounts
  import opened V2RayCommon

  /** The dokodemo-door inbound: redirect when it follows redirects or the socket asks for
      "redirect", otherwise tproxy when the socket asks for "tproxy", otherwise a direct
      inbound with the override address and port. */
  function DokodemoOf(d: ServerConfig, listen: ListenOptions, tproxy: string): (r: InboundOptions)
    requires d.Dokodemo?
    ensures r.RedirectInbound? <==> d.followRedirect || tproxy == "redirect"
    ensures r.TProxyInbound? <==> !d.followRedirect && tproxy != "redirect" && tproxy == "tproxy"
    ensures r.listen == listen
    ensures r.TProxyInbound? ==> r.network == ParseNetworks(d.networks)
    ensures r.DirectInbound? ==>
      r.network == ParseNetworks(d.networks) && r.overridePort == Uint16(d.port) &&
      r.overrideAddress == (if d.address.Some? then AddressString(d.address.value) else "")
  {
    if d.followRedirect || tproxy == "redirect" then RedirectInbound(listen)
    else if tproxy == "tproxy" then TProxyInbound(listen, ParseNetworks(d.networks))
    else DirectInbound(listen, if d.address.Some? then AddressString(d.address.value) else "", Uint16(d.port),
                       ParseNetworks(d.networks))
  }

  function ToAuthUser(account: (string, string)): AuthUser {
    AuthUser(account.0, account.1)
  }

  /** A VMess user for a VMess account. */
  function VMessUserOf(email: string, a: Account): Option<VMessUser> {
    if a.VMessAccount? then Some(VMessUser(email, a.id, a.alterId)) else None
  }

  /** A VLESS user for a VLESS account. */
  function VLESSUserOf(email: string, a: Account): Option<VLESSUser> {
    if a.VLESSAccount? then Some(VLESSUser(email, a.id, a.flow)) else None
  }

  /** A Trojan user for a Trojan account. */
  function TrojanUserOf(email: string, a: Account): Option<TrojanUser> {
    if a.TrojanAccount? then Some(TrojanUser(email, a.password)) else None
  }

  /** The inbound a shared server payload becomes, given the listen options, the stream's TLS
      options and transport and the socket's tproxy name. */
  function ServerInboundOf(s: ServerConfig, listen: ListenOptions, tls: InboundTls, transport: Transport, tproxy: string)
    : (r: Result<InboundOptions>)
    ensures r.Ok? ==> r.value.listen == listen
  {
    var tlsOpt := if tls.enabled then Some(tls) else None;
    var transportOpt := if TransportType(transport) != "" then Some(transport) else None;
    match s
    case Dokodemo(_, _, _, _) => Ok(DokodemoOf(s, listen, tproxy))
    case HttpServer(accounts) =>
      Ok(HttpInbound(listen, Map(accounts, ToAuthUser), if tls.enabled && |accounts| > 0 then Some(tls) else None))
    case SocksServer(accounts) => Ok(SocksInbound(listen, Map(accounts, ToAuthUser)))
    case VMessServer(users) =>
      (match Instances(users, GetInstance)
       case Err(e) => Err(e)
       case Ok(accounts) => Ok(VMessInbound(listen, Collected(users, accounts, VMessUserOf), tlsOpt, transportOpt)))
    case VLESSServer(clients) =>
      (match Instances(clients, GetInstance)
       case Err(e) => Err(e)
       case Ok(accounts) => Ok(VLESSInbound(listen, Collected(clients, accounts, VLESSUserOf), tlsOpt, transportOpt)))
    case TrojanServer(users) =>
      match Instances(users, GetInstance)
      case Err(e) => Err(e)
      case Ok(accounts) => Ok(TrojanInbound(listen, Collected(users, accounts, TrojanUserOf), tlsOpt, transportOpt))
  }

  /** The HTTP accounts loop: one user per account in iteration order, and the TLS options
      attached inside the loop body, so only when TLS is enabled and there is an account. */
  method HttpAccountsLoop(accounts: seq<(string, string)>, tls: InboundTls) returns (users: seq<AuthUser>, attached: Option<InboundTls>)
    ensures users == Map(accounts, ToAuthUser)
    ensures attached == if tls.enabled && |accounts| > 0 then Some(tls) else None
  {
    users, attached := [], None;
    var i := 0;
    while i < |accounts|
      invariant 0 <= i <= |accounts|
      invariant users == Map(accounts[..i], ToAuthUser)
      invariant attached == if tls.enabled && i > 0 then Some(tls) else None
    {
      users := users + [AuthUser(accounts[i].0, accounts[i].1)];
      if tls.enabled {
        attached := Some(tls);
      }
      i := i + 1;
    }
    assert accounts[..i] == accounts;
  }

  /** The shared server cases of the translators' type switch, with their loops. */
  method ServerInbound(s: ServerConfig, listen: ListenOptions, tls: InboundTls, transport: Transport, tproxy: string)
    returns (r: Result<InboundOptions>)
    ensures r == ServerInboundOf(s, listen, tls, transport, tproxy)
  {
    var tlsOpt: Option<InboundTls> := None;
    if tls.enabled {
      tlsOpt := Some(tls);
    }
    var transportOpt: Option<Transport> := None;
    if TransportType(transport) != "" {
      transportOpt := Some(transport);
    }
    match s {
      case Dokodemo(_, _, _, _) =>
        r := Ok(DokodemoOf(s, listen, tproxy));
      case HttpServer(accounts) =>
        var users, attached := HttpAccountsLoop(accounts, tls);
        r := Ok(HttpInbound(listen, users, attached));
      case SocksServer(accounts) =>
        var users := MapAll(accounts, ToAuthUser);
        r := Ok(SocksInbound(listen, users));
      case VMessServer(users) =>
        var out := CollectLoop(users, VMessUserOf);
        if out.Err? { return Err(out.error); }
        r := Ok(VMessInbound(listen, out.value, tlsOpt, transportOpt));
      case VLESSServer(clients) =>
        var out := CollectLoop(clients, VLESSUserOf);
        if out.Err? { return Err(out.error); }
        r := Ok(VLESSInbound(listen, out.value, tlsOpt, transportOpt));
      case TrojanServer(users) =>
        var out := CollectLoop(users, TrojanUserOf);
        if out.Err? { return Err(out.error); }
        r := Ok(TrojanInbound(listen, out.value, tlsOpt, transportOpt));
    }
  }

  /** A VMess server whose accounts are all VMess accounts yields one user per source user,
      in order, named by the user's email. */
  lemma VMessUsersOnePerUser(users: seq<User>, listen: ListenOptions, tls: InboundTls, transport: Transport, tproxy: string)
    requires forall i :: 0 <= i < |users| ==> users[i].account.instance.Ok? && users[i].account.instance.value.VMessAccount?
    ensures var r := ServerInboundOf(VMessServer(users), listen, tls, transport, tproxy);
      r.Ok? && |r.value.vmessUsers| == |users| &&
      forall i :: 0 <= i < |users| ==>
        r.value.vmessUsers[i] == VMessUser(users[i].email, users[i].account.instance.value.id, users[i].account.instance.value.alterId)
  {
    var accounts := Instances(users, GetInstance).value;
    assert forall i :: 0 <= i < |users| ==> VMessUserOf(users[i].email, accounts[i]).Some?;
    CollectedAccepted(users, accounts, VMessUserOf);
  }

  /** The TLS options ride on the VMess, VLESS and Trojan inbounds exactly when enabled, and the
      transport exactly when its type is not empty; a failing account fails the inbound. */
  lemma ServerInboundAttachments(s: ServerConfig, listen: ListenOptions, tls: InboundTls, transport: Transport, tproxy: string)
    ensures var r := ServerInboundOf(s, listen, tls, transport, tproxy);
      r.Ok? && (r.value.VMessInbound? || r.value.VLESSInbound? || r.value.TrojanInbound?) ==>
        (r.value.tls.Some? <==> tls.enabled) && (r.value.transport.Some? <==> TransportType(transport) != "")
    ensures var r := ServerInboundOf(s, listen, tls, transport, tproxy);
      r.Ok? && r.value.HttpInbound? ==> (r.value.httpTls.Some? <==> tls.enabled && |s.accounts| > 0)
    ensures s.VMessServer? || s.VLESSServer? || s.TrojanServer? ==>
      (ServerInboundOf(s, listen, tls, transport, tproxy).Err? <==> Instances(if s.VLESSServer? then s.clients else s.users, GetInstance).Err?)
  {
  }
}
