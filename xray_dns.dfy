/** `migrateDNS` and `parseStrategy` of `types/xrayjson/dns.go`. */
module XrayDns {
  import opened Wrappers
  import opened Strings
  import opened Legacy
  import opened SingBox

  const UseIPv4Spellings := {"useip4", "useipv4", "use_ip4", "use_ipv4", "use_ip_v4", "use-ip4", "use-ipv4", "use-ip-v4"}
  const UseIPv6Spellings := {"useip6", "useipv6", "use_ip6", "use_ipv6", "use_ip_v6", "use-ip6", "use-ipv6", "use-ip-v6"}

  /** `parseStrategy`: a lookup of the lower-cased query strategy; anything else is "as is". */
  function ParseStrategy(queryStrategy: string): (r: DomainStrategy)
    ensures r == UseIPv4 <==> ToLower(queryStrategy) in UseIPv4Spellings
    ensures r == UseIPv6 <==> ToLower(queryStrategy) in UseIPv6Spellings
    ensures r != UseIPv4 && r != UseIPv6 ==> r == AsIs
  {
    var s := ToLower(queryStrategy);
    if s in UseIPv4Spellings then UseIPv4
    else if s in UseIPv6Spellings then UseIPv6
    else AsIs
  }

  lemma {:induction false} ToLowerIdempotent(s: string)
    ensures ToLower(ToLower(s)) == ToLower(s)
  {
    var once := ToLower(s);
    assert forall i :: 0 <= i < |s| ==> LowerChar(once[i]) == once[i];
  }

  /** The lookup ignores case; the empty strategy is "as is". */
  lemma StrategyIgnoresCase(queryStrategy: string)
    ensures ParseStrategy(ToLower(queryStrategy)) == ParseStrategy(queryStrategy)
    ensures ParseStrategy("") == AsIs
  {
    assert ParseStrategy(ToLower(queryStrategy)) == ParseStrategy(queryStrategy) by {
      ToLowerIdempotent(queryStrategy);
    }
    assert ParseStrategy("") == AsIs by {
      assert ToLower("") == "";
    }
  }

  /** A character outside ASCII that lower-cases into it counts: with a capital I with dot
      above (U+0130) in place of the I, "USEIPV4" is still an IPv4 spelling. */
  lemma NonAsciiSpelling()
    ensures ParseStrategy("USE\U{0130}PV4") == UseIPv4
  {
    var v4 := "USE\U{0130}PV4";
    var low := ToLower(v4);
    assert low[0] == 'u' && low[1] == 's' && low[2] == 'e' && low[3] == 'i';
    assert low[4] == 'p' && low[5] == 'v' && low[6] == '4';
    assert low == "useipv4";
  }

  /** The two servers every migrated configuration gets. */
  const RemoteServer := DnsServer("remote", "tls://8.8.8.8", "")
  const LocalServer := DnsServer("local", "local", "direct")

  /** The rule that sends Chinese sites to the local server. */
  const ChinaRule := DnsRule(["geosite:cn"], "local")

  const DirectTag := "direct"

  /** A name server with a domain list that has a domain ending in "cn". */
  predicate ServesChina(s: NameServer) {
    |s.domains| > 0 && exists d :: d in s.domains && HasSuffix(d, "cn")
  }

  predicate HasDirect(outbounds: seq<Outbound>) {
    exists o :: o in outbounds && o.tag == DirectTag
  }

  /** `migrateDNS`, on the options as a value: the DNS options are replaced by the two fixed
      servers, the configured strategy and the China rule when a name server asks for
      Chinese domains, and a direct outbound is appended unless one is tagged "direct". */
  function MigrateDns(config: DnsConfig, options: Options): (r: Options)
    ensures r.dns.Some? && r.dns.value.servers == [RemoteServer, LocalServer]
    ensures r.dns.value.strategy == ParseStrategy(config.queryStrategy)
    ensures r.dns.value.rules == (if exists s :: s in config.servers && ServesChina(s) then [ChinaRule] else [])
    ensures HasDirect(options.outbounds) ==> r.outbounds == options.outbounds
    ensures !HasDirect(options.outbounds) ==> r.outbounds == options.outbounds + [Outbound(DirectTag, DirectOutbound("", 0, AsIs))]
    ensures HasDirect(r.outbounds)
    ensures r.inbounds == options.inbounds && r.log == options.log && r.route == options.route
  {
    var rules := if exists s :: s in config.servers && ServesChina(s) then [ChinaRule] else [];
    var outbounds := if HasDirect(options.outbounds) then options.outbounds
                     else options.outbounds + [Outbound(DirectTag, DirectOutbound("", 0, AsIs))];
    assert HasDirect(outbounds) by {
      if !HasDirect(options.outbounds) {
        assert outbounds[|outbounds| - 1] in outbounds;
      }
    }
    options.(dns := Some(DnsOptions([RemoteServer, LocalServer], rules, ParseStrategy(config.queryStrategy))),
             outbounds := outbounds)
  }

  /** Migrating twice is migrating once: the second run finds the direct outbound. */
  lemma MigrateDnsIdempotent(config: DnsConfig, options: Options)
    ensures MigrateDns(config, MigrateDns(config, options)) == MigrateDns(config, options)
  {
  }
}
