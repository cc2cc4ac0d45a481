/** `Migrate` of `types/v2rayjson/v2ray.go`: a decoded V2Ray v4 document to sing-box
    options. Inbounds, outbounds and rules are migrated best effort; the servers of the
    outbounds are collected into one DNS rule for the local server. The DNS and rule
    translators of that package are parameters. */
module V2RayMigrate {
  import opened Wrappers
  import opened Legacy
  import opened SingBox
  import opened V2RayConf
  import opened BestEffort
  import V2RayInbound
  import V2RayOutbound

  /** The DNS server the collected outbound servers are resolved by. */
  const LocalServerTag := "local"

  /** The outbound loop's translations and the domains collected by the shared DNS rule. */
  function OutboundResults(cs: seq<OutboundConfig>, domains: seq<string>): (r: (seq<(string, Result<Outbound>)>, seq<string>))
    ensures |r.0| == |cs|
    ensures forall i :: 0 <= i < |cs| ==> r.0[i].0 == cs[i].tag
    decreases |cs|
  {
    if cs == [] then ([], domains)
    else
      var c := cs[|cs| - 1];
      var (results, collected) := OutboundResults(cs[..|cs| - 1], domains);
      var (r, collected') := V2RayOutbound.OutboundOf(c, collected);
      (results + [(c.tag, r)], collected')
  }

  /** The shared DNS rule only grows: every outbound adds its server's domain or nothing. */
  lemma {:induction false} CollectedDomainsGrow(cs: seq<OutboundConfig>, domains: seq<string>)
    ensures domains <= OutboundResults(cs, domains).1
    ensures |OutboundResults(cs, domains).1| <= |domains| + |cs|
    decreases |cs|
  {
    if cs != [] {
      var init := cs[..|cs| - 1];
      CollectedDomainsGrow(init, domains);
      var collected := OutboundResults(init, domains).1;
      V2RayOutbound.OutboundOutcome(cs[|cs| - 1], collected);
    }
  }

  /** `common.PtrValueOrDefault` of the DNS block. */
  function DnsConfigOf(c: Config): DnsConfig {
    if c.dns.Some? then c.dns.value else EmptyDnsConfig
  }

  /** The rule for the collected outbound servers, appended to the DNS rules when it has a
      domain. */
  function WithServerRule(o: Options, domains: seq<string>): (r: Options)
    requires o.dns.Some?
    ensures r.dns.Some?
    ensures r.dns.value.rules == o.dns.value.rules + (if |domains| > 0 then [DnsRule(domains, LocalServerTag)] else [])
    ensures r.dns.value.servers == o.dns.value.servers && r.dns.value.strategy == o.dns.value.strategy
    ensures r.inbounds == o.inbounds && r.outbounds == o.outbounds && r.route == o.route && r.log == o.log
  {
    if |domains| > 0 then o.(dns := Some(o.dns.value.(rules := o.dns.value.rules + [DnsRule(domains, LocalServerTag)])))
    else o
  }

  /** The DNS translator always sets the DNS options, as the rule append after it needs. */
  ghost predicate SetsDns(migrateDns: (DnsConfig, Options) -> Options) {
    forall d, o :: migrateDns(d, o).dns.Some?
  }

  function InboundsOf(c: Config): Outcome<Inbound> {
    Skip(Results(c.inbounds, V2RayInbound.InboundOf, InboundTag), InboundWarning)
  }

  function OutboundsOf(c: Config): Outcome<Outbound> {
    Skip(OutboundResults(c.outbounds, []).0, OutboundWarning)
  }

  /** The domains of the outbound servers' DNS rule. */
  function ServerDomains(c: Config): seq<string> {
    OutboundResults(c.outbounds, []).1
  }

  function RulesOutcome(c: Config, migrateRule: string -> Result<Rule>): Outcome<Rule> {
    if c.router.Some? then Skip(Results(c.router.value.rules, migrateRule, NoTag), RuleWarning) else Outcome([], [])
  }

  /** The options after the DNS translator. */
  function AfterDns(c: Config, migrateDns: (DnsConfig, Options) -> Options): Options {
    migrateDns(DnsConfigOf(c), EmptyOptions.(inbounds := InboundsOf(c).kept, outbounds := OutboundsOf(c).kept))
  }

  /** The migrated options and the warnings, or the decoding error. */
  function MigrateOf(decoded: Result<Config>, migrateDns: (DnsConfig, Options) -> Options, migrateRule: string -> Result<Rule>)
    : (Result<Options>, seq<string>)
    requires SetsDns(migrateDns)
  {
    match decoded
    case Err(e) => (Err(e), [])
    case Ok(c) =>
      var o := WithServerRule(AfterDns(c, migrateDns), ServerDomains(c));
      var rules := RulesOutcome(c, migrateRule);
      (Ok(o.(route := RouteAfter(o.route, rules.kept))), InboundsOf(c).warnings + OutboundsOf(c).warnings + rules.warnings)
  }

  /** The inbound loop. */
  method MigrateInbounds(cs: seq<InboundConfig>) returns (kept: seq<Inbound>, warnings: seq<string>)
    ensures Outcome(kept, warnings) == Skip(Results(cs, V2RayInbound.InboundOf, InboundTag), InboundWarning)
  {
    ghost var results := Results(cs, V2RayInbound.InboundOf, InboundTag);
    kept, warnings := [], [];
    var i := 0;
    while i < |cs|
      invariant 0 <= i <= |cs|
      invariant Outcome(kept, warnings) == Skip(results[..i], InboundWarning)
    {
      assert results[..i + 1][..i] == results[..i];
      var inbound := V2RayInbound.MigrateInbound(cs[i]);
      if inbound.Err? {
        warnings := warnings + [InboundWarning(cs[i].tag, i, inbound.error)];
      } else {
        kept := kept + [inbound.value];
      }
      i := i + 1;
    }
    assert results[..i] == results;
  }

  /** The outbound loop, threading the shared DNS rule's domains. */
  method MigrateOutbounds(cs: seq<OutboundConfig>) returns (kept: seq<Outbound>, warnings: seq<string>, domains: seq<string>)
    ensures Outcome(kept, warnings) == Skip(OutboundResults(cs, []).0, OutboundWarning)
    ensures domains == OutboundResults(cs, []).1
  {
    kept, warnings, domains := [], [], [];
    var i := 0;
    while i < |cs|
      invariant 0 <= i <= |cs|
      invariant Outcome(kept, warnings) == Skip(OutboundResults(cs[..i], []).0, OutboundWarning)
      invariant domains == OutboundResults(cs[..i], []).1
    {
      assert cs[..i + 1][..i] == cs[..i];
      var outbound;
      outbound, domains := V2RayOutbound.MigrateOutbound(cs[i], domains);
      ghost var results := OutboundResults(cs[..i + 1], []).0;
      assert results[..i] == OutboundResults(cs[..i], []).0;
      assert results[i] == (cs[i].tag, outbound);
      if outbound.Err? {
        warnings := warnings + [OutboundWarning(cs[i].tag, i, outbound.error)];
      } else {
        kept := kept + [outbound.value];
      }
      i := i + 1;
    }
    assert cs[..i] == cs;
  }

  /** `Migrate`: decode, then the inbounds, the outbounds, DNS with the outbound servers'
      rule, and the rules. */
  method Migrate(decoded: Result<Config>, migrateDns: (DnsConfig, Options) -> Options, migrateRule: string -> Result<Rule>)
    returns (r: Result<Options>, warnings: seq<string>)
    requires SetsDns(migrateDns)
    ensures (r, warnings) == MigrateOf(decoded, migrateDns, migrateRule)
  {
    if decoded.Err? {
      return Err(decoded.error), [];
    }
    var c := decoded.value;
    var inbounds, inWarnings := MigrateInbounds(c.inbounds);
    var options := EmptyOptions.(inbounds := inbounds);
    var outbounds, outWarnings, domains := MigrateOutbounds(c.outbounds);
    options := options.(outbounds := outbounds);
    options := migrateDns(DnsConfigOf(c), options);
    if |domains| > 0 {
      options := options.(dns := Some(options.dns.value.(rules := options.dns.value.rules + [DnsRule(domains, LocalServerTag)])));
    }
    var ruleWarnings := [];
    if c.router.Some? {
      var route;
      route, ruleWarnings := AppendRules(options.route, c.router.value.rules, migrateRule);
      options := options.(route := route);
    }
    r, warnings := Ok(options), inWarnings + outWarnings + ruleWarnings;
  }

  /** A decoding failure gives its error and no warning; after decoding nothing fails. Every
      inbound, outbound and rule is kept or warned about, the warnings come in that order,
      the outbound servers' rule follows the DNS translator's rules exactly when it has a
      domain, and the route is the translator's unless some rule is kept. */
  lemma MigrateOutcome(decoded: Result<Config>, migrateDns: (DnsConfig, Options) -> Options, migrateRule: string -> Result<Rule>)
    requires SetsDns(migrateDns)
    ensures decoded.Err? ==> MigrateOf(decoded, migrateDns, migrateRule) == (Err(decoded.error), [])
    ensures decoded.Ok? ==> MigrateOf(decoded, migrateDns, migrateRule).0.Ok?
    ensures decoded.Ok? ==>
      var c := decoded.value;
      var (r, warnings) := MigrateOf(decoded, migrateDns, migrateRule);
      |InboundsOf(c).kept| + |InboundsOf(c).warnings| == |c.inbounds| &&
      |OutboundsOf(c).kept| + |OutboundsOf(c).warnings| == |c.outbounds| &&
      warnings == InboundsOf(c).warnings + OutboundsOf(c).warnings + RulesOutcome(c, migrateRule).warnings &&
      r.value.dns.value.rules == AfterDns(c, migrateDns).dns.value.rules +
        (if |ServerDomains(c)| > 0 then [DnsRule(ServerDomains(c), LocalServerTag)] else []) &&
      (RulesOutcome(c, migrateRule).kept == [] ==> r.value.route == AfterDns(c, migrateDns).route) &&
      (RulesOutcome(c, migrateRule).kept != [] ==>
        r.value.route.Some? && r.value.route.value.rules == RulesOf(AfterDns(c, migrateDns).route) + RulesOutcome(c, migrateRule).kept)
  {
    if decoded.Ok? {
      var c := decoded.value;
      SkipCounts(Results(c.inbounds, V2RayInbound.InboundOf, InboundTag), InboundWarning);
      SkipCounts(OutboundResults(c.outbounds, []).0, OutboundWarning);
    }
  }
}
