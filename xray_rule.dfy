/** `migrateRule`, `parseDomain` and `parseAddress` of `types/xrayjson/rule.go`: one Xray
    routing rule to one sing-box default rule. The Xray package's own `parseNetworkList` is
    not part of this model; it is taken to be the V2Ray one of `V2RayCommon`. */
module XrayRule {
  import opened Wrappers
  import opened Net
  import opened Strings
  import opened Legacy
  import opened SingBox
  import opened V2RayCommon

  /** The fields of `conf.RouterRule` the translator checks first. */
  datatype RouterHead = RouterHead(ruleType: string, balancerTag: string)

  /** One entry of a `conf.PortList`. */
  datatype PortSpan = PortSpan(from: nat, to: nat)

  /** `RawFieldRule`: absent lists are empty, absent port and network lists are `None`. */
  datatype FieldRule = FieldRule(
    outboundTag: string,
    domain: seq<string>,
    domains: seq<string>,
    ip: seq<string>,
    source: seq<string>,
    port: Option<seq<PortSpan>>,
    sourcePort: Option<seq<PortSpan>>,
    network: Option<seq<Network>>,
    user: seq<string>,
    inboundTag: seq<string>,
    protocols: seq<string>,
    attrs: string)

  /** A rule message as the two `json.Unmarshal` calls see it: its head, or the first
      decoding error, and its field form, or the second decoding error. */
  datatype RuleMessage = RuleMessage(head: Result<RouterHead>, field: Result<FieldRule>)

  const ExternalSiteError := "load external geosite is not supported"
  const ExternalIpError := "load external geoip is not supported"
  const ReverseGeoIpError := "geoip with reserve match not supported, rewrite your rule with rule.invert"
  const BalancerError := "balancer rule is not supported"
  const AttributesError := "attributes rule is not supported"

  predicate ExternalSite(domain: string) {
    HasPrefix(domain, "ext:") || HasPrefix(domain, "ext-domain:")
  }

  predicate KnownDomainPrefix(domain: string) {
    HasPrefix(domain, "geosite:") || HasPrefix(domain, "regexp:") || HasPrefix(domain, "domain:") ||
    HasPrefix(domain, "full:") || HasPrefix(domain, "keyword:") || HasPrefix(domain, "dotless:")
  }

  lemma PrefixAt(s: string, p: string)
    requires HasPrefix(s, p)
    ensures forall k :: 0 <= k < |p| ==> s[k] == p[k]
  {
    forall k | 0 <= k < |p|
      ensures s[k] == p[k]
    {
      assert s[k] == s[..|p|][k];
    }
  }

  /** The characters that tell the domain prefixes apart, so at most one of them holds. */
  lemma DomainPrefixes(d: string)
    ensures HasPrefix(d, "geosite:") ==> d[0] == 'g'
    ensures HasPrefix(d, "regexp:") ==> d[0] == 'r'
    ensures HasPrefix(d, "domain:") ==> d[0] == 'd' && d[2] == 'm'
    ensures HasPrefix(d, "full:") ==> d[0] == 'f'
    ensures HasPrefix(d, "keyword:") ==> d[0] == 'k'
    ensures HasPrefix(d, "dotless:") ==> d[0] == 'd' && d[2] == 't'
    ensures ExternalSite(d) ==> d[0] == 'e'
  {
    if HasPrefix(d, "geosite:") { PrefixAt(d, "geosite:"); }
    if HasPrefix(d, "regexp:") { PrefixAt(d, "regexp:"); }
    if HasPrefix(d, "domain:") { PrefixAt(d, "domain:"); }
    if HasPrefix(d, "full:") { PrefixAt(d, "full:"); }
    if HasPrefix(d, "keyword:") { PrefixAt(d, "keyword:"); }
    if HasPrefix(d, "dotless:") { PrefixAt(d, "dotless:"); }
    if HasPrefix(d, "ext:") { PrefixAt(d, "ext:"); }
    if HasPrefix(d, "ext-domain:") { PrefixAt(d, "ext-domain:"); }
  }

  /** The regular expression a `dotless:` entry becomes: names without a dot that contain
      the given text. */
  function DotlessRegex(s: string): string {
    if s == "" then "^[^.]*$" else "^[^.]*" + s + "[^.]*$"
  }

  /** `parseDomain` with the evident intent of the `regexp:` branch: the pattern is appended
      to the rule's own regular expressions. Each kind of entry appends to its own lists and
      leaves every other field as it was; an external site list is refused. */
  function ParseDomain(domain: string, rule: DefaultRule): (r: Result<DefaultRule>)
    ensures r.Err? <==> ExternalSite(domain)
    ensures r.Err? ==> r.error == ExternalSiteError
    ensures !ExternalSite(domain) && HasPrefix(domain, "geosite:") ==> r == Ok(rule.(geosite := rule.geosite + [domain[8..]]))
    ensures !ExternalSite(domain) && HasPrefix(domain, "regexp:") ==> r == Ok(rule.(domainRegex := rule.domainRegex + [domain[7..]]))
    ensures !ExternalSite(domain) && HasPrefix(domain, "domain:") ==>
      r == Ok(rule.(domain := rule.domain + [domain[7..]], domainSuffix := rule.domainSuffix + ["." + domain[7..]]))
    ensures !ExternalSite(domain) && HasPrefix(domain, "full:") ==> r == Ok(rule.(domain := rule.domain + [domain[5..]]))
    ensures !ExternalSite(domain) && HasPrefix(domain, "keyword:") ==> r == Ok(rule.(domainKeyword := rule.domainKeyword + [domain[8..]]))
    ensures !ExternalSite(domain) && HasPrefix(domain, "dotless:") ==> r == Ok(rule.(domainRegex := rule.domainRegex + [DotlessRegex(domain[8..])]))
    ensures !ExternalSite(domain) && !KnownDomainPrefix(domain) ==> r == Ok(rule.(domainKeyword := rule.domainKeyword + [domain]))
  {
    DomainPrefixes(domain);
    if ExternalSite(domain) then Err(ExternalSiteError)
    else if HasPrefix(domain, "geosite:") then Ok(rule.(geosite := rule.geosite + [domain[8..]]))
    else if HasPrefix(domain, "regexp:") then Ok(rule.(domainRegex := rule.domainRegex + [domain[7..]]))
    else if HasPrefix(domain, "domain:") then
      Ok(rule.(domain := rule.domain + [domain[7..]], domainSuffix := rule.domainSuffix + ["." + domain[7..]]))
    else if HasPrefix(domain, "full:") then Ok(rule.(domain := rule.domain + [domain[5..]]))
    else if HasPrefix(domain, "keyword:") then Ok(rule.(domainKeyword := rule.domainKeyword + [domain[8..]]))
    else if HasPrefix(domain, "dotless:") then Ok(rule.(domainRegex := rule.domainRegex + [DotlessRegex(domain[8..])]))
    else Ok(rule.(domainKeyword := rule.domainKeyword + [domain]))
  }

  /** `parseDomain` as written: its `regexp:` branch sets the regular expressions to the
      rule's exact domains followed by the pattern. */
  function ParseDomainAsWritten(domain: string, rule: DefaultRule): (r: Result<DefaultRule>)
    ensures HasPrefix(domain, "regexp:") ==> r == Ok(rule.(domainRegex := rule.domain + [domain[7..]]))
    ensures !HasPrefix(domain, "regexp:") ==> r == ParseDomain(domain, rule)
    ensures r.Err? <==> ExternalSite(domain)
    ensures r.Err? ==> r.error == ExternalSiteError
  {
    DomainPrefixes(domain);
    if HasPrefix(domain, "regexp:") then Ok(rule.(domainRegex := rule.domain + [domain[7..]]))
    else ParseDomain(domain, rule)
  }

  /** The domain step of `migrateRule`: `parseDomain` as written, or with its `regexp:` branch
      corrected. */
  function DomainStep(asWritten: bool): (string, DefaultRule) -> Result<DefaultRule> {
    if asWritten then ParseDomainAsWritten else ParseDomain
  }

  /** The `parseAddress` step of a destination (`isSource == false`) or source address. */
  function ParseAddress(address: string, isSource: bool, rule: DefaultRule): (r: Result<DefaultRule>)
    ensures r.Err? <==> HasPrefix(address, "ext:") || HasPrefix(address, "ext-ip:") || HasPrefix(address, "geoip:!")
    ensures (HasPrefix(address, "ext:") || HasPrefix(address, "ext-ip:")) ==> r == Err(ExternalIpError)
    ensures r.Ok? && HasPrefix(address, "geoip:") ==>
      r.value == (if isSource then rule.(sourceGeoip := rule.sourceGeoip + [address[6..]])
                  else rule.(geoip := rule.geoip + [address[6..]]))
    ensures r.Ok? && !HasPrefix(address, "geoip:") ==>
      r.value == (if isSource then rule.(sourceIpCidr := rule.sourceIpCidr + [address])
                  else rule.(ipCidr := rule.ipCidr + [address]))
  {
    if HasPrefix(address, "ext:") || HasPrefix(address, "ext-ip:") then Err(ExternalIpError)
    else if HasPrefix(address, "geoip:!") then Err(ReverseGeoIpError)
    else if HasPrefix(address, "geoip:") then
      Ok(if isSource then rule.(sourceGeoip := rule.sourceGeoip + [address[6..]]) else rule.(geoip := rule.geoip + [address[6..]]))
    else
      Ok(if isSource then rule.(sourceIpCidr := rule.sourceIpCidr + [address]) else rule.(ipCidr := rule.ipCidr + [address]))
  }

  /** The rule a loop `for _, x := range xs { if err = step(x, &rule); err != nil { return } }`
      leaves, or the first error. */
  function Steps(rule: DefaultRule, xs: seq<string>, step: (string, DefaultRule) -> Result<DefaultRule>): (r: Result<DefaultRule>)
    ensures xs == [] ==> r == Ok(rule)
    decreases |xs|
  {
    if xs == [] then Ok(rule)
    else
      match step(xs[0], rule)
      case Err(e) => Err(e)
      case Ok(next) => Steps(next, xs[1..], step)
  }

  /** The loop itself. */
  method StepAll(rule: DefaultRule, xs: seq<string>, step: (string, DefaultRule) -> Result<DefaultRule>) returns (r: Result<DefaultRule>)
    ensures r == Steps(rule, xs, step)
  {
    var current := rule;
    var i := 0;
    while i < |xs|
      invariant 0 <= i <= |xs|
      invariant Steps(rule, xs, step) == Steps(current, xs[i..], step)
    {
      var next := step(xs[i], current);
      if next.Err? {
        return Err(next.error);
      }
      assert xs[i..][1..] == xs[i + 1..];
      current := next.value;
      i := i + 1;
    }
    assert xs[i..] == [];
    r := Ok(current);
  }

  /** A domain list fails exactly when one of its entries names an external site list, and
      then with that error. */
  lemma {:induction false} DomainListFails(rule: DefaultRule, ds: seq<string>, asWritten: bool)
    ensures Steps(rule, ds, DomainStep(asWritten)).Err? <==> exists i :: 0 <= i < |ds| && ExternalSite(ds[i])
    ensures Steps(rule, ds, DomainStep(asWritten)).Err? ==> Steps(rule, ds, DomainStep(asWritten)).error == ExternalSiteError
    decreases |ds|
  {
    if ds != [] {
      var first := DomainStep(asWritten)(ds[0], rule);
      assert first.Err? <==> ExternalSite(ds[0]);
      if first.Ok? {
        DomainListFails(first.value, ds[1..], asWritten);
        assert forall i :: 0 < i < |ds| ==> ds[i] == ds[1..][i - 1];
        if exists i :: 0 <= i < |ds[1..]| && ExternalSite(ds[1..][i]) {
          var i :| 0 <= i < |ds[1..]| && ExternalSite(ds[1..][i]);
          assert ExternalSite(ds[i + 1]);
        }
      }
    }
  }

  /** With the corrected `regexp:` branch every pattern of a list of `regexp:` entries is
      kept, in order, after the rule's own. */
  lemma {:induction false} RegexpsAccumulate(rule: DefaultRule, ds: seq<string>)
    requires forall i :: 0 <= i < |ds| ==> HasPrefix(ds[i], "regexp:")
    ensures Steps(rule, ds, ParseDomain).Ok?
    ensures Steps(rule, ds, ParseDomain).value.domainRegex == rule.domainRegex + seq(|ds|, i requires 0 <= i < |ds| && HasPrefix(ds[i], "regexp:") => ds[i][7..])
    decreases |ds|
  {
    if ds != [] {
      DomainPrefixes(ds[0]);
      var next := rule.(domainRegex := rule.domainRegex + [ds[0][7..]]);
      assert ParseDomain(ds[0], rule) == Ok(next);
      assert forall i :: 0 <= i < |ds[1..]| ==> ds[1..][i] == ds[i + 1];
      RegexpsAccumulate(next, ds[1..]);
      var tail := seq(|ds[1..]|, i requires 0 <= i < |ds[1..]| && HasPrefix(ds[1..][i], "regexp:") => ds[1..][i][7..]);
      assert seq(|ds|, i requires 0 <= i < |ds| && HasPrefix(ds[i], "regexp:") => ds[i][7..]) == [ds[0][7..]] + tail;
    }
  }

  /** The source's `regexp:` branch loses a pattern: two `regexp:` entries leave only the
      second. */
  lemma RegexpTypoDropsPattern()
    ensures Steps(EmptyRule, ["regexp:a", "regexp:b"], ParseDomainAsWritten) == Ok(EmptyRule.(domainRegex := ["b"]))
    ensures Steps(EmptyRule, ["regexp:a", "regexp:b"], ParseDomain) == Ok(EmptyRule.(domainRegex := ["a", "b"]))
  {
    var a, b := "regexp:a", "regexp:b";
    assert HasPrefix(a, "regexp:") && a[7..] == "a";
    assert HasPrefix(b, "regexp:") && b[7..] == "b";
    DomainPrefixes(a);
    DomainPrefixes(b);
    var ds := [a, b];
    assert ds[1..] == [b] && ds[1..][1..] == [];
    assert EmptyRule.domain + ["a"] == ["a"] && EmptyRule.domainRegex + ["a"] == ["a"];
    var mid := EmptyRule.(domainRegex := ["a"]);
    assert ParseDomainAsWritten(a, EmptyRule) == Ok(EmptyRule.(domainRegex := ["a"]));
    assert mid.domain + ["b"] == ["b"] && mid.domainRegex + ["b"] == ["a", "b"];
    assert ParseDomainAsWritten(b, mid) == Ok(EmptyRule.(domainRegex := ["b"]));
    assert Steps(mid, [b], ParseDomainAsWritten) == Ok(EmptyRule.(domainRegex := ["b"]));
    assert ParseDomain(b, mid) == Ok(EmptyRule.(domainRegex := ["a", "b"]));
    assert Steps(mid, [b], ParseDomain) == Ok(EmptyRule.(domainRegex := ["a", "b"]));
  }

  /** The source's `regexp:` branch also turns an exact domain into a pattern. */
  lemma RegexpTypoCopiesDomains()
    ensures Steps(EmptyRule, ["full:a", "regexp:b"], ParseDomainAsWritten) == Ok(EmptyRule.(domain := ["a"], domainRegex := ["a", "b"]))
    ensures Steps(EmptyRule, ["full:a", "regexp:b"], ParseDomain) == Ok(EmptyRule.(domain := ["a"], domainRegex := ["b"]))
  {
    var a, b := "full:a", "regexp:b";
    assert HasPrefix(a, "full:") && a[5..] == "a";
    assert HasPrefix(b, "regexp:") && b[7..] == "b";
    DomainPrefixes(a);
    DomainPrefixes(b);
    var ds := [a, b];
    assert ds[1..] == [b] && ds[1..][1..] == [];
    assert EmptyRule.domain + ["a"] == ["a"] && EmptyRule.domainRegex + ["b"] == ["b"];
    var mid := EmptyRule.(domain := ["a"]);
    assert ParseDomainAsWritten(a, EmptyRule) == Ok(mid);
    assert mid.domain + ["b"] == ["a", "b"] && mid.domainRegex + ["b"] == ["b"];
    assert ParseDomainAsWritten(b, mid) == Ok(mid.(domainRegex := ["a", "b"]));
    assert Steps(mid, [b], ParseDomainAsWritten) == Ok(mid.(domainRegex := ["a", "b"]));
    assert ParseDomain(b, mid) == Ok(mid.(domainRegex := ["b"]));
    assert Steps(mid, [b], ParseDomain) == Ok(mid.(domainRegex := ["b"]));
  }

  /** "From:To" as `format.ToString` prints a port range. */
  function SpanString(p: PortSpan): string {
    NatToString(p.from) + ":" + NatToString(p.to)
  }

  /** The single ports of a port list (spans whose ends agree), truncated to 16 bits. */
  function SinglePorts(spans: seq<PortSpan>): (r: seq<Port>)
    decreases |spans|
  {
    if spans == [] then []
    else
      var last := spans[|spans| - 1];
      SinglePorts(spans[..|spans| - 1]) + (if last.from == last.to then [Uint16(last.from)] else [])
  }

  /** The ranges of a port list, as "From:To" strings. */
  function PortRanges(spans: seq<PortSpan>): (r: seq<string>)
    decreases |spans|
  {
    if spans == [] then []
    else
      var last := spans[|spans| - 1];
      PortRanges(spans[..|spans| - 1]) + (if last.from == last.to then [] else [SpanString(last)])
  }

  /** Every span becomes exactly one single port or one range. */
  lemma {:induction false} PortsPartition(spans: seq<PortSpan>)
    ensures |SinglePorts(spans)| + |PortRanges(spans)| == |spans|
    ensures (forall i :: 0 <= i < |spans| ==> spans[i].from == spans[i].to) ==>
      SinglePorts(spans) == seq(|spans|, i requires 0 <= i < |spans| => Uint16(spans[i].from)) && PortRanges(spans) == []
    decreases |spans|
  {
    if spans != [] {
      var prefix := spans[..|spans| - 1];
      PortsPartition(prefix);
      if forall i :: 0 <= i < |spans| ==> spans[i].from == spans[i].to {
        assert forall i :: 0 <= i < |prefix| ==> prefix[i] == spans[i];
        assert seq(|spans|, i requires 0 <= i < |spans| => Uint16(spans[i].from)) ==
               seq(|prefix|, i requires 0 <= i < |prefix| => Uint16(prefix[i].from)) + [Uint16(spans[|spans| - 1].from)];
      }
    }
  }

  /** The port loop of `migrateRule`. */
  method SplitPorts(spans: seq<PortSpan>) returns (ports: seq<Port>, ranges: seq<string>)
    ensures ports == SinglePorts(spans) && ranges == PortRanges(spans)
  {
    ports, ranges := [], [];
    var i := 0;
    while i < |spans|
      invariant 0 <= i <= |spans|
      invariant ports == SinglePorts(spans[..i]) && ranges == PortRanges(spans[..i])
    {
      assert spans[..i + 1][..i] == spans[..i];
      if spans[i].from == spans[i].to {
        ports := ports + [Uint16(spans[i].from)];
      } else {
        ranges := ranges + [SpanString(spans[i])];
      }
      i := i + 1;
    }
    assert spans[..i] == spans;
  }

  function Destination(address: string, rule: DefaultRule): Result<DefaultRule> {
    ParseAddress(address, false, rule)
  }

  function Source(address: string, rule: DefaultRule): Result<DefaultRule> {
    ParseAddress(address, true, rule)
  }

  /** The domain loops over `domain` and then `domains` are one loop over both lists. */
  lemma {:induction false} StepsAppend(rule: DefaultRule, xs: seq<string>, ys: seq<string>, step: (string, DefaultRule) -> Result<DefaultRule>)
    ensures Steps(rule, xs, step).Err? ==> Steps(rule, xs + ys, step) == Steps(rule, xs, step)
    ensures Steps(rule, xs, step).Ok? ==> Steps(rule, xs + ys, step) == Steps(Steps(rule, xs, step).value, ys, step)
    decreases |xs|
  {
    if xs == [] {
      assert xs + ys == ys;
    } else {
      assert (xs + ys)[0] == xs[0] && (xs + ys)[1..] == xs[1..] + ys;
      match step(xs[0], rule)
      case Err(_) =>
      case Ok(next) => StepsAppend(next, xs[1..], ys, step);
    }
  }

  /** Without `regexp:` entries the domain loop as written and the corrected one agree. */
  lemma {:induction false} StepsAgreeWithoutRegexp(rule: DefaultRule, ds: seq<string>)
    requires forall i :: 0 <= i < |ds| ==> !HasPrefix(ds[i], "regexp:")
    ensures Steps(rule, ds, ParseDomainAsWritten) == Steps(rule, ds, ParseDomain)
    decreases |ds|
  {
    if ds != [] {
      assert ParseDomainAsWritten(ds[0], rule) == ParseDomain(ds[0], rule);
      match ParseDomain(ds[0], rule)
      case Err(_) =>
      case Ok(next) =>
        assert forall i :: 0 <= i < |ds[1..]| ==> ds[1..][i] == ds[i + 1];
        StepsAgreeWithoutRegexp(next, ds[1..]);
    }
  }

  /** The rule after the domain and address loops, or their first error; `asWritten` picks
      the domain step. */
  function MatchesOf(f: FieldRule, asWritten: bool): Result<DefaultRule> {
    match Steps(EmptyRule.(outbound := f.outboundTag), f.domain + f.domains, DomainStep(asWritten))
    case Err(e) => Err(e)
    case Ok(r1) =>
      match Steps(r1, f.ip, Destination)
      case Err(e) => Err(e)
      case Ok(r2) => Steps(r2, f.source, Source)
  }

  /** `migrateRule`: a balancer rule and a rule of another type than "field" are refused
      before anything else; then the domains, the addresses, the ports, the network and the
      copied lists; a rule with attributes is refused last. `RuleOf(m, true)` is the
      translator as written, `RuleOf(m, false)` the one with the corrected domain step. */
  function RuleOf(m: RuleMessage, asWritten: bool): Result<Rule> {
    match m.head
    case Err(e) => Err(e)
    case Ok(h) =>
      if h.balancerTag != "" then Err(BalancerError)
      else if h.ruleType != "field" then Err("unknown router rule type: " + h.ruleType)
      else
        match m.field
        case Err(e) => Err(e)
        case Ok(f) =>
          match MatchesOf(f, asWritten)
          case Err(e) => Err(e)
          case Ok(r) =>
            if f.attrs != "" then Err(AttributesError)
            else
              var r1 := if f.port.Some? then r.(port := SinglePorts(f.port.value), portRange := PortRanges(f.port.value)) else r;
              var r2 := if f.sourcePort.Some? then
                r1.(sourcePort := SinglePorts(f.sourcePort.value), sourcePortRange := PortRanges(f.sourcePort.value))
              else r1;
              Ok(Rule(r2.(network := ParseNetworkList(f.network), authUser := f.user, inbound := f.inboundTag,
                          protocol := f.protocols)))
  }

  /** The domain and address loops of `migrateRule`. */
  method MigrateMatches(f: FieldRule, asWritten: bool) returns (r: Result<DefaultRule>)
    ensures r == MatchesOf(f, asWritten)
  {
    var rule := EmptyRule.(outbound := f.outboundTag);
    var step := DomainStep(asWritten);
    StepsAppend(rule, f.domain, f.domains, step);
    r := StepAll(rule, f.domain, step);
    if r.Err? {
      return;
    }
    r := StepAll(r.value, f.domains, step);
    if r.Err? {
      return;
    }
    r := StepAll(r.value, f.ip, Destination);
    if r.Err? {
      return;
    }
    r := StepAll(r.value, f.source, Source);
  }

  /** `migrateRule`, step by step. */
  method MigrateRule(m: RuleMessage, asWritten: bool) returns (r: Result<Rule>)
    ensures r == RuleOf(m, asWritten)
  {
    if m.head.Err? {
      return Err(m.head.error);
    }
    var h := m.head.value;
    if h.balancerTag != "" {
      return Err(BalancerError);
    }
    if h.ruleType != "field" {
      return Err("unknown router rule type: " + h.ruleType);
    }
    if m.field.Err? {
      return Err(m.field.error);
    }
    var f := m.field.value;
    var step := MigrateMatches(f, asWritten);
    if step.Err? {
      return Err(step.error);
    }
    var rule := step.value;
    if f.port.Some? {
      var ports, ranges := SplitPorts(f.port.value);
      rule := rule.(port := ports, portRange := ranges);
    }
    if f.sourcePort.Some? {
      var ports, ranges := SplitPorts(f.sourcePort.value);
      rule := rule.(sourcePort := ports, sourcePortRange := ranges);
    }
    rule := rule.(network := ParseNetworkList(f.network), authUser := f.user, inbound := f.inboundTag, protocol := f.protocols);
    if f.attrs != "" {
      return Err(AttributesError);
    }
    r := Ok(Rule(rule));
  }

  /** Steps that never change the outbound leave it as it was. */
  lemma {:induction false} StepsKeepOutbound(rule: DefaultRule, xs: seq<string>, step: (string, DefaultRule) -> Result<DefaultRule>)
    requires forall x, r :: step(x, r).Ok? ==> step(x, r).value.outbound == r.outbound
    ensures Steps(rule, xs, step).Ok? ==> Steps(rule, xs, step).value.outbound == rule.outbound
    decreases |xs|
  {
    if xs != [] && step(xs[0], rule).Ok? {
      StepsKeepOutbound(step(xs[0], rule).value, xs[1..], step);
    }
  }

  /** What a migrated rule is, as written and corrected alike: the head was a plain field
      rule without balancer or attributes, the outbound and the copied lists are the
      source's, and no domain named an external site list. The checks come in the source's
      order: balancer, rule type, then the domain and address loops, whose error wins over
      the attributes error, which comes last. */
  lemma RuleOutcome(m: RuleMessage, asWritten: bool)
    ensures RuleOf(m, asWritten).Ok? ==>
      m.head.Ok? && m.head.value.balancerTag == "" && m.head.value.ruleType == "field" && m.field.Ok? &&
      var f := m.field.value;
      var o := RuleOf(m, asWritten).value.defaultOptions;
      f.attrs == "" && o.outbound == f.outboundTag && o.authUser == f.user && o.inbound == f.inboundTag &&
      o.protocol == f.protocols && o.network == ParseNetworkList(f.network) &&
      (forall i :: 0 <= i < |f.domain + f.domains| ==> !ExternalSite((f.domain + f.domains)[i]))
    ensures m.head.Ok? && m.head.value.balancerTag != "" ==> RuleOf(m, asWritten) == Err(BalancerError)
    ensures m.head.Ok? && m.head.value.balancerTag == "" && m.head.value.ruleType != "field" ==>
      RuleOf(m, asWritten) == Err("unknown router rule type: " + m.head.value.ruleType)
    ensures m.head.Ok? && m.head.value.balancerTag == "" && m.head.value.ruleType == "field" && m.field.Ok? ==>
      var f := m.field.value;
      (MatchesOf(f, asWritten).Err? ==> RuleOf(m, asWritten) == Err(MatchesOf(f, asWritten).error)) &&
      (MatchesOf(f, asWritten).Ok? && f.attrs != "" ==> RuleOf(m, asWritten) == Err(AttributesError)) &&
      ((exists i :: 0 <= i < |f.domain + f.domains| && ExternalSite((f.domain + f.domains)[i])) ==>
         RuleOf(m, asWritten) == Err(ExternalSiteError))
  {
    if m.head.Ok? && m.head.value.balancerTag == "" && m.head.value.ruleType == "field" && m.field.Ok? {
      var f := m.field.value;
      DomainListFails(EmptyRule.(outbound := f.outboundTag), f.domain + f.domains, asWritten);
    }
    if RuleOf(m, asWritten).Ok? {
      var f := m.field.value;
      var rule := EmptyRule.(outbound := f.outboundTag);
      var step := DomainStep(asWritten);
      DomainListFails(rule, f.domain + f.domains, asWritten);
      assert forall x, r :: step(x, r).Ok? ==> step(x, r).value.outbound == r.outbound by {
        DomainStepKeepsOutbound(asWritten);
      }
      StepsKeepOutbound(rule, f.domain + f.domains, step);
      var r1 := Steps(rule, f.domain + f.domains, step).value;
      StepsKeepOutbound(r1, f.ip, Destination);
      StepsKeepOutbound(Steps(r1, f.ip, Destination).value, f.source, Source);
    }
  }

  /** Neither domain step changes the outbound. */
  lemma DomainStepKeepsOutbound(asWritten: bool)
    ensures forall x, r :: DomainStep(asWritten)(x, r).Ok? ==> DomainStep(asWritten)(x, r).value.outbound == r.outbound
  {
  }

  /** A rule whose domain lists hold no `regexp:` entry translates the same as written and
      corrected; the two differ only through the `regexp:` branch. */
  lemma RuleVersionsAgree(m: RuleMessage)
    requires m.field.Ok? ==>
      forall i :: 0 <= i < |m.field.value.domain + m.field.value.domains| ==>
        !HasPrefix((m.field.value.domain + m.field.value.domains)[i], "regexp:")
    ensures RuleOf(m, true) == RuleOf(m, false)
  {
    if m.field.Ok? {
      var f := m.field.value;
      StepsAgreeWithoutRegexp(EmptyRule.(outbound := f.outboundTag), f.domain + f.domains);
    }
  }

  /** The whole translator shows the `regexp:` slip: for domains ["full:a", "regexp:b"] the
      rule as written matches the regular expressions "a" and "b", the corrected one only "b". */
  lemma RuleVersionsDiffer()
    ensures var f := FieldRule("", ["full:a", "regexp:b"], [], [], [], None, None, None, [], [], [], "");
      var m := RuleMessage(Ok(RouterHead("field", "")), Ok(f));
      RuleOf(m, true).Ok? && RuleOf(m, true).value.defaultOptions.domainRegex == ["a", "b"] &&
      RuleOf(m, false).Ok? && RuleOf(m, false).value.defaultOptions.domainRegex == ["b"]
  {
    var f := FieldRule("", ["full:a", "regexp:b"], [], [], [], None, None, None, [], [], [], "");
    assert f.domain + f.domains == ["full:a", "regexp:b"];
    assert EmptyRule.(outbound := "") == EmptyRule;
    RegexpTypoCopiesDomains();
  }
}
