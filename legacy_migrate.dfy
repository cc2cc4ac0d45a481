/** `Migrate` of `v2rayjson/v2ray.go`, the older V2Ray orchestrator: the log block, then
    best-effort inbounds, outbounds and rules. The translators of that package are
    parameters. */
module LegacyMigrate {
  import opened Wrappers
  import opened SingBox
  import opened V2RayConf
  import opened BestEffort

  /** The log guard as written, `LogConfig != nil && ErrorLog != "" || LogLevel != ""`:
      `None` when evaluating it dereferences an absent log block. */
  function LogGuardAsWritten(log: Option<LogConfig>): (r: Option<bool>)
    ensures r.None? <==> log.None?
  {
    if log.Some? && log.value.errorLog != "" then Some(true)
    else if log.None? then None
    else Some(log.value.logLevel != "")
  }

  /** The evidently intended guard: a present log block with an output or a level. */
  predicate LogGuard(log: Option<LogConfig>) {
    log.Some? && (log.value.errorLog != "" || log.value.logLevel != "")
  }

  /** A document without a log block makes the guard as written dereference nil; with a log
      block both guards agree. */
  lemma LogGuardDereferencesNil()
    ensures LogGuardAsWritten(None).None?
    ensures !LogGuard(None)
  {
  }

  lemma LogGuardsAgree(l: LogConfig)
    ensures LogGuardAsWritten(Some(l)) == Some(LogGuard(Some(l)))
  {
  }

  /** The log options: the error log's output and the level, when the guard holds. */
  function LogOf(log: Option<LogConfig>): (r: Option<LogOptions>)
    ensures r.Some? <==> LogGuard(log)
    ensures r.Some? ==> r.value == LogOptions(log.value.errorLog, log.value.logLevel)
  {
    if LogGuard(log) then Some(LogOptions(log.value.errorLog, log.value.logLevel)) else None
  }

  function InboundsOf(c: Config, migrateInbound: InboundConfig -> Result<Inbound>): Outcome<Inbound> {
    Skip(Results(c.inbounds, migrateInbound, InboundTag), InboundWarning)
  }

  function OutboundsOf(c: Config, migrateOutbound: OutboundConfig -> Result<Outbound>): Outcome<Outbound> {
    Skip(Results(c.outbounds, migrateOutbound, OutboundTag), OutboundWarning)
  }

  function RulesOutcome(c: Config, migrateRule: string -> Result<Rule>): Outcome<Rule> {
    if c.router.Some? then Skip(Results(c.router.value.rules, migrateRule, NoTag), RuleWarning) else Outcome([], [])
  }

  /** The migrated options and the warnings, or the decoding error. */
  function MigrateOf(decoded: Result<Config>, migrateInbound: InboundConfig -> Result<Inbound>,
                     migrateOutbound: OutboundConfig -> Result<Outbound>, migrateRule: string -> Result<Rule>)
    : (Result<Options>, seq<string>)
  {
    match decoded
    case Err(e) => (Err(e), [])
    case Ok(c) =>
      var ins := InboundsOf(c, migrateInbound);
      var outs := OutboundsOf(c, migrateOutbound);
      var rules := RulesOutcome(c, migrateRule);
      (Ok(Options(LogOf(c.log), None, ins.kept, outs.kept, RouteAfter(None, rules.kept))),
       ins.warnings + outs.warnings + rules.warnings)
  }

  /** `Migrate`, step by step, with the corrected log guard. */
  method Migrate(decoded: Result<Config>, migrateInbound: InboundConfig -> Result<Inbound>,
                 migrateOutbound: OutboundConfig -> Result<Outbound>, migrateRule: string -> Result<Rule>)
    returns (r: Result<Options>, warnings: seq<string>)
    ensures (r, warnings) == MigrateOf(decoded, migrateInbound, migrateOutbound, migrateRule)
  {
    if decoded.Err? {
      return Err(decoded.error), [];
    }
    var c := decoded.value;
    var options := EmptyOptions;
    if c.log.Some? && (c.log.value.errorLog != "" || c.log.value.logLevel != "") {
      options := options.(log := Some(LogOptions(c.log.value.errorLog, c.log.value.logLevel)));
    }
    var inbounds, inWarnings := SkipAll(c.inbounds, migrateInbound, InboundTag, InboundWarning);
    options := options.(inbounds := inbounds);
    var outbounds, outWarnings := SkipAll(c.outbounds, migrateOutbound, OutboundTag, OutboundWarning);
    options := options.(outbounds := outbounds);
    var ruleWarnings := [];
    if c.router.Some? {
      var route;
      route, ruleWarnings := AppendRules(options.route, c.router.value.rules, migrateRule);
      options := options.(route := route);
    }
    r, warnings := Ok(options), inWarnings + outWarnings + ruleWarnings;
  }

  /** A decoding failure gives its error and no warning; after decoding nothing fails, every
      item is kept or warned about, and the route exists exactly when a rule is kept. */
  lemma MigrateOutcome(decoded: Result<Config>, migrateInbound: InboundConfig -> Result<Inbound>,
                       migrateOutbound: OutboundConfig -> Result<Outbound>, migrateRule: string -> Result<Rule>)
    ensures decoded.Err? ==> MigrateOf(decoded, migrateInbound, migrateOutbound, migrateRule) == (Err(decoded.error), [])
    ensures decoded.Ok? ==>
      var c := decoded.value;
      var (r, warnings) := MigrateOf(decoded, migrateInbound, migrateOutbound, migrateRule);
      r.Ok? &&
      |r.value.inbounds| + |InboundsOf(c, migrateInbound).warnings| == |c.inbounds| &&
      |r.value.outbounds| + |OutboundsOf(c, migrateOutbound).warnings| == |c.outbounds| &&
      (r.value.route.Some? <==> RulesOutcome(c, migrateRule).kept != []) &&
      (r.value.route.Some? ==> r.value.route.value.rules == RulesOutcome(c, migrateRule).kept) &&
      (r.value.log.Some? <==> LogGuard(c.log))
  {
    if decoded.Ok? {
      var c := decoded.value;
      SkipCounts(Results(c.inbounds, migrateInbound, InboundTag), InboundWarning);
      SkipCounts(Results(c.outbounds, migrateOutbound, OutboundTag), OutboundWarning);
    }
  }
}
