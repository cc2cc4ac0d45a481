/** The best-effort loops both V2Ray orchestrators share: every item is translated, a
    failed item is skipped with a warning, and the translated items keep their order. */
module BestEffort {
  import opened Wrappers
  import opened Strings
  import opened SingBox

  /** What a best-effort loop leaves: the translated items and the warnings, in order. */
  datatype Outcome<T> = Outcome(kept: seq<T>, warnings: seq<string>)

  /** The name a warning gives an item: its tag, or its index when the tag is empty. */
  function TagOrIndex(tag: string, i: nat): (r: string)
    ensures tag != "" ==> r == tag
    ensures tag == "" ==> r == NatToString(i)
  {
    if tag == "" then NatToString(i) else tag
  }

  function InboundWarning(tag: string, i: nat, err: string): string {
    "ignoring inbound " + TagOrIndex(tag, i) + ": " + err
  }

  function OutboundWarning(tag: string, i: nat, err: string): string {
    "ignoring outbound " + TagOrIndex(tag, i) + ": " + err
  }

  /** Rules have no tag; their warning names only the error. */
  function RuleWarning(tag: string, i: nat, err: string): string {
    "ignoring rule: " + err
  }

  /** The outcome of a best-effort loop over items given as (tag, translation) pairs. */
  function Skip<T>(results: seq<(string, Result<T>)>, warn: (string, nat, string) -> string): Outcome<T>
    decreases |results|
  {
    if results == [] then Outcome([], [])
    else
      var n := |results| - 1;
      var o := Skip(results[..n], warn);
      match results[n].1
      case Ok(v) => Outcome(o.kept + [v], o.warnings)
      case Err(e) => Outcome(o.kept, o.warnings + [warn(results[n].0, n, e)])
  }

  /** Every item is either kept or warned about. */
  lemma {:induction false} SkipCounts<T>(results: seq<(string, Result<T>)>, warn: (string, nat, string) -> string)
    ensures |Skip(results, warn).kept| + |Skip(results, warn).warnings| == |results|
    decreases |results|
  {
    if results != [] {
      SkipCounts(results[..|results| - 1], warn);
    }
  }

  /** Translated items are kept and failed ones warned about, naming their tag or index. */
  lemma {:induction false} SkipMembers<T>(results: seq<(string, Result<T>)>, warn: (string, nat, string) -> string)
    ensures forall i :: 0 <= i < |results| && results[i].1.Ok? ==> results[i].1.value in Skip(results, warn).kept
    ensures forall i :: 0 <= i < |results| && results[i].1.Err? ==>
      warn(results[i].0, i, results[i].1.error) in Skip(results, warn).warnings
    decreases |results|
  {
    if results != [] {
      var init := results[..|results| - 1];
      SkipMembers(init, warn);
      assert forall i :: 0 <= i < |init| ==> init[i] == results[i];
    }
  }

  /** Order is kept: the outcome of a prefix of the items is a prefix of the outcome. */
  lemma {:induction false} SkipOrder<T>(results: seq<(string, Result<T>)>, warn: (string, nat, string) -> string, k: nat)
    requires k <= |results|
    ensures Skip(results[..k], warn).kept <= Skip(results, warn).kept
    ensures Skip(results[..k], warn).warnings <= Skip(results, warn).warnings
    decreases |results|
  {
    if k < |results| {
      var init := results[..|results| - 1];
      assert init[..k] == results[..k];
      SkipOrder(init, warn, k);
    } else {
      assert results[..k] == results;
    }
  }

  /** With no failure, every item is kept in order and there is no warning. */
  lemma {:induction false} SkipAllOk<T>(results: seq<(string, Result<T>)>, warn: (string, nat, string) -> string)
    requires forall i :: 0 <= i < |results| ==> results[i].1.Ok?
    ensures Skip(results, warn).warnings == []
    ensures |Skip(results, warn).kept| == |results|
    ensures forall i :: 0 <= i < |results| ==> Skip(results, warn).kept[i] == results[i].1.value
    decreases |results|
  {
    if results != [] {
      var init := results[..|results| - 1];
      assert forall i :: 0 <= i < |init| ==> init[i] == results[i];
      SkipAllOk(init, warn);
    }
  }

  /** The (tag, translation) pairs of a list of items. */
  function Results<C, T>(items: seq<C>, tr: C -> Result<T>, tag: C -> string): (r: seq<(string, Result<T>)>)
    ensures |r| == |items|
    ensures forall i :: 0 <= i < |items| ==> r[i] == (tag(items[i]), tr(items[i]))
  {
    seq(|items|, i requires 0 <= i < |items| => (tag(items[i]), tr(items[i])))
  }

  /** The loop `for i, c := range items { t, err := tr(c); if err != nil { warn; continue };
      kept = append(kept, t) }`. */
  method SkipAll<C, T>(items: seq<C>, tr: C -> Result<T>, tag: C -> string, warn: (string, nat, string) -> string)
    returns (kept: seq<T>, warnings: seq<string>)
    ensures Outcome(kept, warnings) == Skip(Results(items, tr, tag), warn)
  {
    ghost var results := Results(items, tr, tag);
    kept, warnings := [], [];
    var i := 0;
    while i < |items|
      invariant 0 <= i <= |items|
      invariant Outcome(kept, warnings) == Skip(results[..i], warn)
    {
      assert results[..i + 1][..i] == results[..i];
      var t := tr(items[i]);
      if t.Err? {
        warnings := warnings + [warn(tag(items[i]), i, t.error)];
      } else {
        kept := kept + [t.value];
      }
      i := i + 1;
    }
    assert results[..i] == results;
  }

  /** The rules of a route that may not exist yet. */
  function RulesOf(route: Option<RouteOptions>): seq<Rule> {
    if route.Some? then route.value.rules else []
  }

  /** The route after the rule loop: created only when a rule is kept, and then holding the
      rules it had followed by the kept ones. */
  function RouteAfter(route: Option<RouteOptions>, kept: seq<Rule>): (r: Option<RouteOptions>)
    ensures kept == [] ==> r == route
    ensures kept != [] ==> r.Some? && r.value.rules == RulesOf(route) + kept
  {
    if kept == [] then route else Some(RouteOptions(RulesOf(route) + kept))
  }

  function NoTag(message: string): string {
    ""
  }

  /** The rule loop: a failed rule is skipped with a warning, and the route is created when
      the first rule is kept. */
  method AppendRules(route: Option<RouteOptions>, messages: seq<string>, migrateRule: string -> Result<Rule>)
    returns (route': Option<RouteOptions>, warnings: seq<string>)
    ensures var o := Skip(Results(messages, migrateRule, NoTag), RuleWarning);
      route' == RouteAfter(route, o.kept) && warnings == o.warnings
  {
    ghost var results := Results(messages, migrateRule, NoTag);
    route', warnings := route, [];
    var i := 0;
    while i < |messages|
      invariant 0 <= i <= |messages|
      invariant var o := Skip(results[..i], RuleWarning);
        route' == RouteAfter(route, o.kept) && warnings == o.warnings
    {
      assert results[..i + 1][..i] == results[..i];
      assert results[i] == ("", migrateRule(messages[i]));
      var rule := migrateRule(messages[i]);
      if rule.Err? {
        warnings := warnings + [RuleWarning("", i, rule.error)];
        assert Skip(results[..i + 1], RuleWarning).warnings == warnings;
        assert Skip(results[..i + 1], RuleWarning).kept == Skip(results[..i], RuleWarning).kept;
      } else {
        ghost var before := Skip(results[..i], RuleWarning).kept;
        if route'.None? {
          route' := Some(RouteOptions([]));
        }
        assert Skip(results[..i + 1], RuleWarning).kept == before + [rule.value];
        assert RulesOf(route) + before + [rule.value] == RulesOf(route) + (before + [rule.value]);
        if before == [] {
          assert route'.value.rules == RulesOf(route) + before;
        } else {
          assert route' == Some(RouteOptions(RulesOf(route) + before));
        }
        route' := Some(route'.value.(rules := route'.value.rules + [rule.value]));
        assert route' == RouteAfter(route, before + [rule.value]);
      }
      i := i + 1;
    }
    assert results[..i] == results;
  }
}
