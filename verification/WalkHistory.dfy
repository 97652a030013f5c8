/** What is sent and what is filed along a run: every exchange once, with the right options,
    and every filed response for good. */
module WalkHistory {
  import opened Basics
  import opened WalkModel
  import opened WalkSpec
  import opened WalkMachine
  import opened WalkInvariant
  import opened WalkSteps
  import opened WalkRuleSteps
  import opened WalkRuns
  import opened WalkTheorems

  // ---- one exchange per rule ----

  /** Futures are launched by ordinary rules, in rule order, one by each. */
  ghost predicate Launchers(cfg: Config, futures: seq<Future>) {
    && (forall i :: 0 <= i < |futures| ==> !cfg.RacesAt(futures[i].origin))
    && (forall i, j :: 0 <= i < j < |futures| ==> futures[i].origin < futures[j].origin)
  }

  /** An exchange still to be sent belongs to a rule that has sent none. */
  ghost predicate Unsent(futures: seq<Future>, p: Pending) {
    p.future.None? ==> forall i :: 0 <= i < |futures| ==> futures[i].origin != p.origin
  }

  ghost predicate SentRight(cfg: Config, m: Machine) {
    && Launchers(cfg, m.state.futures)
    && (m.control.Finishing? ==> Unsent(m.state.futures, m.control.pending))
    && ((m.control.Sweeping? || m.control.Checking?) && m.control.suspension.Exchange? ==>
          Unsent(m.state.futures, m.control.suspension.pending))
  }

  lemma {:induction false} SweepCommitsArmed(cfg: Config, s: State, i: nat)
    requires i <= |s.armed| && ArmedInRange(cfg, s)
    ensures var r := SweepFrom(cfg, s, i);
            r.committed.Some? ==> exists k :: 0 <= k < |s.armed| && s.armed[k].ruleIndex == r.committed.value.0
    decreases |s.armed| - i
  {
    if i < |s.armed| {
      if !Ready(s, s.armed[i]) {
        SweepCommitsArmed(cfg, s, i + 1);
      } else {
        SweepCommitsArmed(cfg, Disarm(s, i), i);
      }
    }
  }

  /** A sweep of race rules commits a race rule. */
  lemma SweepCommitsRace(cfg: Config, s: State)
    requires ArmedInRange(cfg, s) && forall k :: 0 <= k < |s.armed| ==> cfg.RacesAt(s.armed[k].ruleIndex)
    ensures var r := Sweep(cfg, s); r.committed.Some? ==> cfg.RacesAt(r.committed.value.0)
  {
    SweepCommitsArmed(cfg, s, 0);
  }

  ghost predicate WalkSends(cfg: Config, t: State, outcome: WalkOutcome) {
    && Launchers(cfg, t.futures)
    && (outcome.Suspend? && outcome.suspension.Exchange? ==> Unsent(t.futures, outcome.suspension.pending))
  }

  lemma ArmSends(cfg: Config, s: State)
    requires cfg.RacesAt(s.ruleIndex) && ArmedInRange(cfg, s) && Launchers(cfg, s.futures)
    requires forall k :: 0 <= k < |s.armed| ==> cfg.RacesAt(s.armed[k].ruleIndex)
    ensures var (t, outcome) := ArmRule(cfg, s); WalkSends(cfg, t, outcome)
  {
    var s1 := s.(armed := s.armed + [NewArm(cfg, s)]);
    SweepFrame(cfg, s1, 0);
    SweepCommitsRace(cfg, s1);
  }

  lemma LaunchSends(cfg: Config, fs: seq<Future>, f: Future)
    requires Launchers(cfg, fs) && !cfg.RacesAt(f.origin) && forall i :: 0 <= i < |fs| ==> fs[i].origin < f.origin
    ensures Launchers(cfg, fs + [f])
  {
  }

  /** No launch has been made by the rule under the walk, except its own speculative one. */
  ghost predicate Behind(s: State) {
    && (forall i :: 0 <= i < |s.futures| ==> s.futures[i].origin < s.ruleIndex || s.terminal == Some(i))
    && (s.terminal.Some? ==> s.terminal.value < |s.futures| && s.terminalIndex == s.ruleIndex)
  }

  lemma EvaluateSends(cfg: Config, s: State)
    requires s.ruleIndex < |cfg.rules| && !cfg.RacesAt(s.ruleIndex) && cfg.rules[s.ruleIndex].action.Evaluate?
    requires Launchers(cfg, s.futures) && Behind(s) && s.terminal.None?
    ensures var (t, outcome) := WalkEvaluate(cfg, s); WalkSends(cfg, t, outcome)
  {
    var action := cfg.rules[s.ruleIndex].action;
    if action.server in cfg.transports && (action.speculative || s.armed == []) {
      var options := ApplyRouteOptions(s.options, action.route);
      var f := Future(s.ruleIndex, action.tag, false, cfg.transports[action.server], options, false, false, false);
      LaunchSends(cfg, s.futures, f);
      assert WalkEvaluate(cfg, s).0.futures == s.futures + [f];
    }
  }

  lemma RouteSends(cfg: Config, s: State)
    requires s.ruleIndex < |cfg.rules| && !cfg.RacesAt(s.ruleIndex) && cfg.rules[s.ruleIndex].action.Route?
    requires Launchers(cfg, s.futures) && Behind(s)
    ensures var (t, outcome) := WalkRoute(cfg, s); WalkSends(cfg, t, outcome)
  {
    var t := WalkRoute(cfg, s).0;
    if t.futures != s.futures {
      LaunchSends(cfg, s.futures, t.futures[|s.futures|]);
    }
  }

  lemma MatchedSends(cfg: Config, s: State)
    requires s.ruleIndex < |cfg.rules| && !cfg.RacesAt(s.ruleIndex) && Launchers(cfg, s.futures) && Behind(s)
    requires s.terminal.Some? ==> cfg.rules[s.ruleIndex].action.Route?
    ensures var (t, outcome) := WalkMatched(cfg, s); WalkSends(cfg, t, outcome)
  {
    match cfg.rules[s.ruleIndex].action
    case Evaluate(_, _, _, _) => EvaluateSends(cfg, s);
    case Route(_, _, _) => RouteSends(cfg, s);
    case _ =>
  }

  lemma InvIsBehind(cfg: Config, o: QueryOptions, s: State)
    requires LaunchedOnce(s.futures, s.ruleIndex, s.terminal)
    requires TerminalRight(cfg, o, s.futures, s.ruleIndex, s.terminal, s.terminalIndex)
    ensures Behind(s) && (s.terminal.Some? ==> s.ruleIndex < |cfg.rules| && cfg.rules[s.ruleIndex].action.Route?)
  {
  }

  lemma SettleSends(cfg: Config, s: State)
    requires Launchers(cfg, s.futures) && Behind(s)
    ensures Launchers(cfg, Settle(cfg, s).futures) && Behind(Settle(cfg, s))
  {
    SettleFrame(cfg, s, 0);
  }

  lemma RuleSends(cfg: Config, s: State)
    requires s.ruleIndex < |cfg.rules| && ArmedInRange(cfg, s) && Launchers(cfg, s.futures) && Behind(s)
    requires s.terminal.Some? ==> cfg.rules[s.ruleIndex].action.Route?
    requires forall k :: 0 <= k < |s.armed| ==> cfg.RacesAt(s.armed[k].ruleIndex)
    ensures var (t, outcome) := WalkRule(cfg, s); WalkSends(cfg, t, outcome)
  {
    var rule := cfg.rules[s.ruleIndex];
    var s1 := if rule.HasBindings() then Settle(cfg, s) else s;
    SettleSends(cfg, s);
    SettleFrame(cfg, s, 0);
    if rule.Races() {
      ArmSends(cfg, s1);
    } else {
      MatchedSends(cfg, s1);
    }
  }

  lemma WalkSendsOnce(cfg: Config, o: QueryOptions, s: State)
    requires StateInv(cfg, o, s) && ArmedInRange(cfg, s) && Launchers(cfg, s.futures)
    ensures var (t, outcome) := Walk(cfg, s); WalkSends(cfg, t, outcome)
  {
    InvIsBehind(cfg, o, s);
    if s.ruleIndex < |cfg.rules| {
      RuleSends(cfg, s);
    }
  }

  lemma SweepSends(cfg: Config, o: QueryOptions, m: Machine)
    requires Inv(cfg, o, m) && SentRight(cfg, m) && m.control.Sweeping? && Drivable(cfg, m)
    ensures SentRight(cfg, Drive(cfg, m))
  {
    var s1 := Settle(cfg, m.state);
    SettleFrame(cfg, m.state, 0);
    SweepFrame(cfg, s1, 0);
    SweepCommitsRace(cfg, s1);
  }

  lemma AfterWalkSends(cfg: Config, driver: Driver, first: bool, t: State, outcome: WalkOutcome)
    requires WalkSends(cfg, t, outcome)
    ensures SentRight(cfg, Machine(driver, t, AfterWalk(driver, first, outcome)))
  {
  }

  lemma WalkingSends(cfg: Config, o: QueryOptions, m: Machine)
    requires StateInv(cfg, o, m.state) && Launchers(cfg, m.state.futures) && m.control.Walking? && Drivable(cfg, m)
    ensures SentRight(cfg, Drive(cfg, m))
  {
    var (t, outcome) := Walk(cfg, m.state);
    WalkSendsOnce(cfg, o, m.state);
    AfterWalkSends(cfg, m.driver, m.control.first, t, outcome);
  }

  lemma PausedSends(cfg: Config, m: Machine)
    requires SentRight(cfg, m) && !m.control.Walking? && !m.control.Sweeping? && Drivable(cfg, m)
    requires m.control.Blocked? ==> !m.control.suspension.Exchange?
    ensures SentRight(cfg, Drive(cfg, m))
  {
  }

  lemma DriverSends(cfg: Config, o: QueryOptions, m: Machine)
    requires Inv(cfg, o, m) && SentRight(cfg, m) && Drivable(cfg, m)
    ensures SentRight(cfg, Drive(cfg, m))
  {
    if m.control.Walking? {
      WalkingSends(cfg, o, m);
    } else if m.control.Sweeping? {
      SweepSends(cfg, o, m);
    } else {
      PausedSends(cfg, m);
    }
  }

  lemma EnvironmentSends(cfg: Config, m: Machine, m': Machine, i: nat)
    requires SentRight(cfg, m) && (Completes(m, m', i) || Signals(m, m', i))
    ensures SentRight(cfg, m')
  {
    assert forall k :: 0 <= k < |m.state.futures| ==> m'.state.futures[k].origin == m.state.futures[k].origin;
  }

  lemma StepSends(cfg: Config, o: QueryOptions, m: Machine, m': Machine)
    requires Inv(cfg, o, m) && SentRight(cfg, m) && Step(cfg, m, m')
    ensures SentRight(cfg, m')
  {
    if DriverStep(cfg, m, m') {
      DriverSends(cfg, o, m);
    } else {
      var i: nat :| Completes(m, m', i) || Signals(m, m', i);
      EnvironmentSends(cfg, m, m', i);
    }
  }

  lemma InitSends(cfg: Config, driver: Driver, o: QueryOptions)
    ensures SentRight(cfg, Init(driver, o))
  {
  }

  lemma RunStep(cfg: Config, driver: Driver, o: QueryOptions, run: seq<Machine>, i: nat)
    requires Run(cfg, driver, o, run) && i + 1 < |run|
    ensures Step(cfg, run[i], run[i + 1])
  {
  }

  lemma {:induction false} RunSends(cfg: Config, driver: Driver, o: QueryOptions, run: seq<Machine>, i: nat)
    requires WellFormed(cfg) && Run(cfg, driver, o, run) && i < |run|
    ensures SentRight(cfg, run[i])
  {
    if i == 0 {
      InitSends(cfg, driver, o);
    } else {
      RunSends(cfg, driver, o, run, i - 1);
      RunKeepsInv(cfg, driver, o, run, i - 1);
      RunStep(cfg, driver, o, run, i - 1);
      StepSends(cfg, o, run[i - 1], run[i]);
    }
  }

  /** Across all suspensions no two exchanges come from one rule: not two futures, not a future
      and the exchange that ends the walk. */
  lemma EachRuleSendsOnce(cfg: Config, driver: Driver, o: QueryOptions, run: seq<Machine>, i: nat)
    requires WellFormed(cfg) && Run(cfg, driver, o, run) && i < |run|
    ensures var fs := run[i].state.futures;
            && (forall x, y :: 0 <= x < y < |fs| ==> fs[x].origin != fs[y].origin)
            && (run[i].control.Finishing? && run[i].control.pending.future.None? ==>
                  forall x :: 0 <= x < |fs| ==> fs[x].origin != run[i].control.pending.origin)
  {
    RunSends(cfg, driver, o, run, i);
  }

  /** Only the rule that launched the speculative query consumes it. */
  lemma TerminalIsItsOwn(cfg: Config, driver: Driver, o: QueryOptions, run: seq<Machine>, i: nat)
    requires WellFormed(cfg) && Run(cfg, driver, o, run) && i < |run|
    requires run[i].control.Finishing? && run[i].control.pending.future.Some?
    ensures var p := run[i].control.pending;
            && p.future.value < |run[i].state.futures|
            && run[i].state.futures[p.future.value].terminal
            && run[i].state.futures[p.future.value].origin == p.origin
  {
    RunKeepsInv(cfg, driver, o, run, i);
  }

  /** Armed rules stay strictly sorted, and lie behind the walk. */
  lemma ArmedStaySorted(cfg: Config, driver: Driver, o: QueryOptions, run: seq<Machine>, i: nat)
    requires WellFormed(cfg) && Run(cfg, driver, o, run) && i < |run| && Live(run[i].control)
    ensures ArmedSorted(run[i].state.armed, run[i].state.ruleIndex)
  {
    RunKeepsInv(cfg, driver, o, run, i);
    LiveState(cfg, o, run[i].state, run[i].control);
  }

  // ---- the options of the exchange that ends the walk ----

  function FoldOptions(o: QueryOptions, routes: seq<RouteOptions>): QueryOptions {
    if routes == [] then o
    else ApplyRouteOptions(FoldOptions(o, routes[..|routes| - 1]), routes[|routes| - 1])
  }

  /** The route-options actions of the ordinary rules before `i` that match, in order. */
  function MatchedRoutes(cfg: Config, o: QueryOptions, i: nat): seq<RouteOptions>
    requires i <= |cfg.rules|
  {
    if i == 0 then []
    else if !cfg.RacesAt(i - 1) && cfg.rules[i - 1].action.SetOptions? && Hits(cfg, i - 1, SpineAt(cfg, o, i - 1))
    then MatchedRoutes(cfg, o, i - 1) + [cfg.rules[i - 1].action.route]
    else MatchedRoutes(cfg, o, i - 1)
  }

  lemma FoldAppend(o: QueryOptions, routes: seq<RouteOptions>, route: RouteOptions)
    ensures FoldOptions(o, routes + [route]) == ApplyRouteOptions(FoldOptions(o, routes), route)
  {
    assert (routes + [route])[..|routes|] == routes;
  }

  lemma AdvanceOptions(cfg: Config, i: nat, spine: Spine)
    requires i < |cfg.rules|
    ensures var action := cfg.rules[i].action;
            Advance(cfg, i, spine).options ==
            if action.SetOptions? && Hits(cfg, i, spine) then ApplyRouteOptions(spine.options, action.route)
            else spine.options
  {
  }

  lemma {:induction false} SpineOptionsFold(cfg: Config, o: QueryOptions, i: nat)
    requires i <= |cfg.rules|
    ensures SpineAt(cfg, o, i).options == FoldOptions(o, MatchedRoutes(cfg, o, i))
  {
    if i > 0 {
      var spine := SpineAt(cfg, o, i - 1);
      SpineOptionsFold(cfg, o, i - 1);
      AdvanceOptions(cfg, i - 1, spine);
      if cfg.rules[i - 1].action.SetOptions? {
        FoldAppend(o, MatchedRoutes(cfg, o, i - 1), cfg.rules[i - 1].action.route);
      }
    }
  }

  /** The exchange that ends the walk carries the caller's options folded over the matched
      route-options rules before the committing rule, then that rule's own options; whatever
      an evaluate rule or a later rule sets never reaches it. */
  lemma SentOptions(cfg: Config, driver: Driver, o: QueryOptions, run: seq<Machine>, i: nat)
    requires WellFormed(cfg) && Run(cfg, driver, o, run) && i < |run| && run[i].control.Finishing?
    ensures var p := run[i].control.pending;
            && p.origin <= |cfg.rules|
            && var folded := FoldOptions(o, MatchedRoutes(cfg, o, p.origin));
            if p.origin == |cfg.rules| then p.transport == cfg.defaultTransport && p.options == folded
            else
              && cfg.rules[p.origin].action.Route?
              && var action := cfg.rules[p.origin].action;
              && action.server in cfg.transports && p.transport == cfg.transports[action.server]
              && var own := ApplyRouteOptions(folded, action.route);
              p.options == if p.transport.fakeIP then own.(disableCache := true) else own
  {
    RunKeepsInv(cfg, driver, o, run, i);
    SpineOptionsFold(cfg, o, run[i].control.pending.origin);
  }

  // ---- filed responses ----

  ghost predicate Kept<T(!new)>(m: map<string, T>, n: map<string, T>) {
    forall tag :: tag in m ==> tag in n && n[tag] == m[tag]
  }

  /** Nothing filed is ever refiled, and no tag is given a second future. */
  ghost predicate FilesGrow(s: State, t: State) {
    Kept(s.named, t.named) && Kept(s.namedResponses, t.namedResponses) && Kept(s.namedTransports, t.namedTransports)
  }

  lemma SettleOneGrows(cfg: Config, s: State, i: nat)
    requires TagsAgree(s.futures, s.named) && i < |s.futures|
    requires FilesAgree(cfg, s.futures, s.namedResponses, s.namedTransports)
    ensures FilesGrow(s, SettleOne(cfg, s, i))
  {
    var f := s.futures[i];
    if f.tag in s.namedResponses && !f.settled {
      var k :| 0 <= k < |s.futures| && s.futures[k].settled && s.futures[k].tag == f.tag;
      assert f.tag == "" || k == i;
    }
  }

  lemma {:induction false} SettleGrows(cfg: Config, s: State, i: nat)
    requires TagsAgree(s.futures, s.named) && FlagsAgree(s.futures) && i <= |s.futures|
    requires FilesAgree(cfg, s.futures, s.namedResponses, s.namedTransports)
    ensures FilesGrow(s, SettleFrom(cfg, s, i))
    decreases |s.futures| - i
  {
    if i < |s.futures| {
      SettleOneGrows(cfg, s, i);
      SettleOneKeepsFiles(cfg, s, i);
      SettleGrows(cfg, SettleOne(cfg, s, i), i + 1);
      FilesGrowOn(s, SettleOne(cfg, s, i), SettleFrom(cfg, s, i));
    }
  }

  lemma FilesGrowOn(s: State, t: State, u: State)
    requires FilesGrow(s, t) && FilesGrow(t, u)
    ensures FilesGrow(s, u)
  {
  }

  lemma MatchedGrows(cfg: Config, s: State)
    requires s.ruleIndex < |cfg.rules|
    requires var action := cfg.rules[s.ruleIndex].action;
             action.Evaluate? && action.tag != "" ==> action.tag !in s.named
    ensures FilesGrow(s, WalkMatched(cfg, s).0)
  {
    if cfg.rules[s.ruleIndex].action.Evaluate? {
      EvaluateGrows(cfg, s);
    }
  }

  lemma EvaluateGrows(cfg: Config, s: State)
    requires s.ruleIndex < |cfg.rules| && cfg.rules[s.ruleIndex].action.Evaluate?
    requires var tag := cfg.rules[s.ruleIndex].action.tag; tag != "" ==> tag !in s.named
    ensures FilesGrow(s, WalkEvaluate(cfg, s).0)
  {
  }

  lemma ArmGrows(cfg: Config, s: State)
    requires s.ruleIndex < |cfg.rules| && ArmedInRange(cfg, s)
    ensures FilesGrow(s, ArmRule(cfg, s).0)
  {
    SweepFrame(cfg, s.(armed := s.armed + [NewArm(cfg, s)]), 0);
  }

  lemma OwnTagIsFresh(cfg: Config, o: QueryOptions, s: State)
    requires WellFormed(cfg) && s.ruleIndex < |cfg.rules| && OnSpine(cfg, s, SpineAt(cfg, o, s.ruleIndex))
    ensures var action := cfg.rules[s.ruleIndex].action; action.Evaluate? && action.tag != "" ==> action.tag !in s.named
  {
    var action := cfg.rules[s.ruleIndex].action;
    if action.Evaluate? && action.tag != "" {
      FreshTag(cfg, o, s, action.tag);
    }
  }

  lemma RuleGrows(cfg: Config, s: State, s1: State)
    requires ArmedInRange(cfg, s) && s.ruleIndex < |cfg.rules|
    requires s1 == if cfg.rules[s.ruleIndex].HasBindings() then Settle(cfg, s) else s
    requires FilesGrow(s, s1) && s1.named == s.named
    requires var action := cfg.rules[s.ruleIndex].action;
             action.Evaluate? && action.tag != "" ==> action.tag !in s.named
    ensures FilesGrow(s, WalkRule(cfg, s).0)
  {
    SettleFrame(cfg, s, 0);
    if cfg.rules[s.ruleIndex].Races() {
      ArmGrows(cfg, s1);
    } else {
      MatchedGrows(cfg, s1);
    }
  }

  lemma WalkGrows(cfg: Config, o: QueryOptions, s: State)
    requires WellFormed(cfg) && StateInv(cfg, o, s) && ArmedInRange(cfg, s)
    ensures FilesGrow(s, Walk(cfg, s).0)
  {
    if s.ruleIndex < |cfg.rules| {
      OwnTagIsFresh(cfg, o, s);
      SettleGrows(cfg, s, 0);
      SettleFrame(cfg, s, 0);
      RuleGrows(cfg, s, if cfg.rules[s.ruleIndex].HasBindings() then Settle(cfg, s) else s);
    }
  }
}
