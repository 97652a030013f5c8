/** Every run is finite, none gets stuck, and no exchange is sent twice. */
module WalkProgress {
  import opened Basics
  import opened WalkModel
  import opened WalkSpec
  import opened WalkMachine
  import opened WalkInvariant
  import opened WalkSteps
  import opened WalkRuleSteps
  import opened WalkRuns
  import opened WalkTheorems

  // ---- the measure ----

  function Weight(f: Future): nat {
    if !f.done then 60 else if !f.signalled then 20 else 0
  }

  function TotalWeight(fs: seq<Future>): nat {
    if fs == [] then 0 else TotalWeight(fs[..|fs| - 1]) + Weight(fs[|fs| - 1])
  }

  /** How far the driver is from its next irreversible step. */
  function Stage(m: Machine): nat {
    match m.control
    case Walking(_) => 4
    case Sweeping(suspension) => if suspension.Exchange? || Blocks(m.state, suspension) then 3 else 6
    case Checking(suspension) => if suspension.Exchange? || Blocks(m.state, suspension) then 2 else 5
    case Blocked(_) => 1
    case Finishing(_) => 1
    case Finished(_, _) => 0
  }

  /** Rules left, futures outstanding, rules armed, a token in the channel, and the stage. */
  function Rank(cfg: Config, m: Machine): nat {
    var s := m.state;
    200 * (if s.ruleIndex <= |cfg.rules| then |cfg.rules| - s.ruleIndex else 0)
    + (if s.terminal.None? then 100 else 0)
    + TotalWeight(s.futures)
    + 10 * |s.armed|
    + (if s.wake then 10 else 0)
    + Stage(m)
  }

  lemma {:induction false} WeightUpdate(fs: seq<Future>, i: nat, f: Future)
    requires i < |fs|
    ensures TotalWeight(fs[i := f]) == TotalWeight(fs) - Weight(fs[i]) + Weight(f)
  {
    var gs := fs[i := f];
    var n := |fs| - 1;
    if i == n {
      assert gs[..n] == fs[..n];
    } else {
      WeightUpdate(fs[..n], i, f);
      assert gs[..n] == fs[..n][i := f];
    }
  }

  lemma {:induction false} WeightSame(fs: seq<Future>, gs: seq<Future>)
    requires |fs| == |gs| && forall i :: 0 <= i < |fs| ==> Weight(gs[i]) == Weight(fs[i])
    ensures TotalWeight(gs) == TotalWeight(fs)
  {
    if fs != [] {
      WeightSame(fs[..|fs| - 1], gs[..|fs| - 1]);
    }
  }

  lemma WeightExtends(fs: seq<Future>, gs: seq<Future>)
    requires Extends(fs, gs)
    ensures TotalWeight(gs) == TotalWeight(fs) + if |gs| == |fs| then 0 else 60
  {
    WeightSame(fs, gs[..|fs|]);
    assert |gs| == |fs| ==> gs[..|fs|] == gs;
  }

  // ---- what a walk step pays with ----

  lemma {:induction false} UnresolvedAreOpen(s: State, tags: seq<string>)
    ensures forall x :: x in UnresolvedTags(s, tags) ==> !Resolved(s, x)
  {
    if tags != [] {
      UnresolvedAreOpen(s, tags[1..]);
    }
  }

  ghost predicate WalkPays(s: State, t: State, outcome: WalkOutcome) {
    if outcome.Continue? then
      t.ruleIndex == s.ruleIndex + 1 && |t.armed| <= |s.armed| + 1 && t.terminal == s.terminal
    else
      && t.ruleIndex == s.ruleIndex && |t.armed| <= |s.armed|
      && (if |t.futures| == |s.futures| then t.terminal == s.terminal else s.terminal.None? && t.terminal.Some?)
      && (outcome.Suspend? ==> outcome.suspension.Exchange? || Blocks(t, outcome.suspension))
  }

  lemma MatchedPays(cfg: Config, s: State)
    requires s.ruleIndex < |cfg.rules|
    ensures var (t, outcome) := WalkMatched(cfg, s); WalkPays(s, t, outcome)
  {
    match cfg.rules[s.ruleIndex].action
    case Evaluate(_, _, _, _) => EvaluatePays(cfg, s);
    case Route(_, _, _) => RoutePays(cfg, s);
    case Respond => RespondPays(cfg, s);
    case _ =>
  }

  lemma EvaluatePays(cfg: Config, s: State)
    requires s.ruleIndex < |cfg.rules| && cfg.rules[s.ruleIndex].action.Evaluate?
    ensures var (t, outcome) := WalkEvaluate(cfg, s); WalkPays(s, t, outcome)
  {
  }

  lemma RoutePays(cfg: Config, s: State)
    requires s.ruleIndex < |cfg.rules| && cfg.rules[s.ruleIndex].action.Route?
    ensures var (t, outcome) := WalkRoute(cfg, s); WalkPays(s, t, outcome)
  {
  }

  lemma RespondPays(cfg: Config, s: State)
    requires s.ruleIndex < |cfg.rules|
    ensures var (t, outcome) := WalkRespond(cfg, s); WalkPays(s, t, outcome)
  {
  }

  lemma ArmPays(cfg: Config, s: State)
    requires s.ruleIndex < |cfg.rules| && ArmedInRange(cfg, s)
    ensures var (t, outcome) := ArmRule(cfg, s); WalkPays(s, t, outcome)
  {
    SweepFrame(cfg, s.(armed := s.armed + [NewArm(cfg, s)]), 0);
  }

  lemma WalkRulePays(cfg: Config, s: State)
    requires ArmedInRange(cfg, s) && s.ruleIndex < |cfg.rules|
    ensures var (t, outcome) := WalkRule(cfg, s); WalkPays(s, t, outcome)
  {
    var rule := cfg.rules[s.ruleIndex];
    var s1 := if rule.HasBindings() then Settle(cfg, s) else s;
    SettleFrame(cfg, s, 0);
    var (t, outcome) := WalkRule(cfg, s);
    if rule.Races() {
      ArmPays(cfg, s1);
    } else if Unresolved(s1, rule) != [] {
      FirstIsOpen(s1, rule);
    } else if RuleMatches(cfg, s1, rule, s1.anonymous) {
      MatchedPays(cfg, s1);
    }
    SettledPays(s, s1, t, outcome);
  }

  lemma SettledPays(s: State, s1: State, t: State, outcome: WalkOutcome)
    requires s1.ruleIndex == s.ruleIndex && s1.armed == s.armed && s1.terminal == s.terminal
    requires |s1.futures| == |s.futures| && WalkPays(s1, t, outcome)
    ensures WalkPays(s, t, outcome)
  {
  }

  lemma FirstIsOpen(s: State, rule: Rule)
    requires Unresolved(s, rule) != []
    ensures !Resolved(s, Unresolved(s, rule)[0])
  {
    UnresolvedAreOpen(s, rule.tags);
    assert Unresolved(s, rule)[0] in Unresolved(s, rule);
  }

  lemma WalkingRank(cfg: Config, m: Machine)
    requires m.control.Walking? && ArmedInRange(cfg, m.state) && m.state.ruleIndex <= |cfg.rules|
    ensures Rank(cfg, Drive(cfg, m)) < Rank(cfg, m)
  {
    var s := m.state;
    WalkFrame(cfg, s);
    if s.ruleIndex < |cfg.rules| {
      WalkRulePays(cfg, s);
    }
    WeightExtends(s.futures, Walk(cfg, s).0.futures);
  }

  lemma SweepingRank(cfg: Config, m: Machine)
    requires m.control.Sweeping? && ArmedInRange(cfg, m.state)
    ensures Rank(cfg, Drive(cfg, m)) < Rank(cfg, m)
  {
    var s := m.state;
    var s1 := Settle(cfg, s);
    SettleFrame(cfg, s, 0);
    WeightSame(s.futures, s1.futures);
    SweepFrame(cfg, s1, 0);
    var swept := Sweep(cfg, s1);
    SweptStage(m, swept);
  }

  /** What a sweep gains: a rule disarmed, or a stage. */
  lemma SweptStage(m: Machine, swept: SweepOutcome)
    requires m.control.Sweeping?
    requires |swept.state.armed| <= |m.state.armed| && |swept.state.futures| == |m.state.futures|
    requires forall i: nat :: Resolved(swept.state, i) == Resolved(m.state, i)
    ensures var m' := m.(state := swept.state, control := SweptControl(swept, m.control.suspension));
            10 * |swept.state.armed| + Stage(m') < 10 * |m.state.armed| + Stage(m)
  {
  }

  lemma DriverLowersRank(cfg: Config, o: QueryOptions, m: Machine)
    requires Inv(cfg, o, m) && Drivable(cfg, m)
    ensures Rank(cfg, Drive(cfg, m)) < Rank(cfg, m)
  {
    if m.control.Walking? {
      WalkingRank(cfg, m);
    } else if m.control.Sweeping? {
      SweepingRank(cfg, m);
    }
  }

  lemma EnvironmentLowersRank(cfg: Config, m: Machine, m': Machine, i: nat)
    requires Completes(m, m', i) || Signals(m, m', i)
    ensures Rank(cfg, m') < Rank(cfg, m)
  {
    WeightUpdate(m.state.futures, i, m'.state.futures[i]);
  }

  /** Every step, of the driver or the environment, lowers the rank. */
  lemma StepLowersRank(cfg: Config, o: QueryOptions, m: Machine, m': Machine)
    requires Inv(cfg, o, m) && Step(cfg, m, m')
    ensures Rank(cfg, m') < Rank(cfg, m)
  {
    if DriverStep(cfg, m, m') {
      DriverLowersRank(cfg, o, m);
    } else {
      var i: nat :| Completes(m, m', i) || Signals(m, m', i);
      EnvironmentLowersRank(cfg, m, m', i);
    }
  }

  lemma {:induction false} RankPaysForSteps(cfg: Config, driver: Driver, o: QueryOptions, run: seq<Machine>, i: nat)
    requires WellFormed(cfg) && Run(cfg, driver, o, run) && i < |run|
    ensures Rank(cfg, run[i]) + i <= Rank(cfg, run[0])
  {
    if i > 0 {
      RankPaysForSteps(cfg, driver, o, run, i - 1);
      RunKeepsInv(cfg, driver, o, run, i - 1);
      assert Step(cfg, run[i - 1], run[i - 1 + 1]);
      StepLowersRank(cfg, o, run[i - 1], run[i]);
    }
  }

  /** No run takes more than 200 steps a rule and 104 besides. */
  lemma RunIsBounded(cfg: Config, driver: Driver, o: QueryOptions, run: seq<Machine>)
    requires WellFormed(cfg) && Run(cfg, driver, o, run)
    ensures |run| <= 200 * |cfg.rules| + 105
  {
    RankPaysForSteps(cfg, driver, o, run, |run| - 1);
  }

  // ---- no run gets stuck ----

  lemma OpenFutureMoves(cfg: Config, m: Machine, i: nat)
    requires i < |m.state.futures| && !m.state.futures[i].signalled
    ensures exists m' :: Step(cfg, m, m')
  {
    var s := m.state;
    if !s.futures[i].done {
      var m' := m.(state := s.(futures := s.futures[i := s.futures[i].(done := true)]));
      assert Completes(m, m', i);
      assert Step(cfg, m, m');
    } else {
      var m' := m.(state := s.(futures := s.futures[i := s.futures[i].(signalled := true)], wake := true));
      assert Signals(m, m', i);
      assert Step(cfg, m, m');
    }
  }

  lemma DriverMoves(cfg: Config, o: QueryOptions, m: Machine)
    requires Inv(cfg, o, m) && DriverEnabled(m)
    ensures exists m' :: Step(cfg, m, m')
  {
    if Live(m.control) {
      LiveState(cfg, o, m.state, m.control);
      ArmedAreInRange(cfg, o, m.state);
    }
    assert Drivable(cfg, m);
    assert Step(cfg, m, Drive(cfg, m));
  }

  /** What a blocked driver waits for: the awaited future, or one the first armed rule waits for,
      has yet to complete or to signal. */
  ghost predicate Owed(s: State, suspension: Suspension) {
    match suspension
    case Await(f) => f < |s.futures| && !s.futures[f].signalled
    case Drain => s.armed != [] && exists x :: x in s.armed[0].futures && x < |s.futures| && !s.futures[x].signalled
    case Exchange(_) => false
  }

  lemma BlockedStateIsOwed(cfg: Config, o: QueryOptions, m: Machine)
    requires Inv(cfg, o, m) && m.control.Blocked?
    ensures m.state.wake || Owed(m.state, m.control.suspension)
  {
    var s := m.state;
    if m.control.suspension.Await? {
      var i := m.control.suspension.future;
      assert !s.futures[i].signalled || s.wake;
    } else {
      var x :| x in s.armed[0].futures && x < |s.futures| && !s.futures[x].settled;
      assert !s.futures[x].signalled || s.wake;
    }
  }

  /** No wake-up is lost: at every point of every run, a driver blocked on the wake channel has a
      token in it, or the very future it waits for has yet to complete or to signal. */
  lemma BlockedIsOwed(cfg: Config, driver: Driver, o: QueryOptions, run: seq<Machine>, i: nat)
    requires WellFormed(cfg) && Run(cfg, driver, o, run) && i < |run| && run[i].control.Blocked?
    ensures run[i].state.wake || Owed(run[i].state, run[i].control.suspension)
  {
    RunKeepsInv(cfg, driver, o, run, i);
    BlockedStateIsOwed(cfg, o, run[i]);
  }

  lemma OwedIsOpen(s: State, suspension: Suspension)
    requires Owed(s, suspension)
    ensures exists i :: 0 <= i < |s.futures| && !s.futures[i].signalled
  {
    if suspension.Await? {
      assert !s.futures[suspension.future].signalled;
    } else {
      var x :| x in s.armed[0].futures && x < |s.futures| && !s.futures[x].signalled;
    }
  }

  /** From every reachable state short of the result, some step is possible. */
  lemma RunCanGoOn(cfg: Config, driver: Driver, o: QueryOptions, run: seq<Machine>)
    requires WellFormed(cfg) && Run(cfg, driver, o, run) && !Last(run).control.Finished?
    ensures exists m' :: Step(cfg, Last(run), m')
  {
    var m := Last(run);
    RunKeepsInv(cfg, driver, o, run, |run| - 1);
    if DriverEnabled(m) {
      DriverMoves(cfg, o, m);
    } else if m.control.Blocked? {
      BlockedStateIsOwed(cfg, o, m);
      OwedIsOpen(m.state, m.control.suspension);
      var i :| 0 <= i < |m.state.futures| && !m.state.futures[i].signalled;
      OpenFutureMoves(cfg, m, i);
    } else {
      LiveState(cfg, o, m.state, m.control);
      OpenFutureMoves(cfg, m, m.control.pending.future.value);
    }
  }
}
