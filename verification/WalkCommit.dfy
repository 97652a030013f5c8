/** When a walk commits: an ordinary rule only once no race rule is armed any more. */
module WalkCommit {
  import opened Basics
  import opened WalkModel
  import opened WalkSpec
  import opened WalkMachine
  import opened WalkInvariant
  import opened WalkSteps
  import opened WalkRuleSteps
  import opened WalkRuns
  import opened WalkTheorems
  import opened WalkHistory

  ghost predicate Alone(cfg: Config, armed: seq<Armed>, origin: nat) {
    cfg.RacesAt(origin) || armed == []
  }

  ghost predicate CommitsAlone(cfg: Config, m: Machine) {
    && (m.control.Finishing? ==> Alone(cfg, m.state.armed, m.control.pending.origin))
    && (m.control.Finished? ==> Alone(cfg, m.state.armed, m.control.origin))
  }

  ghost predicate OutcomeAlone(cfg: Config, t: State, outcome: WalkOutcome) {
    && (outcome.Stop? ==> Alone(cfg, t.armed, outcome.origin))
    && (outcome.Suspend? && outcome.suspension.Exchange? ==> Alone(cfg, t.armed, outcome.suspension.pending.origin))
  }

  ghost predicate OnlyRacesArmed(cfg: Config, armed: seq<Armed>) {
    forall k :: 0 <= k < |armed| ==> cfg.RacesAt(armed[k].ruleIndex)
  }

  lemma ArmAlone(cfg: Config, s: State)
    requires cfg.RacesAt(s.ruleIndex) && ArmedInRange(cfg, s) && OnlyRacesArmed(cfg, s.armed)
    ensures var (t, outcome) := ArmRule(cfg, s); OutcomeAlone(cfg, t, outcome)
  {
    var s1 := s.(armed := s.armed + [NewArm(cfg, s)]);
    SweepCommitsRace(cfg, s1);
  }

  lemma MatchedAlone(cfg: Config, s: State)
    requires s.ruleIndex < |cfg.rules|
    ensures var (t, outcome) := WalkMatched(cfg, s); OutcomeAlone(cfg, t, outcome)
  {
  }

  lemma WalkAlone(cfg: Config, s: State)
    requires ArmedInRange(cfg, s) && OnlyRacesArmed(cfg, s.armed)
    ensures var (t, outcome) := Walk(cfg, s); OutcomeAlone(cfg, t, outcome)
  {
    if s.ruleIndex < |cfg.rules| {
      var rule := cfg.rules[s.ruleIndex];
      var s1 := if rule.HasBindings() then Settle(cfg, s) else s;
      SettleFrame(cfg, s, 0);
      if rule.Races() {
        ArmAlone(cfg, s1);
      } else {
        MatchedAlone(cfg, s1);
      }
    }
  }

  lemma WalkingAlone(cfg: Config, m: Machine)
    requires m.control.Walking? && Drivable(cfg, m) && OnlyRacesArmed(cfg, m.state.armed)
    ensures CommitsAlone(cfg, Drive(cfg, m))
  {
    var (t, outcome) := Walk(cfg, m.state);
    WalkAlone(cfg, m.state);
    AfterWalkAlone(cfg, m.driver, m.control.first, t, outcome);
  }

  lemma AfterWalkAlone(cfg: Config, driver: Driver, first: bool, t: State, outcome: WalkOutcome)
    requires OutcomeAlone(cfg, t, outcome)
    ensures CommitsAlone(cfg, Machine(driver, t, AfterWalk(driver, first, outcome)))
  {
  }

  lemma PausedAlone(cfg: Config, o: QueryOptions, m: Machine)
    requires CommitsAlone(cfg, m) && Drivable(cfg, m) && !m.control.Walking? && !m.control.Sweeping?
    requires m.control.Checking? && m.control.suspension.Exchange? ==> m.state.armed == []
    ensures CommitsAlone(cfg, Drive(cfg, m))
  {
  }

  lemma DriverAlone(cfg: Config, o: QueryOptions, m: Machine)
    requires Inv(cfg, o, m) && CommitsAlone(cfg, m) && Drivable(cfg, m)
    ensures CommitsAlone(cfg, Drive(cfg, m))
  {
    if m.control.Walking? {
      WalkingAlone(cfg, m);
    } else if m.control.Sweeping? {
      SweepAlone(cfg, o, m);
    } else {
      PausedAlone(cfg, o, m);
    }
  }

  lemma SweepAlone(cfg: Config, o: QueryOptions, m: Machine)
    requires Inv(cfg, o, m) && m.control.Sweeping? && Drivable(cfg, m)
    ensures CommitsAlone(cfg, Drive(cfg, m))
  {
    SettleFrame(cfg, m.state, 0);
    SweepCommitsRace(cfg, Settle(cfg, m.state));
  }

  lemma StepAlone(cfg: Config, o: QueryOptions, m: Machine, m': Machine)
    requires Inv(cfg, o, m) && CommitsAlone(cfg, m) && Step(cfg, m, m')
    ensures CommitsAlone(cfg, m')
  {
    if DriverStep(cfg, m, m') {
      DriverAlone(cfg, o, m);
    }
  }

  lemma {:induction false} RunCommitsAlone(cfg: Config, driver: Driver, o: QueryOptions, run: seq<Machine>, i: nat)
    requires WellFormed(cfg) && Run(cfg, driver, o, run) && i < |run|
    ensures CommitsAlone(cfg, run[i])
  {
    if i > 0 {
      RunCommitsAlone(cfg, driver, o, run, i - 1);
      RunKeepsInv(cfg, driver, o, run, i - 1);
      assert Step(cfg, run[i - 1], run[i - 1 + 1]);
      StepAlone(cfg, o, run[i - 1], run[i]);
    }
  }

  /** At every point of a run: an ordinary rule has been chosen only with no race rule armed, and
      with every race rule before it without a verdict; a race rule has been chosen only with
      every ordinary rule before it without one. */
  lemma OrdinaryRulesWaitForRaces(cfg: Config, driver: Driver, o: QueryOptions, run: seq<Machine>, i: nat)
    requires WellFormed(cfg) && Run(cfg, driver, o, run) && i < |run|
    requires run[i].control.Finishing? || run[i].control.Finished?
    ensures var origin := if run[i].control.Finishing? then run[i].control.pending.origin else run[i].control.origin;
            && origin <= |cfg.rules|
            && (!cfg.RacesAt(origin) ==> run[i].state.armed == [] && FirstVerdict(cfg, o, origin))
            && (cfg.RacesAt(origin) ==> forall k :: 0 <= k < origin && !cfg.RacesAt(k) ==> Verdict(cfg, o, k).None?)
  {
    RunCommitsAlone(cfg, driver, o, run, i);
    RunKeepsInv(cfg, driver, o, run, i);
  }
}
