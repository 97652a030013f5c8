/** What is on file for good: from any point of a run to any later one, no tag is given a second
    future and no filed response changes. */
module WalkFiles {
  import opened Basics
  import opened WalkModel
  import opened WalkSpec
  import opened WalkMachine
  import opened WalkInvariant
  import opened WalkSteps
  import opened WalkRuleSteps
  import opened WalkRuns
  import opened WalkTheorems
  import opened WalkHistory

  /** Tags, flags and files agree, whatever the driver is doing. */
  ghost predicate FilesRight(cfg: Config, s: State) {
    && TagsAgree(s.futures, s.named) && FlagsAgree(s.futures)
    && FilesAgree(cfg, s.futures, s.namedResponses, s.namedTransports)
  }

  predicate SameFiles(s: State, t: State) {
    && t.futures == s.futures && t.named == s.named
    && t.namedResponses == s.namedResponses && t.namedTransports == s.namedTransports
  }

  lemma SettleFilesRight(cfg: Config, s: State)
    requires FilesRight(cfg, s)
    ensures FilesRight(cfg, Settle(cfg, s)) && FilesGrow(s, Settle(cfg, s))
  {
    SettleKeepsFiles(cfg, s, 0);
    SettleFrame(cfg, s, 0);
    FuturesKeepTags(s.futures, Settle(cfg, s).futures, s.named);
    SettleGrows(cfg, s, 0);
  }

  // ---- the end of a walk changes no file beyond the settle before it ----

  predicate Ends(outcome: WalkOutcome) {
    outcome.Stop? || (outcome.Suspend? && outcome.suspension.Exchange?)
  }

  lemma ArmEnds(cfg: Config, s: State)
    requires s.ruleIndex < |cfg.rules| && ArmedInRange(cfg, s)
    ensures Ends(ArmRule(cfg, s).1) ==> SameFiles(s, ArmRule(cfg, s).0)
  {
    SweepFrame(cfg, s.(armed := s.armed + [NewArm(cfg, s)]), 0);
  }

  lemma MatchedEnds(cfg: Config, s: State)
    requires s.ruleIndex < |cfg.rules|
    ensures Ends(WalkMatched(cfg, s).1) ==> SameFiles(s, WalkMatched(cfg, s).0)
  {
  }

  lemma WalkEnds(cfg: Config, s: State)
    requires ArmedInRange(cfg, s)
    ensures Ends(Walk(cfg, s).1) ==> SameFiles(s, Walk(cfg, s).0) || SameFiles(Settle(cfg, s), Walk(cfg, s).0)
  {
    if s.ruleIndex < |cfg.rules| {
      var rule := cfg.rules[s.ruleIndex];
      var s1 := if rule.HasBindings() then Settle(cfg, s) else s;
      SettleFrame(cfg, s, 0);
      if rule.Races() {
        ArmEnds(cfg, s1);
      } else {
        MatchedEnds(cfg, s1);
      }
    }
  }

  // ---- every step ----

  lemma LiveFilesRight(cfg: Config, o: QueryOptions, m: Machine)
    requires Inv(cfg, o, m) && Live(m.control)
    ensures FilesRight(cfg, m.state)
  {
    LiveState(cfg, o, m.state, m.control);
  }

  lemma WalkingFiles(cfg: Config, o: QueryOptions, m: Machine)
    requires WellFormed(cfg) && Inv(cfg, o, m) && m.control.Walking? && Drivable(cfg, m)
    ensures FilesRight(cfg, Drive(cfg, m).state)
  {
    var m' := Drive(cfg, m);
    DriverKeepsInv(cfg, o, m);
    if Live(m'.control) {
      LiveFilesRight(cfg, o, m');
    } else {
      LiveFilesRight(cfg, o, m);
      SettleFilesRight(cfg, m.state);
      WalkEnds(cfg, m.state);
    }
  }

  lemma SweepingFiles(cfg: Config, m: Machine)
    requires FilesRight(cfg, m.state) && m.control.Sweeping? && Drivable(cfg, m)
    ensures FilesRight(cfg, Drive(cfg, m).state) && FilesGrow(m.state, Drive(cfg, m).state)
  {
    SettleFilesRight(cfg, m.state);
    SettleFrame(cfg, m.state, 0);
    SweepFrame(cfg, Settle(cfg, m.state), 0);
  }

  lemma PausedFiles(cfg: Config, m: Machine)
    requires FilesRight(cfg, m.state) && !m.control.Walking? && !m.control.Sweeping? && Drivable(cfg, m)
    ensures FilesRight(cfg, Drive(cfg, m).state) && FilesGrow(m.state, Drive(cfg, m).state)
  {
  }

  lemma MoveFiles(cfg: Config, m: Machine, m': Machine, i: nat)
    requires FilesRight(cfg, m.state) && (Completes(m, m', i) || Signals(m, m', i))
    ensures FilesRight(cfg, m'.state) && FilesGrow(m.state, m'.state)
  {
    var s := m.state;
    FuturesKeepTags(s.futures, m'.state.futures, s.named);
    if Completes(m, m', i) {
      CompletionKeepsFiles(cfg, s.futures, i, s.namedResponses, s.namedTransports);
    } else {
      SignalKeepsFiles(cfg, s.futures, i, s.namedResponses, s.namedTransports);
    }
  }

  lemma StepFiles(cfg: Config, o: QueryOptions, m: Machine, m': Machine)
    requires WellFormed(cfg) && Inv(cfg, o, m) && FilesRight(cfg, m.state) && Step(cfg, m, m')
    ensures FilesRight(cfg, m'.state) && FilesGrow(m.state, m'.state)
  {
    if DriverStep(cfg, m, m') {
      if m.control.Walking? {
        WalkingFiles(cfg, o, m);
        LiveState(cfg, o, m.state, m.control);
        WalkGrows(cfg, o, m.state);
      } else if m.control.Sweeping? {
        SweepingFiles(cfg, m);
      } else {
        PausedFiles(cfg, m);
      }
    } else {
      var i: nat :| Completes(m, m', i) || Signals(m, m', i);
      MoveFiles(cfg, m, m', i);
    }
  }

  lemma {:induction false} RunFilesRight(cfg: Config, driver: Driver, o: QueryOptions, run: seq<Machine>, i: nat)
    requires WellFormed(cfg) && Run(cfg, driver, o, run) && i < |run|
    ensures FilesRight(cfg, run[i].state)
  {
    if i > 0 {
      RunFilesRight(cfg, driver, o, run, i - 1);
      RunKeepsInv(cfg, driver, o, run, i - 1);
      RunStep(cfg, driver, o, run, i - 1);
      StepFiles(cfg, o, run[i - 1], run[i]);
    }
  }

  lemma NextGrowsFiles(cfg: Config, driver: Driver, o: QueryOptions, run: seq<Machine>, i: nat)
    requires WellFormed(cfg) && Run(cfg, driver, o, run) && i + 1 < |run|
    ensures FilesGrow(run[i].state, run[i + 1].state)
  {
    RunFilesRight(cfg, driver, o, run, i);
    RunKeepsInv(cfg, driver, o, run, i);
    RunStep(cfg, driver, o, run, i);
    StepFiles(cfg, o, run[i], run[i + 1]);
  }

  /** From any point of a run to any later one, whatever the driver is doing: a named future is
      assigned once, and a filed response and its transport never change. */
  lemma FilesNeverChange(cfg: Config, driver: Driver, o: QueryOptions, run: seq<Machine>, i: nat, j: nat)
    requires WellFormed(cfg) && Run(cfg, driver, o, run) && i <= j < |run|
    ensures FilesGrow(run[i].state, run[j].state)
  {
    forall k | 0 <= k < |run| - 1 ensures FilesGrow(run[k].state, run[k + 1].state) {
      NextGrowsFiles(cfg, driver, o, run, k);
    }
    GrowsAlong(run, i, j);
  }

  lemma {:induction false} GrowsAlong(run: seq<Machine>, i: nat, j: nat)
    requires i <= j < |run| && forall k :: 0 <= k < |run| - 1 ==> FilesGrow(run[k].state, run[k + 1].state)
    ensures FilesGrow(run[i].state, run[j].state)
  {
    if i < j {
      GrowsAlong(run, i, j - 1);
      assert FilesGrow(run[j - 1].state, run[j - 1 + 1].state);
      FilesGrowOn(run[i].state, run[j - 1].state, run[j].state);
    }
  }
}
