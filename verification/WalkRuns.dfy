/** Every run keeps the invariant, and what follows for whole runs. */
module WalkRuns {
  import opened Basics
  import opened WalkModel
  import opened WalkSpec
  import opened WalkMachine
  import opened WalkInvariant
  import opened WalkSteps
  import opened WalkRuleSteps

  // ---- what a driver step does to the futures ----

  /** Futures are settled in place, and at most one fresh future is appended. */
  ghost predicate Extends(fs: seq<Future>, gs: seq<Future>) {
    && |fs| <= |gs| <= |fs| + 1
    && (forall i :: 0 <= i < |fs| ==> gs[i] == fs[i].(settled := gs[i].settled) && (fs[i].settled ==> gs[i].settled))
    && (|gs| == |fs| + 1 ==> !gs[|fs|].done && !gs[|fs|].signalled && !gs[|fs|].settled)
  }

  lemma LaunchFrame(fs: seq<Future>, f: Future)
    requires !f.done && !f.signalled && !f.settled
    ensures Extends(fs, fs + [f])
  {
  }

  lemma MatchedFrame(cfg: Config, s: State)
    requires s.ruleIndex < |cfg.rules|
    ensures var t := WalkMatched(cfg, s).0; Extends(s.futures, t.futures) && t.wake == s.wake
  {
    match cfg.rules[s.ruleIndex].action
    case Evaluate(_, _, _, _) => EvaluateFrame(cfg, s);
    case Route(_, _, _) => RouteFrame(cfg, s);
    case _ =>
  }

  lemma EvaluateFrame(cfg: Config, s: State)
    requires s.ruleIndex < |cfg.rules| && cfg.rules[s.ruleIndex].action.Evaluate?
    ensures var t := WalkEvaluate(cfg, s).0; Extends(s.futures, t.futures) && t.wake == s.wake
  {
    var action := cfg.rules[s.ruleIndex].action;
    if action.server in cfg.transports {
      LaunchFrame(s.futures, Future(s.ruleIndex, action.tag, false, cfg.transports[action.server],
                                    ApplyRouteOptions(s.options, action.route), false, false, false));
    }
  }

  lemma RouteFrame(cfg: Config, s: State)
    requires s.ruleIndex < |cfg.rules| && cfg.rules[s.ruleIndex].action.Route?
    ensures var t := WalkRoute(cfg, s).0; Extends(s.futures, t.futures) && t.wake == s.wake
  {
    var t := WalkRoute(cfg, s).0;
    if t.futures != s.futures {
      LaunchFrame(s.futures, t.futures[|s.futures|]);
    }
  }

  lemma ArmFrame(cfg: Config, s: State)
    requires s.ruleIndex < |cfg.rules| && ArmedInRange(cfg, s)
    ensures var t := ArmRule(cfg, s).0; t.futures == s.futures && t.wake == s.wake
  {
    SweepFrame(cfg, s.(armed := s.armed + [NewArm(cfg, s)]), 0);
  }

  lemma ExtendsAfter(fs: seq<Future>, gs: seq<Future>, hs: seq<Future>)
    requires Extends(fs, gs) && |fs| == |gs| && Extends(gs, hs)
    ensures Extends(fs, hs)
  {
  }

  lemma SettleExtends(cfg: Config, s: State)
    ensures Extends(s.futures, Settle(cfg, s).futures) && |Settle(cfg, s).futures| == |s.futures|
    ensures Settle(cfg, s).wake == s.wake && Settle(cfg, s).armed == s.armed && Settle(cfg, s).ruleIndex == s.ruleIndex
  {
    SettleFrame(cfg, s, 0);
  }

  lemma WalkRuleFrame(cfg: Config, s: State)
    requires ArmedInRange(cfg, s) && s.ruleIndex < |cfg.rules|
    ensures var t := WalkRule(cfg, s).0; Extends(s.futures, t.futures) && t.wake == s.wake
  {
    var rule := cfg.rules[s.ruleIndex];
    var s1 := if rule.HasBindings() then Settle(cfg, s) else s;
    SettleExtends(cfg, s);
    var t := WalkRule(cfg, s).0;
    if rule.Races() {
      ArmFrame(cfg, s1);
    } else if t.futures != s1.futures || t.wake != s1.wake {
      MatchedFrame(cfg, s1);
    }
    ExtendsAfter(s.futures, s1.futures, t.futures);
  }

  lemma WalkFrame(cfg: Config, s: State)
    requires ArmedInRange(cfg, s)
    ensures var t := Walk(cfg, s).0; Extends(s.futures, t.futures) && t.wake == s.wake
  {
    if s.ruleIndex < |cfg.rules| {
      WalkRuleFrame(cfg, s);
    }
  }

  // ---- each step keeps the invariant ----

  lemma InitInv(cfg: Config, driver: Driver, o: QueryOptions)
    ensures Inv(cfg, o, Init(driver, o))
  {
  }

  lemma AfterWalkRight(cfg: Config, o: QueryOptions, driver: Driver, first: bool, s: State, outcome: WalkOutcome)
    requires WalkedRight(cfg, o, s, outcome)
    ensures ControlRight(cfg, o, s, AfterWalk(driver, first, outcome))
  {
  }

  lemma WakeExtends(fs: seq<Future>, gs: seq<Future>, wake: bool)
    requires WakeKept(fs, wake) && Extends(fs, gs)
    ensures WakeKept(gs, wake)
  {
  }

  lemma WalkingKeepsInv(cfg: Config, o: QueryOptions, m: Machine)
    requires WellFormed(cfg) && Inv(cfg, o, m) && m.control.Walking? && ArmedInRange(cfg, m.state)
    ensures Inv(cfg, o, Drive(cfg, m))
  {
    var (t, outcome) := Walk(cfg, m.state);
    WalkRight(cfg, o, m.state);
    AfterWalkRight(cfg, o, m.driver, m.control.first, t, outcome);
    WalkFrame(cfg, m.state);
    WakeExtends(m.state.futures, t.futures, t.wake);
  }

  lemma FuturesKeepPending(cfg: Config, o: QueryOptions, fs: seq<Future>, gs: seq<Future>, p: Pending)
    requires PendingRight(cfg, o, fs, p) && SameFutures(fs, gs)
    ensures PendingRight(cfg, o, gs, p)
  {
  }

  lemma SettledIsKept(cfg: Config, s: State)
    requires FlagsAgree(s.futures)
    ensures var t := Settle(cfg, s);
            && FlagsAgree(t.futures) && AllSettled(t.futures) && WakeKept(t.futures, t.wake)
            && SameFutures(s.futures, t.futures)
  {
    SettleFrame(cfg, s, 0);
  }

  /** After settle and sweep, an armed rule that was not ready still waits for an unsettled future. */
  lemma StillWaiting(cfg: Config, o: QueryOptions, s: State, a: Armed)
    requires !Ready(s, a) && FlagsAgree(s.futures) && ArmedRight(cfg, o, s.futures, s.named, s.anonymous, a)
    ensures Waiting(s.futures, a) && a.futures != []
  {
    var i :| 0 <= i < |a.futures| && !Resolved(s, a.futures[i]);
    assert a.futures[i] in a.futures;
  }

  lemma SweepSettles(cfg: Config, s: State, suspension: Suspension)
    requires ArmedInRange(cfg, s) && FlagsAgree(s.futures)
    ensures var (t, control) := SweepThen(cfg, s, suspension);
            WakeKept(t.futures, t.wake) && !control.Sweeping?
  {
    SettledIsKept(cfg, s);
    SettleFrame(cfg, s, 0);
    SweepFrame(cfg, Settle(cfg, s), 0);
  }

  lemma SweepingExchange(cfg: Config, o: QueryOptions, s: State, suspension: Suspension)
    requires SuspensionRight(cfg, o, s, suspension) && suspension.Exchange? && ArmedInRange(cfg, s)
    ensures var (t, control) := SweepThen(cfg, s, suspension); ControlRight(cfg, o, t, control)
  {
    SettledIsKept(cfg, s);
    SettleFrame(cfg, s, 0);
    FuturesKeepPending(cfg, o, s.futures, Settle(cfg, s).futures, suspension.pending);
  }

  lemma SweptWaits(cfg: Config, o: QueryOptions, s: State, suspension: Suspension)
    requires WellFormed(cfg) && StateInv(cfg, o, s) && AllSettled(s.futures) && ArmedInRange(cfg, s)
    requires suspension.Drain? || (suspension.Await? && suspension.future < |s.futures|)
    requires Sweep(cfg, s).committed.None?
    ensures ControlRight(cfg, o, Sweep(cfg, s).state, Checking(suspension))
  {
    SweepKeepsInv(cfg, o, s, 0);
    SweepFrame(cfg, s, 0);
    var t := Sweep(cfg, s).state;
    forall i | 0 <= i < |t.armed| ensures Waiting(t.futures, t.armed[i]) && t.armed[i].futures != [] {
      StillWaiting(cfg, o, t, t.armed[i]);
    }
  }

  lemma SweptCommitted(cfg: Config, o: QueryOptions, s: State, suspension: Suspension)
    requires WellFormed(cfg) && StateInv(cfg, o, s) && AllSettled(s.futures) && ArmedInRange(cfg, s)
    requires Sweep(cfg, s).committed.Some?
    ensures ControlRight(cfg, o, Sweep(cfg, s).state, SweptControl(Sweep(cfg, s), suspension))
  {
    SweepKeepsInv(cfg, o, s, 0);
    SweepFrame(cfg, s, 0);
    CommittedControl(cfg, o, Sweep(cfg, s), suspension);
  }

  lemma CommittedControl(cfg: Config, o: QueryOptions, r: SweepOutcome, suspension: Suspension)
    requires r.committed.Some? && FlagsAgree(r.state.futures)
    requires MayCommit(cfg, o, r.committed.value.0) && Verdict(cfg, o, r.committed.value.0) == Some(r.committed.value.1)
    ensures ControlRight(cfg, o, r.state, SweptControl(r, suspension))
  {
  }

  lemma SweepingWaits(cfg: Config, o: QueryOptions, s: State, suspension: Suspension)
    requires WellFormed(cfg) && StateInv(cfg, o, s) && ArmedInRange(cfg, s)
    requires suspension.Drain? || (suspension.Await? && suspension.future < |s.futures|)
    ensures var (t, control) := SweepThen(cfg, s, suspension); ControlRight(cfg, o, t, control)
  {
    SettleKeepsInv(cfg, o, s);
    var s1 := Settle(cfg, s);
    if Sweep(cfg, s1).committed.Some? {
      SweptCommitted(cfg, o, s1, suspension);
    } else {
      SweptWaits(cfg, o, s1, suspension);
    }
  }

  lemma FinishIsSound(cfg: Config, o: QueryOptions, s: State, p: Pending)
    requires PendingRight(cfg, o, s.futures, p)
    ensures Sound(cfg, o, p.origin, FinishResult(cfg, s, p))
  {
  }

  lemma SweepingKeepsInv(cfg: Config, o: QueryOptions, m: Machine)
    requires WellFormed(cfg) && Inv(cfg, o, m) && m.control.Sweeping? && Drivable(cfg, m)
    ensures Inv(cfg, o, Drive(cfg, m))
  {
    var suspension := m.control.suspension;
    SweepSettles(cfg, m.state, suspension);
    if suspension.Exchange? {
      SweepingExchange(cfg, o, m.state, suspension);
    } else {
      SweepingWaits(cfg, o, m.state, suspension);
    }
  }

  lemma DriverKeepsInv(cfg: Config, o: QueryOptions, m: Machine)
    requires WellFormed(cfg) && Inv(cfg, o, m) && Drivable(cfg, m)
    ensures Inv(cfg, o, Drive(cfg, m))
  {
    if m.control.Walking? {
      WalkingKeepsInv(cfg, o, m);
    } else if m.control.Sweeping? {
      SweepingKeepsInv(cfg, o, m);
    } else {
      PauseKeepsInv(cfg, o, m);
    }
  }

  lemma PauseKeepsInv(cfg: Config, o: QueryOptions, m: Machine)
    requires WellFormed(cfg) && Inv(cfg, o, m) && Drivable(cfg, m) && !m.control.Walking? && !m.control.Sweeping?
    ensures Inv(cfg, o, Drive(cfg, m))
  {
    match m.control
    case Checking(_) => CheckingKeepsInv(cfg, o, m);
    case Blocked(_) => BlockedKeepsInv(cfg, o, m);
    case Finishing(p) => FinishIsSound(cfg, o, m.state, p);
  }

  lemma CheckingKeepsInv(cfg: Config, o: QueryOptions, m: Machine)
    requires Inv(cfg, o, m) && m.control.Checking?
    ensures Inv(cfg, o, Drive(cfg, m))
  {
  }

  lemma WakeKeepsInv(cfg: Config, o: QueryOptions, s: State, wake: bool)
    requires StateInv(cfg, o, s)
    ensures StateInv(cfg, o, s.(wake := wake))
  {
  }

  lemma BlockedKeepsInv(cfg: Config, o: QueryOptions, m: Machine)
    requires Inv(cfg, o, m) && m.control.Blocked? && DriverEnabled(m)
    ensures Inv(cfg, o, Drive(cfg, m))
  {
    WakeKeepsInv(cfg, o, m.state, false);
  }

  // ---- completions and signals ----

  lemma CompletionKeepsFiles(cfg: Config, fs: seq<Future>, i: nat, responses: map<string, Option<Message>>,
                             transports: map<string, Transport>)
    requires FilesAgree(cfg, fs, responses, transports) && FlagsAgree(fs) && i < |fs| && !fs[i].done
    ensures var gs := fs[i := fs[i].(done := true)];
            FilesAgree(cfg, gs, responses, transports) && FlagsAgree(gs) && SameFutures(fs, gs)
  {
    var gs := fs[i := fs[i].(done := true)];
    forall tag | tag in responses ensures exists k :: 0 <= k < |gs| && gs[k].settled && gs[k].tag == tag {
      var k :| 0 <= k < |fs| && fs[k].settled && fs[k].tag == tag;
      assert gs[k].settled && gs[k].tag == tag;
    }
  }

  lemma SignalKeepsFiles(cfg: Config, fs: seq<Future>, i: nat, responses: map<string, Option<Message>>,
                         transports: map<string, Transport>)
    requires FilesAgree(cfg, fs, responses, transports) && FlagsAgree(fs) && i < |fs| && fs[i].done
    ensures var gs := fs[i := fs[i].(signalled := true)];
            FilesAgree(cfg, gs, responses, transports) && FlagsAgree(gs) && SameFutures(fs, gs)
  {
    var gs := fs[i := fs[i].(signalled := true)];
    forall tag | tag in responses ensures exists k :: 0 <= k < |gs| && gs[k].settled && gs[k].tag == tag {
      var k :| 0 <= k < |fs| && fs[k].settled && fs[k].tag == tag;
      assert gs[k].settled && gs[k].tag == tag;
    }
  }

  /** An environment step changes flags of futures, never a settled one, and the wake token. */
  ghost predicate Outside(s: State, t: State) {
    && SameFutures(s.futures, t.futures)
    && (forall i :: 0 <= i < |s.futures| ==> t.futures[i].settled == s.futures[i].settled)
    && t == s.(futures := t.futures, wake := t.wake)
  }

  lemma OutsideKeepsWaiting(s: State, t: State, a: Armed)
    requires Outside(s, t) && Waiting(s.futures, a)
    ensures Waiting(t.futures, a)
  {
    var x :| x in a.futures && x < |s.futures| && !s.futures[x].settled;
    assert x in a.futures && x < |t.futures| && !t.futures[x].settled;
  }

  lemma OutsideKeepsState(cfg: Config, o: QueryOptions, s: State, t: State)
    requires StateInv(cfg, o, s) && Outside(s, t) && FlagsAgree(t.futures)
    requires FilesAgree(cfg, t.futures, t.namedResponses, t.namedTransports)
    ensures StateInv(cfg, o, t)
  {
    ShapeKeepsInv(cfg, o, s, t);
  }

  lemma OutsideKeepsSuspension(cfg: Config, o: QueryOptions, s: State, t: State, suspension: Suspension)
    requires SuspensionRight(cfg, o, s, suspension) && Outside(s, t) && FlagsAgree(t.futures)
    requires !suspension.Exchange? ==> StateInv(cfg, o, t)
    ensures SuspensionRight(cfg, o, t, suspension)
  {
    if suspension.Exchange? {
      FuturesKeepPending(cfg, o, s.futures, t.futures, suspension.pending);
    }
  }

  /** The controls that still rely on the whole state. */
  predicate Live(control: Control) {
    || control.Walking?
    || ((control.Sweeping? || control.Checking? || control.Blocked?) && !control.suspension.Exchange?)
  }

  lemma LiveState(cfg: Config, o: QueryOptions, s: State, control: Control)
    requires ControlRight(cfg, o, s, control) && !control.Finished?
    ensures FlagsAgree(s.futures) && (Live(control) ==> StateInv(cfg, o, s))
  {
  }

  lemma OutsideKeepsControl(cfg: Config, o: QueryOptions, s: State, t: State, control: Control)
    requires ControlRight(cfg, o, s, control) && Outside(s, t)
    requires !control.Finished? ==> FlagsAgree(t.futures)
    requires Live(control) ==> StateInv(cfg, o, t)
    ensures ControlRight(cfg, o, t, control)
  {
    if control.Finishing? {
      FuturesKeepPending(cfg, o, s.futures, t.futures, control.pending);
    } else if control.Sweeping? || control.Checking? || control.Blocked? {
      OutsideKeepsSuspension(cfg, o, s, t, control.suspension);
      forall i | 0 <= i < |s.armed| && Waiting(s.futures, s.armed[i]) ensures Waiting(t.futures, t.armed[i]) {
        OutsideKeepsWaiting(s, t, s.armed[i]);
      }
    }
  }

  lemma CompletionKeepsInv(cfg: Config, o: QueryOptions, m: Machine, m': Machine, i: nat)
    requires Inv(cfg, o, m) && Completes(m, m', i)
    ensures Inv(cfg, o, m')
  {
    var s := m.state;
    if !m.control.Finished? {
      LiveState(cfg, o, s, m.control);
    }
    CompletionIsOutside(s, i);
    if Live(m.control) {
      CompletionKeepsFiles(cfg, s.futures, i, s.namedResponses, s.namedTransports);
      OutsideKeepsState(cfg, o, s, m'.state);
    }
    OutsideKeepsControl(cfg, o, s, m'.state, m.control);
  }

  lemma CompletionIsOutside(s: State, i: nat)
    requires i < |s.futures| && !s.futures[i].done
    ensures Outside(s, Complete(s, i)) && (FlagsAgree(s.futures) ==> FlagsAgree(Complete(s, i).futures))
  {
  }

  lemma SignalIsOutside(s: State, i: nat)
    requires i < |s.futures| && s.futures[i].done
    ensures Outside(s, Signal(s, i)) && (FlagsAgree(s.futures) ==> FlagsAgree(Signal(s, i).futures))
  {
  }

  lemma SignalKeepsInv(cfg: Config, o: QueryOptions, m: Machine, m': Machine, i: nat)
    requires Inv(cfg, o, m) && Signals(m, m', i)
    ensures Inv(cfg, o, m')
  {
    var s := m.state;
    if !m.control.Finished? {
      LiveState(cfg, o, s, m.control);
    }
    SignalIsOutside(s, i);
    if Live(m.control) {
      SignalKeepsFiles(cfg, s.futures, i, s.namedResponses, s.namedTransports);
      OutsideKeepsState(cfg, o, s, m'.state);
    }
    OutsideKeepsControl(cfg, o, s, m'.state, m.control);
  }

  lemma StepKeepsInv(cfg: Config, o: QueryOptions, m: Machine, m': Machine)
    requires WellFormed(cfg) && Inv(cfg, o, m) && Step(cfg, m, m')
    ensures Inv(cfg, o, m')
  {
    if DriverStep(cfg, m, m') {
      DriverKeepsInv(cfg, o, m);
    } else if i: nat :| Completes(m, m', i) {
      CompletionKeepsInv(cfg, o, m, m', i);
    } else {
      var i :| Signals(m, m', i);
      SignalKeepsInv(cfg, o, m, m', i);
    }
  }

  lemma {:induction false} RunKeepsInv(cfg: Config, driver: Driver, o: QueryOptions, run: seq<Machine>, i: nat)
    requires WellFormed(cfg) && Run(cfg, driver, o, run) && i < |run|
    ensures Inv(cfg, o, run[i])
  {
    if i == 0 {
      InitInv(cfg, driver, o);
    } else {
      RunKeepsInv(cfg, driver, o, run, i - 1);
      StepKeepsInv(cfg, o, run[i - 1], run[i]);
    }
  }
}
