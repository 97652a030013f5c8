/** The main results about the walker, for every run. */
module WalkTheorems {
  import opened Basics
  import opened WalkModel
  import opened WalkSpec
  import opened WalkMachine
  import opened WalkInvariant
  import opened WalkSteps
  import opened WalkRuleSteps
  import opened WalkRuns

  function Last(run: seq<Machine>): Machine
    requires |run| > 0
  {
    run[|run| - 1]
  }

  /** Race soundness. Whatever the order of completions and whichever driver runs, the walk ends
      at a rule that may end it, with the result of that rule's verdict on the sequential path:
      an ordinary rule only if no earlier rule had a verdict, a race rule only if no earlier
      ordinary rule had one. */
  lemma RunIsSound(cfg: Config, driver: Driver, o: QueryOptions, run: seq<Machine>)
    requires WellFormed(cfg) && Run(cfg, driver, o, run) && Last(run).control.Finished?
    ensures Sound(cfg, o, Last(run).control.origin, Last(run).control.result)
  {
    RunKeepsInv(cfg, driver, o, run, |run| - 1);
  }

  // ---- against the sequential walker ----

  /** Race rules carry final actions only (R.validateDNSRuleAction). */
  ghost predicate RacesAreFinal(cfg: Config) {
    forall i :: 0 <= i < |cfg.rules| && cfg.rules[i].race ==>
      !cfg.rules[i].action.SetOptions? && !cfg.rules[i].action.Evaluate?
  }

  ghost predicate FirstVerdict(cfg: Config, o: QueryOptions, c: nat) {
    && c <= |cfg.rules| && Verdict(cfg, o, c).Some?
    && forall k :: 0 <= k < c ==> Verdict(cfg, o, k).None?
  }

  /** The sequential walker stops at the first rule with a verdict. */
  lemma {:induction false} SequentialStopsFirst(cfg: Config, o: QueryOptions, c: nat, i: nat)
    requires RacesAreFinal(cfg) && FirstVerdict(cfg, o, c) && i <= c
    ensures Sequential(cfg, i, SpineAt(cfg, o, i)) == ResultOf(cfg, c, Verdict(cfg, o, c).value)
    decreases c - i
  {
    if i < c {
      assert Verdict(cfg, o, i).None?;
      var spine := SpineAt(cfg, o, i);
      assert SpineAt(cfg, o, i + 1) == Advance(cfg, i, spine);
      SequentialStopsFirst(cfg, o, c, i + 1);
    }
  }

  ghost predicate NoRaces(cfg: Config) {
    forall i: nat :: !cfg.RacesAt(i)
  }

  /** Without race rules a sound result is the blocking walker's. */
  lemma SoundIsSequential(cfg: Config, o: QueryOptions, origin: nat, result: Result)
    requires RacesAreFinal(cfg) && NoRaces(cfg) && Sound(cfg, o, origin, result)
    ensures result == Sequential(cfg, 0, Start(o))
  {
    assert FirstVerdict(cfg, o, origin);
    SequentialStopsFirst(cfg, o, origin, 0);
  }

  /** Without race rules both drivers return exactly what the blocking walker returns. */
  lemma OrderedRunIsSequential(cfg: Config, driver: Driver, o: QueryOptions, run: seq<Machine>)
    requires WellFormed(cfg) && RacesAreFinal(cfg) && NoRaces(cfg)
    requires Run(cfg, driver, o, run) && Last(run).control.Finished?
    ensures Last(run).control.result == Sequential(cfg, 0, Start(o))
  {
    RunIsSound(cfg, driver, o, run);
    SoundIsSequential(cfg, o, Last(run).control.origin, Last(run).control.result);
  }

  // ---- exchanges that complete inside their launch ----

  ghost predicate AllDone(futures: seq<Future>) {
    forall i :: 0 <= i < |futures| ==> futures[i].done
  }

  /** Every exchange completes before the driver takes its next step. */
  ghost predicate EagerRun(cfg: Config, driver: Driver, o: QueryOptions, run: seq<Machine>) {
    && Run(cfg, driver, o, run)
    && forall i :: 0 <= i < |run| - 1 && DriverStep(cfg, run[i], run[i + 1]) ==> AllDone(run[i].state.futures)
  }

  /** Nothing is ever left armed, and a commitment names the first rule with a verdict. */
  ghost predicate EagerRight(cfg: Config, o: QueryOptions, m: Machine) {
    match m.control
    case Walking(_) => m.state.armed == []
    case Sweeping(suspension) => m.state.armed == [] && EagerSuspension(cfg, o, suspension)
    case Checking(suspension) => m.state.armed == [] && EagerSuspension(cfg, o, suspension)
    case Blocked(suspension) => m.state.armed == [] && EagerSuspension(cfg, o, suspension)
    case Finishing(p) => FirstVerdict(cfg, o, p.origin)
    case Finished(origin, _) => FirstVerdict(cfg, o, origin)
  }

  ghost predicate EagerSuspension(cfg: Config, o: QueryOptions, suspension: Suspension) {
    suspension.Exchange? ==> FirstVerdict(cfg, o, suspension.pending.origin)
  }

  lemma NothingArmed(cfg: Config, o: QueryOptions, ruleIndex: nat, c: nat)
    requires Passed(cfg, o, ruleIndex, []) && c == ruleIndex && Verdict(cfg, o, c).Some?
    ensures FirstVerdict(cfg, o, c)
  {
    assert forall k :: !IsArmed([], k);
  }

  /** A lone ready rule is swept at once: it commits or is gone. */
  lemma LoneSweep(cfg: Config, s: State)
    requires |s.armed| == 1 && ArmedInRange(cfg, s) && Ready(s, s.armed[0])
    ensures var r := Sweep(cfg, s);
            r.state.armed == [] && (r.committed.Some? ==> r.committed.value.0 == s.armed[0].ruleIndex)
  {
    var t := Disarm(s, 0);
    assert t.armed == [];
    assert SweepFrom(cfg, t, 0) == SweepOutcome(t, None);
  }

  lemma {:induction false} DoneIsResolved(s: State, tags: seq<string>)
    requires AllDone(s.futures) && TagsAgree(s.futures, s.named)
    ensures UnresolvedTags(s, tags) == []
  {
    if tags != [] {
      DoneIsResolved(s, tags[1..]);
    }
  }

  /** The rule the outcome of a walk step names, if it names one. */
  predicate NamesOnly(outcome: WalkOutcome, i: nat) {
    && (outcome.Stop? ==> outcome.origin == i)
    && (outcome.Suspend? && outcome.suspension.Exchange? ==> outcome.suspension.pending.origin == i)
  }

  lemma EagerArm(cfg: Config, s: State)
    requires s.ruleIndex < |cfg.rules| && s.armed == [] && Unresolved(s, cfg.rules[s.ruleIndex]) == []
    ensures ArmedInRange(cfg, s)
    ensures var (t, outcome) := ArmRule(cfg, s); t.armed == [] && NamesOnly(outcome, s.ruleIndex)
  {
    LoneSweep(cfg, s.(armed := s.armed + [NewArm(cfg, s)]));
  }

  lemma EagerMatched(cfg: Config, s: State)
    requires s.ruleIndex < |cfg.rules| && s.armed == []
    ensures var (t, outcome) := WalkMatched(cfg, s); t.armed == [] && NamesOnly(outcome, s.ruleIndex)
  {
  }

  lemma NothingUnresolved(s: State, rule: Rule)
    requires AllDone(s.futures) && TagsAgree(s.futures, s.named) &&
             (s.anonymous.Some? ==> s.anonymous.value < |s.futures|)
    ensures Unresolved(s, rule) == []
  {
    DoneIsResolved(s, rule.tags);
  }

  lemma EagerRule(cfg: Config, s: State)
    requires s.ruleIndex < |cfg.rules| && s.armed == [] && ArmedInRange(cfg, s)
    requires AllDone(s.futures) && TagsAgree(s.futures, s.named) &&
             (s.anonymous.Some? ==> s.anonymous.value < |s.futures|)
    ensures var (t, outcome) := WalkRule(cfg, s); t.armed == [] && NamesOnly(outcome, s.ruleIndex)
  {
    var rule := cfg.rules[s.ruleIndex];
    var s1 := if rule.HasBindings() then Settle(cfg, s) else s;
    SettleFrame(cfg, s, 0);
    FuturesKeepTags(s.futures, s1.futures, s.named);
    NothingUnresolved(s1, rule);
    if rule.Races() {
      EagerArm(cfg, s1);
    } else {
      EagerMatched(cfg, s1);
    }
  }

  lemma EagerWalk(cfg: Config, s: State)
    requires s.ruleIndex <= |cfg.rules| && s.armed == [] && ArmedInRange(cfg, s)
    requires AllDone(s.futures) && TagsAgree(s.futures, s.named) &&
             (s.anonymous.Some? ==> s.anonymous.value < |s.futures|)
    ensures var (t, outcome) := Walk(cfg, s); t.armed == [] && NamesOnly(outcome, s.ruleIndex)
  {
    if s.ruleIndex < |cfg.rules| {
      EagerRule(cfg, s);
    }
  }

  lemma EagerWalking(cfg: Config, o: QueryOptions, m: Machine)
    requires WellFormed(cfg) && Inv(cfg, o, m) && EagerRight(cfg, o, m) && m.control.Walking?
    requires ArmedInRange(cfg, m.state) && AllDone(m.state.futures)
    ensures EagerRight(cfg, o, Drive(cfg, m))
  {
    var s := m.state;
    var (t, outcome) := Walk(cfg, s);
    EagerWalk(cfg, s);
    WalkRight(cfg, o, s);
    if outcome.Stop? || (outcome.Suspend? && outcome.suspension.Exchange?) {
      NothingArmed(cfg, o, s.ruleIndex, s.ruleIndex);
    }
  }

  lemma EagerStep(cfg: Config, o: QueryOptions, m: Machine, m': Machine)
    requires WellFormed(cfg) && Inv(cfg, o, m) && EagerRight(cfg, o, m) && Step(cfg, m, m')
    requires DriverStep(cfg, m, m') ==> AllDone(m.state.futures)
    ensures EagerRight(cfg, o, m')
  {
    if DriverStep(cfg, m, m') {
      if m.control.Walking? {
        EagerWalking(cfg, o, m);
      } else {
        SettleFrame(cfg, m.state, 0);
      }
    }
  }

  lemma {:induction false} EagerRunRight(cfg: Config, driver: Driver, o: QueryOptions, run: seq<Machine>, i: nat)
    requires WellFormed(cfg) && EagerRun(cfg, driver, o, run) && i < |run|
    ensures EagerRight(cfg, o, run[i])
  {
    if i > 0 {
      EagerRunRight(cfg, driver, o, run, i - 1);
      RunKeepsInv(cfg, driver, o, run, i - 1);
      assert Step(cfg, run[i - 1], run[i - 1 + 1]);
      EagerStep(cfg, o, run[i - 1], run[i]);
    }
  }

  /** If every exchange completes inside its launch, race and speculative flags make no difference. */
  lemma EagerRunIsSequential(cfg: Config, driver: Driver, o: QueryOptions, run: seq<Machine>)
    requires WellFormed(cfg) && RacesAreFinal(cfg)
    requires EagerRun(cfg, driver, o, run) && Last(run).control.Finished?
    ensures Last(run).control.result == Sequential(cfg, 0, Start(o))
  {
    RunIsSound(cfg, driver, o, run);
    EagerRunRight(cfg, driver, o, run, |run| - 1);
    SequentialStopsFirst(cfg, o, Last(run).control.origin, 0);
  }

  function EraseRule(rule: Rule): Rule {
    var action := match rule.action
      case Evaluate(server, tag, _, route) => Evaluate(server, tag, false, route)
      case Route(server, _, route) => Route(server, false, route)
      case other => other;
    rule.(race := false, action := action)
  }

  function EraseFlags(cfg: Config): Config {
    cfg.(rules := seq(|cfg.rules|, i requires 0 <= i < |cfg.rules| => EraseRule(cfg.rules[i])))
  }

  lemma EraseKeepsForm(cfg: Config)
    requires WellFormed(cfg)
    ensures WellFormed(EraseFlags(cfg)) && NoRaces(EraseFlags(cfg)) && RacesAreFinal(EraseFlags(cfg))
  {
    var erased := EraseFlags(cfg);
    assert forall i, tag :: DefinesTag(erased, i, tag) ==> DefinesTag(cfg, i, tag);
    forall j: nat | j < |erased.rules| ensures WellFormedRule(erased.rules[j]) {
      assert WellFormedRule(cfg.rules[j]);
    }
  }

  lemma {:induction false} EraseKeepsSequential(cfg: Config, i: nat, spine: Spine)
    requires i <= |cfg.rules|
    ensures Sequential(EraseFlags(cfg), i, spine) == Sequential(cfg, i, spine)
    decreases |cfg.rules| - i
  {
    if i < |cfg.rules| {
      var erased := EraseFlags(cfg);
      assert Hits(erased, i, spine) == Hits(cfg, i, spine);
      assert Decide(erased, i, spine) == Decide(cfg, i, spine);
      assert Advance(erased, i, spine) == Advance(cfg, i, spine);
      EraseKeepsSequential(cfg, i + 1, Advance(cfg, i, spine));
    }
  }

  /** Erasing the flags: an eager run and any run of the erased list end with the same result. */
  lemma EagerRunMatchesErased(cfg: Config, o: QueryOptions, driver: Driver, run: seq<Machine>, driver': Driver,
                              run': seq<Machine>)
    requires WellFormed(cfg) && RacesAreFinal(cfg)
    requires EagerRun(cfg, driver, o, run) && Last(run).control.Finished?
    requires Run(EraseFlags(cfg), driver', o, run') && Last(run').control.Finished?
    ensures Last(run).control.result == Last(run').control.result
  {
    EagerRunIsSequential(cfg, driver, o, run);
    EraseKeepsForm(cfg);
    OrderedRunIsSequential(EraseFlags(cfg), driver', o, run');
    EraseKeepsSequential(cfg, 0, Start(o));
  }
}
