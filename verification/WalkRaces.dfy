/** Which race rule wins: a sweep commits the first armed rule, by index, that is ready and has a
    verdict, and commits none exactly when there is none. */
module WalkRaces {
  import opened Basics
  import opened WalkModel
  import opened WalkSpec
  import opened WalkMachine
  import opened WalkInvariant
  import opened WalkSteps
  import opened WalkRuleSteps
  import opened WalkRuns
  import opened WalkTheorems
  import opened WalkHistory

  /** The armed rule can be decided now, and its verdict is to end the walk. */
  ghost predicate Wins(cfg: Config, o: QueryOptions, s: State, a: Armed) {
    Ready(s, a) && a.ruleIndex <= |cfg.rules| && Verdict(cfg, o, a.ruleIndex).Some?
  }

  /** Which of the armed rules win. */
  ghost function Winners(cfg: Config, o: QueryOptions, s: State): (w: seq<bool>)
    ensures |w| == |s.armed| && forall k :: 0 <= k < |w| ==> w[k] == Wins(cfg, o, s, s.armed[k])
  {
    seq(|s.armed|, k requires 0 <= k < |s.armed| => Wins(cfg, o, s, s.armed[k]))
  }

  /** The k-th is the first that holds. */
  predicate IsFirst(w: seq<bool>, k: nat) {
    k < |w| && w[k] && forall l :: 0 <= l < k ==> !w[l]
  }

  /** What is committed is the first winner's rule; nothing is, exactly when there is no winner. */
  ghost predicate PicksFirst(w: seq<bool>, armed: seq<Armed>, committed: Option<(nat, Commitment)>) {
    && |w| == |armed|
    && if committed.None? then forall l :: 0 <= l < |w| ==> !w[l]
       else exists k: nat :: IsFirst(w, k) && committed.value.0 == armed[k].ruleIndex
  }

  ghost predicate SweptFirst(cfg: Config, o: QueryOptions, s: State, committed: Option<(nat, Commitment)>) {
    PicksFirst(Winners(cfg, o, s), s.armed, committed)
  }

  /** Leaving out one that does not hold changes nothing. */
  lemma DropKeepsFirst(w: seq<bool>, armed: seq<Armed>, i: nat, committed: Option<(nat, Commitment)>)
    requires |w| == |armed| && i < |w| && !w[i]
    requires PicksFirst(w[..i] + w[i + 1..], armed[..i] + armed[i + 1..], committed)
    ensures PicksFirst(w, armed, committed)
  {
    var v := w[..i] + w[i + 1..];
    assert forall l :: 0 <= l < i ==> v[l] == w[l];
    assert forall l :: i < l < |w| ==> w[l] == v[l - 1];
    if committed.Some? {
      var k: nat :| IsFirst(v, k) && committed.value.0 == (armed[..i] + armed[i + 1..])[k].ruleIndex;
      var n: nat := if k < i then k else k + 1;
      assert IsFirst(w, n) && armed[n] == (armed[..i] + armed[i + 1..])[k];
    }
  }

  lemma DisarmDropsWinner(cfg: Config, o: QueryOptions, s: State, i: nat)
    requires i < |s.armed| && ArmedInRange(cfg, s)
    ensures var w := Winners(cfg, o, s); Winners(cfg, o, Disarm(s, i)) == w[..i] + w[i + 1..]
  {
    DisarmReadsSame(cfg, s, i);
  }

  /** What the sweep would commit for the armed rule is the rule's verdict. */
  ghost predicate Decides(cfg: Config, o: QueryOptions, s: State, a: Armed)
    requires a.ruleIndex < |cfg.rules|
  {
    Verdict(cfg, o, a.ruleIndex) ==
    if RuleMatches(cfg, s, cfg.rules[a.ruleIndex], a.anonymous) then ArmedCommitment(cfg, s, a) else None
  }

  lemma WinnerIsTaken(cfg: Config, o: QueryOptions, s: State, i: nat)
    requires i < |s.armed| && ArmedInRange(cfg, s) && Ready(s, s.armed[i]) &&
             Verdict(cfg, o, s.armed[i].ruleIndex).Some?
    requires Decides(cfg, o, s, s.armed[i])
    requires forall k :: 0 <= k < i ==> !Ready(s, s.armed[k])
    ensures SweptFirst(cfg, o, s, SweepFrom(cfg, s, i).committed)
  {
    DisarmReadsSame(cfg, s, i);
    assert IsFirst(Winners(cfg, o, s), i);
  }

  lemma LoserIsDropped(cfg: Config, o: QueryOptions, s: State, i: nat)
    requires i < |s.armed| && ArmedInRange(cfg, s) && Ready(s, s.armed[i]) &&
             Verdict(cfg, o, s.armed[i].ruleIndex).None?
    requires Decides(cfg, o, s, s.armed[i]) && ArmedInRange(cfg, Disarm(s, i))
    requires SweptFirst(cfg, o, Disarm(s, i), SweepFrom(cfg, Disarm(s, i), i).committed)
    ensures SweptFirst(cfg, o, s, SweepFrom(cfg, s, i).committed)
  {
    DisarmReadsSame(cfg, s, i);
    DisarmDropsWinner(cfg, o, s, i);
    DropKeepsFirst(Winners(cfg, o, s), s.armed, i, SweepFrom(cfg, Disarm(s, i), i).committed);
  }

  lemma ReadyIsDecided(cfg: Config, o: QueryOptions, s: State, i: nat)
    requires WellFormed(cfg) && StateInv(cfg, o, s) && AllSettled(s.futures) && i < |s.armed| && Ready(s, s.armed[i])
    ensures s.armed[i].ruleIndex < |cfg.rules| && Decides(cfg, o, s, s.armed[i])
  {
    ReadyDecides(cfg, o, s, s.armed[i]);
  }

  lemma LoserCanGo(cfg: Config, o: QueryOptions, s: State, i: nat)
    requires WellFormed(cfg) && StateInv(cfg, o, s) && AllSettled(s.futures) && i < |s.armed| && ArmedInRange(cfg, s)
    requires s.armed[i].ruleIndex < |cfg.rules| && Verdict(cfg, o, s.armed[i].ruleIndex).None?
    requires forall k :: 0 <= k < i ==> !Ready(s, s.armed[k])
    ensures var t := Disarm(s, i);
            && StateInv(cfg, o, t) && AllSettled(t.futures) && |t.armed| == |s.armed| - 1 && ArmedInRange(cfg, t)
            && (forall k :: 0 <= k < i ==> !Ready(t, t.armed[k]))
  {
    DisarmReadsSame(cfg, s, i);
    DisarmKeepsInv(cfg, o, s, i);
  }

  lemma {:induction false} SweepPicksFirst(cfg: Config, o: QueryOptions, s: State, i: nat)
    requires WellFormed(cfg) && StateInv(cfg, o, s) && AllSettled(s.futures) && i <= |s.armed| && ArmedInRange(cfg, s)
    requires forall k :: 0 <= k < i ==> !Ready(s, s.armed[k])
    ensures SweptFirst(cfg, o, s, SweepFrom(cfg, s, i).committed)
    decreases |s.armed| - i, 1
  {
    if i == |s.armed| {
      NoneReady(cfg, o, s);
    } else if Ready(s, s.armed[i]) {
      SweepPicksReady(cfg, o, s, i);
    } else {
      SweepPicksFirst(cfg, o, s, i + 1);
    }
  }

  lemma NoneReady(cfg: Config, o: QueryOptions, s: State)
    requires ArmedInRange(cfg, s) && forall k :: 0 <= k < |s.armed| ==> !Ready(s, s.armed[k])
    ensures SweptFirst(cfg, o, s, SweepFrom(cfg, s, |s.armed|).committed)
  {
  }

  lemma {:induction false} SweepPicksReady(cfg: Config, o: QueryOptions, s: State, i: nat)
    requires WellFormed(cfg) && StateInv(cfg, o, s) && AllSettled(s.futures) && i < |s.armed| && ArmedInRange(cfg, s)
    requires Ready(s, s.armed[i]) && forall k :: 0 <= k < i ==> !Ready(s, s.armed[k])
    ensures SweptFirst(cfg, o, s, SweepFrom(cfg, s, i).committed)
    decreases |s.armed| - i, 0
  {
    ReadyIsDecided(cfg, o, s, i);
    if Verdict(cfg, o, s.armed[i].ruleIndex).Some? {
      WinnerIsTaken(cfg, o, s, i);
    } else {
      LoserCanGo(cfg, o, s, i);
      SweepPicksFirst(cfg, o, Disarm(s, i), i);
      LoserIsDropped(cfg, o, s, i);
    }
  }

  /** The sweep right after arming a rule that waits for nothing picks the same way. */
  lemma ArmPicksFirst(cfg: Config, o: QueryOptions, s: State)
    requires WellFormed(cfg) && StateInv(cfg, o, s) && AllSettled(s.futures) && cfg.RacesAt(s.ruleIndex) &&
             ArmedInRange(cfg, s)
    ensures var s1 := s.(armed := s.armed + [NewArm(cfg, s)]);
            ArmedInRange(cfg, s1) && SweptFirst(cfg, o, s1, Sweep(cfg, s1).committed)
  {
    var s1 := s.(armed := s.armed + [NewArm(cfg, s)]);
    ArmKeepsInv(cfg, o, s);
    SweepIgnoresIndex(cfg, s1, 0);
    SweepPicksFirst(cfg, o, Next(s1), 0);
    assert Winners(cfg, o, Next(s1)) == Winners(cfg, o, s1);
  }

  /** In every run, a sweep of the resume loop that commits picks the lowest of the armed rules
      that are ready and have a verdict; one that does not commit leaves no such rule. */
  lemma LowestReadyRaceWins(cfg: Config, driver: Driver, o: QueryOptions, run: seq<Machine>, i: nat)
    requires WellFormed(cfg) && Run(cfg, driver, o, run) && i < |run|
    requires run[i].control.Sweeping? && Drivable(cfg, run[i])
    ensures var s := Settle(cfg, run[i].state);
            && SortedByRule(s.armed) && ArmedInRange(cfg, s)
            && SweptFirst(cfg, o, s, Sweep(cfg, s).committed)
            && Drive(cfg, run[i]).control == SweptControl(Sweep(cfg, s), run[i].control.suspension)
  {
    RunKeepsInv(cfg, driver, o, run, i);
    SettleFrame(cfg, run[i].state, 0);
    if Live(run[i].control) {
      LiveState(cfg, o, run[i].state, run[i].control);
      SettleKeepsInv(cfg, o, run[i].state);
      SweepPicksFirst(cfg, o, Settle(cfg, run[i].state), 0);
    } else {
      NothingArmed(cfg, o, Settle(cfg, run[i].state));
    }
  }

  predicate SortedByRule(armed: seq<Armed>) {
    forall k, l :: 0 <= k < l < |armed| ==> armed[k].ruleIndex < armed[l].ruleIndex
  }

  lemma NothingArmed(cfg: Config, o: QueryOptions, s: State)
    requires s.armed == []
    ensures ArmedInRange(cfg, s) && SweptFirst(cfg, o, s, Sweep(cfg, s).committed)
  {
  }

  /** The next rule races, and once the futures are settled it waits for nothing. */
  predicate ArmsAtOnce(cfg: Config, s: State) {
    var t := Settle(cfg, s);
    cfg.RacesAt(t.ruleIndex) && NewArm(cfg, t).futures == []
  }

  /** In every run, a walk that arms a rule that waits for nothing sweeps with the rule armed last.
      It too picks the lowest of the armed rules, the new one included, that are ready and have a
      verdict, ends the walk with it, and goes on to the next rule if there is none. */
  lemma LowestReadyRaceWinsAtOnce(cfg: Config, driver: Driver, o: QueryOptions, run: seq<Machine>, i: nat)
    requires WellFormed(cfg) && Run(cfg, driver, o, run) && i < |run|
    requires run[i].control.Walking? && Drivable(cfg, run[i]) && ArmsAtOnce(cfg, run[i].state)
    ensures var s := Settle(cfg, run[i].state);
            var s1 := s.(armed := s.armed + [NewArm(cfg, s)]);
            && SortedByRule(s1.armed) && ArmedInRange(cfg, s1)
            && SweptFirst(cfg, o, s1, Sweep(cfg, s1).committed)
            && var swept := Sweep(cfg, s1);
               Walk(cfg, run[i].state) ==
               if swept.committed.Some? then Committed(swept.state, swept.committed.value.0, swept.committed.value.1)
               else (Next(swept.state), Continue)
  {
    RunKeepsInv(cfg, driver, o, run, i);
    var s := run[i].state;
    SettleFrame(cfg, s, 0);
    SettleKeepsInv(cfg, o, s);
    ArmPicksFirst(cfg, o, Settle(cfg, s));
    NewArmIsLast(cfg, o, Settle(cfg, s));
    WalkArms(cfg, s);
  }

  lemma NewArmIsLast(cfg: Config, o: QueryOptions, s: State)
    requires StateInv(cfg, o, s) && s.ruleIndex < |cfg.rules|
    ensures SortedByRule(s.armed + [NewArm(cfg, s)])
  {
  }

  lemma WalkArms(cfg: Config, s: State)
    requires ArmedInRange(cfg, s) && ArmsAtOnce(cfg, s)
    requires Settle(cfg, s).ruleIndex == s.ruleIndex && ArmedInRange(cfg, Settle(cfg, s))
    ensures var t := Settle(cfg, s);
            var s1 := t.(armed := t.armed + [NewArm(cfg, t)]);
            && ArmedInRange(cfg, s1)
            && var swept := Sweep(cfg, s1);
               Walk(cfg, s) ==
               if swept.committed.Some? then Committed(swept.state, swept.committed.value.0, swept.committed.value.1)
               else (Next(swept.state), Continue)
  {
  }
}
