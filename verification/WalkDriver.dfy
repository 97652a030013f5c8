/** The walker in its own form: an object whose methods settle, sweep, walk and resume in place.
    Each method is tied to the machine, so the drivers inherit the theorems about runs.
    `schedule` stands for the network. Before each step of a driver it may complete or signal as
    many futures as it likes, in any order. Only where the driver can do nothing but wait, and the
    network does nothing either, is it made to move. */
module WalkDriver {
  import opened Basics
  import opened WalkModel
  import opened WalkSpec
  import opened WalkMachine
  import opened WalkInvariant
  import opened WalkSteps
  import opened WalkRuleSteps
  import opened WalkRuns
  import opened WalkProgress
  import opened WalkTheorems

  // ---- the invariant and the measure, closed ----

  predicate Look(n: nat) {
    true
  }

  /** The machine is in order and at most `budget` steps from its end. The invariant and the rank
      stay closed inside the quantifier until Open looks in: the methods below only hand them on. */
  ghost predicate Within(cfg: Config, o: QueryOptions, m: Machine, budget: nat) {
    forall n :: Look(n) ==> Inv(cfg, o, m) && Rank(cfg, m) <= budget
  }

  lemma Open(cfg: Config, o: QueryOptions, m: Machine, budget: nat)
    requires Within(cfg, o, m, budget)
    ensures Inv(cfg, o, m) && Rank(cfg, m) <= budget
  {
    assert Look(0);
  }

  lemma Close(cfg: Config, o: QueryOptions, m: Machine) returns (budget: nat)
    requires Inv(cfg, o, m)
    ensures budget == Rank(cfg, m) && Within(cfg, o, m, budget)
  {
    budget := Rank(cfg, m);
  }

  lemma BeginWithin(cfg: Config, o: QueryOptions, driver: Driver) returns (budget: nat)
    ensures Within(cfg, o, Init(driver, o), budget)
  {
    InitInv(cfg, driver, o);
    budget := Close(cfg, o, Init(driver, o));
  }

  /** A completion or a signal lowers the measure. */
  lemma MoveWithin(cfg: Config, o: QueryOptions, m: Machine, m': Machine, i: nat, budget: nat) returns (left: nat)
    requires Within(cfg, o, m, budget) && (Completes(m, m', i) || Signals(m, m', i))
    ensures left < budget && Within(cfg, o, m', left)
  {
    Open(cfg, o, m, budget);
    if Completes(m, m', i) {
      CompletionKeepsInv(cfg, o, m, m', i);
    } else {
      SignalKeepsInv(cfg, o, m, m', i);
    }
    EnvironmentLowersRank(cfg, m, m', i);
    left := Close(cfg, o, m');
  }

  lemma DriveWithin(cfg: Config, o: QueryOptions, m: Machine, budget: nat) returns (left: nat)
    requires WellFormed(cfg) && Within(cfg, o, m, budget) && Drivable(cfg, m)
    ensures left < budget && Within(cfg, o, Drive(cfg, m), left)
  {
    Open(cfg, o, m, budget);
    DriverKeepsInv(cfg, o, m);
    DriverLowersRank(cfg, o, m);
    left := Close(cfg, o, Drive(cfg, m));
  }

  lemma WalkingIsDrivable(cfg: Config, o: QueryOptions, m: Machine, budget: nat)
    requires Within(cfg, o, m, budget) && m.control.Walking?
    ensures ArmedInRange(cfg, m.state)
  {
    Open(cfg, o, m, budget);
    ArmedAreInRange(cfg, o, m.state);
  }

  lemma SweepingIsDrivable(cfg: Config, o: QueryOptions, m: Machine, budget: nat)
    requires Within(cfg, o, m, budget) && m.control.Sweeping?
    ensures ArmedInRange(cfg, m.state)
  {
    Open(cfg, o, m, budget);
    if !m.control.suspension.Exchange? {
      ArmedAreInRange(cfg, o, m.state);
    }
  }

  lemma BlockedHasOpen(cfg: Config, o: QueryOptions, m: Machine, budget: nat)
    requires Within(cfg, o, m, budget) && m.control.Blocked? && !m.state.wake
    ensures exists k :: 0 <= k < |m.state.futures| && !m.state.futures[k].signalled
  {
    Open(cfg, o, m, budget);
    BlockedStateIsOwed(cfg, o, m);
    OwedIsOpen(m.state, m.control.suspension);
  }

  lemma PendingInRange(cfg: Config, o: QueryOptions, m: Machine, budget: nat)
    requires Within(cfg, o, m, budget) && m.control.Finishing? && m.control.pending.future.Some?
    ensures m.control.pending.future.value < |m.state.futures|
  {
    Open(cfg, o, m, budget);
  }

  lemma FinishedIsSound(cfg: Config, o: QueryOptions, m: Machine, budget: nat)
    requires Within(cfg, o, m, budget)
    ensures m.control.Finished? ==> Sound(cfg, o, m.control.origin, m.control.result)
    ensures m.control.Finishing? ==>
            Sound(cfg, o, m.control.pending.origin, FinishResult(cfg, m.state, m.control.pending))
  {
    Open(cfg, o, m, budget);
    if m.control.Finishing? {
      FinishIsSound(cfg, o, m.state, m.control.pending);
    }
  }

  /** The futures the network moves at each of its turns: a future listed completes, or signals if
      it is complete; others listed are left alone. */
  type Schedule = nat -> seq<nat>

  class RuleWalk {
    var ruleIndex: nat
    var options: QueryOptions
    var anonymous: Option<nat>
    var named: map<string, nat>
    var namedResponses: map<string, Option<Message>>
    var namedTransports: map<string, Transport>
    var futures: seq<Future>
    var armed: seq<Armed>
    var terminal: Option<nat>
    var terminalIndex: nat
    var wake: bool
    var clock: nat

    function Model(): State
      reads this
    {
      State(ruleIndex, options, anonymous, named, namedResponses, namedTransports,
            futures, armed, terminal, terminalIndex, wake)
    }

    constructor (callerOptions: QueryOptions)
      ensures Model() == Init(Synchronous, callerOptions).state
    {
      ruleIndex, options, anonymous := 0, callerOptions, None;
      named, namedResponses, namedTransports := map[], map[], map[];
      futures, armed, terminal, terminalIndex, wake, clock := [], [], None, 0, false, 0;
    }

    /** settleDNSFutures */
    method SettleFutures(cfg: Config)
      modifies this
      ensures Model() == Settle(cfg, old(Model()))
    {
      var i := 0;
      while i < |futures|
        invariant i <= |futures|
        invariant SettleFrom(cfg, Model(), i) == Settle(cfg, old(Model()))
      {
        var f := futures[i];
        if !f.settled && f.done {
          futures := futures[i := f.(settled := true)];
          if f.tag != "" {
            namedResponses := namedResponses[f.tag := View(cfg, f)];
            namedTransports := namedTransports[f.tag := f.transport];
          }
        }
        i := i + 1;
      }
    }

    method IsReady(a: Armed) returns (ready: bool)
      ensures ready == Ready(Model(), a)
    {
      var i := 0;
      ready := true;
      while i < |a.futures|
        invariant i <= |a.futures|
        invariant forall k :: 0 <= k < i ==> Resolved(Model(), a.futures[k])
      {
        if !Resolved(Model(), a.futures[i]) {
          return false;
        }
        i := i + 1;
      }
    }

    /** sweepArmedDNSRules */
    method SweepArmed(cfg: Config) returns (committed: Option<(nat, Commitment)>)
      requires ArmedInRange(cfg, Model())
      modifies this
      ensures SweepOutcome(Model(), committed) == Sweep(cfg, old(Model()))
    {
      var i := 0;
      while i < |armed|
        invariant i <= |armed| && ArmedInRange(cfg, Model())
        invariant SweepFrom(cfg, Model(), i) == Sweep(cfg, old(Model()))
        decreases |armed| - i
      {
        var a := armed[i];
        var ready := IsReady(a);
        if !ready {
          i := i + 1;
        } else {
          armed := armed[..i] + armed[i + 1..];
          if RuleMatches(cfg, Model(), cfg.rules[a.ruleIndex], a.anonymous) {
            var c := ArmedCommitment(cfg, Model(), a);
            if c.Some? {
              return Some((a.ruleIndex, c.value));
            }
          }
        }
      }
      committed := None;
    }

    /** launchDNSEvaluate */
    method LaunchEvaluate(tag: string, isTerminal: bool, transport: Transport, queryOptions: QueryOptions)
      returns (id: nat)
      modifies this`futures
      ensures id == old(|futures|)
      ensures Model() == Launch(old(Model()), tag, isTerminal, transport, queryOptions)
    {
      id := |futures|;
      futures := futures + [Future(ruleIndex, tag, isTerminal, transport, queryOptions, false, false, false)];
    }

    method Arm(cfg: Config) returns (outcome: WalkOutcome)
      requires ruleIndex < |cfg.rules| && ArmedInRange(cfg, Model())
      modifies this
      ensures (Model(), outcome) == ArmRule(cfg, old(Model()))
    {
      var rule := cfg.rules[ruleIndex];
      var pending := Unresolved(Model(), rule);
      armed := armed + [Armed(ruleIndex, pending, if rule.bindsAnonymous then anonymous else None, options)];
      outcome := Continue;
      if pending == [] {
        var committed := SweepArmed(cfg);
        if committed.Some? {
          var (origin, c) := committed.value;
          match c {
            case Final(result) => return Stop(origin, result);
            case Query(transport, queryOptions) =>
              armed := [];
              return Suspend(Exchange(Pending(origin, transport, queryOptions, None)));
          }
        }
      }
      ruleIndex := ruleIndex + 1;
    }

    method EvaluateRule(cfg: Config) returns (outcome: WalkOutcome)
      requires ruleIndex < |cfg.rules| && cfg.rules[ruleIndex].action.Evaluate?
      modifies this
      ensures (Model(), outcome) == WalkEvaluate(cfg, old(Model()))
    {
      var action := cfg.rules[ruleIndex].action;
      if action.server !in cfg.transports {
        if action.tag == "" {
          anonymous := None;
        }
      } else {
        if !action.speculative && armed != [] {
          return Suspend(Drain);
        }
        var id := LaunchEvaluate(action.tag, false, cfg.transports[action.server],
                                 ApplyRouteOptions(options, action.route));
        if action.tag == "" {
          anonymous := Some(id);
        } else {
          named := named[action.tag := id];
        }
      }
      ruleIndex := ruleIndex + 1;
      outcome := Continue;
    }

    method RespondRule(cfg: Config) returns (outcome: WalkOutcome)
      requires ruleIndex < |cfg.rules|
      ensures (Model(), outcome) == WalkRespond(cfg, Model())
    {
      var rule := cfg.rules[ruleIndex];
      if armed != [] {
        return Suspend(Drain);
      }
      if rule.respondTag != "" {
        var transport := if rule.respondTag in namedTransports then Some(namedTransports[rule.respondTag]) else None;
        var response := if rule.respondTag in namedResponses then namedResponses[rule.respondTag] else None;
        return Stop(ruleIndex, RespondWith(response, transport));
      }
      if !rule.HasBindings() && anonymous.Some? && !Resolved(Model(), anonymous.value) {
        return Suspend(Await(anonymous.value));
      }
      outcome := Stop(ruleIndex, RespondWith(ViewAt(cfg, Model(), anonymous), TransportAt(Model(), anonymous)));
    }

    method RouteRule(cfg: Config) returns (outcome: WalkOutcome)
      requires ruleIndex < |cfg.rules| && cfg.rules[ruleIndex].action.Route?
      modifies this
      ensures (Model(), outcome) == WalkRoute(cfg, old(Model()))
    {
      var action := cfg.rules[ruleIndex].action;
      match ResolveRoute(cfg, action.server, action.route, options) {
        case RouteMissing => ruleIndex := ruleIndex + 1; return Continue;
        case RouteSkipped => ruleIndex := ruleIndex + 1; return Continue;
        case RouteResolved(transport, queryOptions) =>
          if armed != [] {
            if action.speculative && terminal.None? {
              var id := LaunchEvaluate("", true, transport, queryOptions);
              terminal := Some(id);
              terminalIndex := ruleIndex;
            }
            return Suspend(Drain);
          }
          if terminal.Some? && terminalIndex == ruleIndex && terminal.value < |futures| {
            var f := futures[terminal.value];
            return Suspend(Exchange(Pending(ruleIndex, f.transport, f.options, terminal)));
          }
          return Suspend(Exchange(Pending(ruleIndex, transport, queryOptions, None)));
      }
    }

    method MatchedRule(cfg: Config) returns (outcome: WalkOutcome)
      requires ruleIndex < |cfg.rules|
      modifies this
      ensures (Model(), outcome) == WalkMatched(cfg, old(Model()))
    {
      match cfg.rules[ruleIndex].action {
        case SetOptions(route) =>
          options := ApplyRouteOptions(options, route);
          ruleIndex := ruleIndex + 1;
          outcome := Continue;
        case Evaluate(_, _, _, _) => outcome := EvaluateRule(cfg);
        case Respond => outcome := RespondRule(cfg);
        case Route(_, _, _) => outcome := RouteRule(cfg);
        case Reject(how) =>
          outcome := if armed != [] then Suspend(Drain) else Stop(ruleIndex, RejectResult(cfg, how));
        case Predefined(response) =>
          outcome := if armed != [] then Suspend(Drain) else Stop(ruleIndex, Result(Some(response), None, None, None));
      }
    }

    /** One turn of the loop in walkDNSRules, or what follows its last turn. */
    method WalkOne(cfg: Config) returns (outcome: WalkOutcome)
      requires ArmedInRange(cfg, Model())
      modifies this
      ensures (Model(), outcome) == Walk(cfg, old(Model()))
    {
      if ruleIndex >= |cfg.rules| {
        return WalkEnd(cfg, Model()).1;
      }
      var rule := cfg.rules[ruleIndex];
      if rule.HasBindings() {
        SettleFrame(cfg, Model(), 0);
        SettleFutures(cfg);
        if rule.race {
          outcome := Arm(cfg);
          return;
        }
      }
      var unresolved := Unresolved(Model(), rule);
      if unresolved != [] {
        return Suspend(Await(unresolved[0]));
      }
      if !RuleMatches(cfg, Model(), rule, anonymous) {
        ruleIndex := ruleIndex + 1;
        return Continue;
      }
      outcome := MatchedRule(cfg);
    }

    // ---- the drivers ----

    ghost function At(driver: Driver, control: Control): Machine
      reads this
    {
      Machine(driver, Model(), control)
    }

    predicate IsOpen(i: nat)
      reads this
    {
      i < |futures| && !(futures[i].done && futures[i].signalled)
    }

    /** The network completes or signals one future, if that is open. */
    method Interfere(cfg: Config, pick: nat, ghost o: QueryOptions, ghost driver: Driver, ghost control: Control,
                     ghost budget: nat)
      returns (ghost left: nat)
      requires Within(cfg, o, At(driver, control), budget)
      modifies `futures, `wake
      ensures left <= budget && Within(cfg, o, At(driver, control), left)
      ensures old(IsOpen(pick)) ==> left < budget
      ensures !old(IsOpen(pick)) ==> futures == old(futures) && wake == old(wake)
    {
      ghost var m := At(driver, control);
      left := budget;
      if pick < |futures| {
        var f := futures[pick];
        if !f.done {
          futures := futures[pick := f.(done := true)];
          left := MoveWithin(cfg, o, m, At(driver, control), pick, budget);
        } else if !f.signalled {
          futures := futures[pick := f.(signalled := true)];
          wake := true;
          left := MoveWithin(cfg, o, m, At(driver, control), pick, budget);
        }
      }
    }

    /** The network's turn: every move the schedule lists for it, in order. */
    method Network(cfg: Config, schedule: Schedule, ghost o: QueryOptions, ghost driver: Driver,
                   ghost control: Control, ghost budget: nat)
      returns (moved: bool, ghost left: nat)
      requires Within(cfg, o, At(driver, control), budget)
      modifies `futures, `wake, `clock
      ensures left <= budget && Within(cfg, o, At(driver, control), left)
      ensures if moved then left < budget else futures == old(futures) && wake == old(wake)
    {
      var picks := schedule(clock);
      clock := clock + 1;
      moved, left := false, budget;
      var i := 0;
      while i < |picks|
        invariant i <= |picks| && left <= budget && Within(cfg, o, At(driver, control), left)
        invariant if moved then left < budget else futures == old(futures) && wake == old(wake)
      {
        moved := moved || IsOpen(picks[i]);
        left := Interfere(cfg, picks[i], o, driver, control, left);
        i := i + 1;
      }
    }

    /** A future that has yet to signal. */
    method FindOpen() returns (i: nat)
      requires exists k :: 0 <= k < |futures| && !futures[k].signalled
      ensures i < |futures| && !futures[i].signalled
    {
      i := 0;
      while futures[i].signalled
        invariant i < |futures| && forall k :: 0 <= k < i ==> futures[k].signalled
        decreases |futures| - i
      {
        i := i + 1;
      }
    }

    /** Blocks on the wake channel and takes its token. Where the network is idle as well, some
        future that has yet to signal moves. */
    method AwaitWake(cfg: Config, schedule: Schedule, suspension: Suspension, ghost o: QueryOptions,
                     ghost driver: Driver, ghost budget: nat)
      returns (ghost left: nat)
      requires WellFormed(cfg) && Within(cfg, o, At(driver, Blocked(suspension)), budget)
      modifies `futures, `wake, `clock
      ensures left < budget && Within(cfg, o, At(driver, Sweeping(suspension)), left)
    {
      var moved;
      moved, left := Network(cfg, schedule, o, driver, Blocked(suspension), budget);
      while !wake
        invariant left <= budget && Within(cfg, o, At(driver, Blocked(suspension)), left)
        decreases left, moved
      {
        if !moved {
          BlockedHasOpen(cfg, o, At(driver, Blocked(suspension)), left);
          var i := FindOpen();
          left := Interfere(cfg, i, o, driver, Blocked(suspension), left);
        }
        moved, left := Network(cfg, schedule, o, driver, Blocked(suspension), left);
      }
      left := DriveWithin(cfg, o, At(driver, Blocked(suspension)), left);
      wake := false;
    }

    /** One turn of the walk, after one of the network. */
    method WalkTurn(cfg: Config, schedule: Schedule, first: bool, ghost o: QueryOptions, ghost driver: Driver,
                    ghost budget: nat)
      returns (outcome: WalkOutcome, ghost left: nat)
      requires WellFormed(cfg) && Within(cfg, o, At(driver, Walking(first)), budget)
      modifies this
      ensures left < budget && Within(cfg, o, At(driver, AfterWalk(driver, first, outcome)), left)
    {
      var moved;
      moved, left := Network(cfg, schedule, o, driver, Walking(first), budget);
      WalkingIsDrivable(cfg, o, At(driver, Walking(first)), left);
      left := DriveWithin(cfg, o, At(driver, Walking(first)), left);
      outcome := WalkOne(cfg);
    }

    /** walkDNSRules, under interference. */
    method WalkRules(cfg: Config, schedule: Schedule, first: bool, ghost o: QueryOptions, ghost driver: Driver,
                     ghost budget: nat)
      returns (outcome: WalkOutcome, ghost left: nat)
      requires WellFormed(cfg) && Within(cfg, o, At(driver, Walking(first)), budget)
      modifies this
      ensures !outcome.Continue? && left < budget && Within(cfg, o, At(driver, AfterWalk(driver, first, outcome)), left)
    {
      outcome, left := WalkTurn(cfg, schedule, first, o, driver, budget);
      while outcome.Continue?
        invariant left < budget && Within(cfg, o, At(driver, AfterWalk(driver, first, outcome)), left)
        decreases left
      {
        outcome, left := WalkTurn(cfg, schedule, first, o, driver, left);
      }
    }

    /** finishPendingExchange. Where the network is idle while it waits, the pending future moves. */
    method FinishPending(cfg: Config, schedule: Schedule, p: Pending, ghost o: QueryOptions, ghost driver: Driver,
                         ghost budget: nat)
      returns (result: Result)
      requires WellFormed(cfg) && Within(cfg, o, At(driver, Finishing(p)), budget)
      modifies `futures, `wake, `clock
      ensures Sound(cfg, o, p.origin, result)
    {
      ghost var left := budget;
      if p.future.Some? {
        PendingInRange(cfg, o, At(driver, Finishing(p)), left);
        while !futures[p.future.value].done
          invariant Within(cfg, o, At(driver, Finishing(p)), left) && p.future.value < |futures|
          decreases left
        {
          var moved;
          moved, left := Network(cfg, schedule, o, driver, Finishing(p), left);
          if !moved {
            left := Interfere(cfg, p.future.value, o, driver, Finishing(p), left);
          }
          PendingInRange(cfg, o, At(driver, Finishing(p)), left);
        }
      }
      FinishedIsSound(cfg, o, At(driver, Finishing(p)), left);
      result := FinishResult(cfg, Model(), p);
    }

    /** Settle, then sweep, in one step, after a turn of the network. */
    method SettleAndSweep(cfg: Config, schedule: Schedule, suspension: Suspension, ghost o: QueryOptions,
                          ghost driver: Driver, ghost budget: nat)
      returns (control: Control, ghost left: nat)
      requires WellFormed(cfg) && Within(cfg, o, At(driver, Sweeping(suspension)), budget)
      modifies this
      ensures control.Checking? ==> control.suspension == suspension
      ensures control.Checking? || control.Finishing? || control.Finished?
      ensures left < budget && Within(cfg, o, At(driver, control), left)
    {
      var moved;
      moved, left := Network(cfg, schedule, o, driver, Sweeping(suspension), budget);
      SweepingIsDrivable(cfg, o, At(driver, Sweeping(suspension)), left);
      left := DriveWithin(cfg, o, At(driver, Sweeping(suspension)), left);
      SettleFrame(cfg, Model(), 0);
      SettleFutures(cfg);
      var committed := SweepArmed(cfg);
      control := SweptControl(SweepOutcome(Model(), committed), suspension);
    }

    /** Past the sweep and a turn of the network: block, or walk on. */
    method Proceed(cfg: Config, schedule: Schedule, suspension: Suspension, ghost o: QueryOptions,
                   ghost driver: Driver, ghost budget: nat)
      returns (control: Control, ghost left: nat)
      requires WellFormed(cfg) && Within(cfg, o, At(driver, Checking(suspension)), budget)
      modifies this
      ensures control.Sweeping? || control.Finishing? || control.Finished?
      ensures left < budget && Within(cfg, o, At(driver, control), left)
    {
      var moved;
      moved, left := Network(cfg, schedule, o, driver, Checking(suspension), budget);
      left := DriveWithin(cfg, o, At(driver, Checking(suspension)), left);
      if suspension.Exchange? {
        control := Finishing(suspension.pending);
      } else if Blocks(Model(), suspension) {
        left := AwaitWake(cfg, schedule, suspension, o, driver, left);
        control := Sweeping(suspension);
      } else {
        var outcome;
        outcome, left := WalkRules(cfg, schedule, false, o, driver, left);
        control := if outcome.Stop? then Finished(outcome.origin, outcome.result) else Sweeping(outcome.suspension);
      }
    }

    /** resumeExchangeWithRules */
    method Resume(cfg: Config, schedule: Schedule, suspended: Suspension, ghost o: QueryOptions, ghost driver: Driver,
                  ghost budget: nat)
      returns (origin: nat, result: Result)
      requires WellFormed(cfg) && Within(cfg, o, At(driver, Sweeping(suspended)), budget)
      modifies this
      ensures Sound(cfg, o, origin, result)
    {
      var control := Sweeping(suspended);
      ghost var left := budget;
      while control.Sweeping?
        invariant control.Sweeping? || control.Finishing? || control.Finished?
        invariant Within(cfg, o, At(driver, control), left)
        decreases left
      {
        control, left := SettleAndSweep(cfg, schedule, control.suspension, o, driver, left);
        if control.Checking? {
          control, left := Proceed(cfg, schedule, control.suspension, o, driver, left);
        }
      }
      if control.Finished? {
        FinishedIsSound(cfg, o, At(driver, control), left);
        return control.origin, control.result;
      }
      origin := control.pending.origin;
      result := FinishPending(cfg, schedule, control.pending, o, driver, left);
    }
  }

  /** exchangeWithRules: for every schedule it returns, and what it returns is sound. */
  method ExchangeWithRules(cfg: Config, o: QueryOptions, schedule: Schedule) returns (origin: nat, result: Result)
    requires WellFormed(cfg)
    ensures Sound(cfg, o, origin, result)
    ensures NoRaces(cfg) && RacesAreFinal(cfg) ==> result == Sequential(cfg, 0, Start(o))
  {
    var walk := new RuleWalk(o);
    ghost var left := BeginWithin(cfg, o, Synchronous);
    var outcome;
    outcome, left := walk.WalkRules(cfg, schedule, true, o, Synchronous, left);
    if outcome.Stop? {
      FinishedIsSound(cfg, o, walk.At(Synchronous, Finished(outcome.origin, outcome.result)), left);
      origin, result := outcome.origin, outcome.result;
    } else {
      origin, result := walk.Resume(cfg, schedule, outcome.suspension, o, Synchronous, left);
    }
    if NoRaces(cfg) && RacesAreFinal(cfg) {
      SoundIsSequential(cfg, o, origin, result);
    }
  }

  /** exchangeWithRulesAsync: the result handed to the callback. */
  method ExchangeWithRulesAsync(cfg: Config, o: QueryOptions, schedule: Schedule) returns (origin: nat, result: Result)
    requires WellFormed(cfg)
    ensures Sound(cfg, o, origin, result)
    ensures NoRaces(cfg) && RacesAreFinal(cfg) ==> result == Sequential(cfg, 0, Start(o))
  {
    var walk := new RuleWalk(o);
    ghost var left := BeginWithin(cfg, o, Asynchronous);
    var outcome;
    outcome, left := walk.WalkRules(cfg, schedule, true, o, Asynchronous, left);
    if outcome.Stop? {
      FinishedIsSound(cfg, o, walk.At(Asynchronous, Finished(outcome.origin, outcome.result)), left);
      origin, result := outcome.origin, outcome.result;
    } else if outcome.suspension.Exchange? && outcome.suspension.pending.future.None? {
      var p := outcome.suspension.pending;
      FinishedIsSound(cfg, o, walk.At(Asynchronous, Finishing(p)), left);
      origin, result := p.origin, ExchangeResult(p.transport, cfg.Ask(p.origin, p.transport, p.options));
    } else {
      origin, result := walk.Resume(cfg, schedule, outcome.suspension, o, Asynchronous, left);
    }
    if NoRaces(cfg) && RacesAreFinal(cfg) {
      SoundIsSequential(cfg, o, origin, result);
    }
  }
}
