/** The walker as a state machine. The driver (walk, sweep, check, block, finish) and the
    environment (a future completes, then signals the wake channel) take turns in any order.
    One driver step is one rule of the walk, or one settle-and-sweep. */
module WalkMachine {
  import opened Basics
  import opened WalkModel

  /** An evaluate in flight. `origin` is the rule that launched it; its outcome is what
      `Config.Ask` says, visible once `done`. `signalled` means the wake send has happened. */
  datatype Future = Future(
    origin: nat,
    tag: string,
    terminal: bool,
    transport: Transport,
    options: QueryOptions,
    done: bool,
    signalled: bool,
    settled: bool)

  datatype Armed = Armed(
    ruleIndex: nat,
    futures: seq<nat>,
    anonymous: Option<nat>,
    options: QueryOptions)

  /** dnsRuleWalkState; futures are named by their position in `futures`. */
  datatype State = State(
    ruleIndex: nat,
    options: QueryOptions,
    anonymous: Option<nat>,
    named: map<string, nat>,
    namedResponses: map<string, Option<Message>>,
    namedTransports: map<string, Transport>,
    futures: seq<Future>,
    armed: seq<Armed>,
    terminal: Option<nat>,
    terminalIndex: nat,
    wake: bool)

  datatype Pending = Pending(origin: nat, transport: Transport, options: QueryOptions, future: Option<nat>)

  datatype Suspension = Await(future: nat) | Drain | Exchange(pending: Pending)

  /** `Stop` and `Finished` also say which rule ended the walk. */
  datatype WalkOutcome = Continue | Stop(origin: nat, result: Result) | Suspend(suspension: Suspension)

  function FutureOutcome(cfg: Config, f: Future): Outcome {
    cfg.Ask(f.origin, f.transport, f.options)
  }

  /** dnsEvaluatedFuture.view */
  function View(cfg: Config, f: Future): Option<Message> {
    if f.done then Answer(FutureOutcome(cfg, f)) else None
  }

  predicate Resolved(s: State, f: nat) {
    f < |s.futures| && s.futures[f].done
  }

  function ViewAt(cfg: Config, s: State, f: Option<nat>): Option<Message> {
    if f.Some? && f.value < |s.futures| then View(cfg, s.futures[f.value]) else None
  }

  function TransportAt(s: State, f: Option<nat>): Option<Transport> {
    if f.Some? && f.value < |s.futures| then Some(s.futures[f.value].transport) else None
  }

  function NamedResponse(s: State, tag: string): Option<Message> {
    if tag in s.namedResponses then s.namedResponses[tag] else None
  }

  function NamedTransport(s: State, tag: string): Option<Transport> {
    if tag in s.namedTransports then Some(s.namedTransports[tag]) else None
  }

  function BoundResponses(s: State, tags: seq<string>): (r: seq<Option<Message>>)
    ensures |r| == |tags|
    ensures forall i :: 0 <= i < |tags| ==> r[i] == NamedResponse(s, tags[i])
  {
    seq(|tags|, i requires 0 <= i < |tags| => NamedResponse(s, tags[i]))
  }

  predicate RuleMatches(cfg: Config, s: State, rule: Rule, anonymous: Option<nat>) {
    rule.matches(BoundResponses(s, rule.tags), if rule.bindsAnonymous then ViewAt(cfg, s, anonymous) else None)
  }

  // ---- settleDNSFutures ----

  function SettleOne(cfg: Config, s: State, i: nat): State
    requires i < |s.futures|
  {
    var f := s.futures[i];
    if f.settled || !f.done then s
    else
      var s1 := s.(futures := s.futures[i := f.(settled := true)]);
      if f.tag == "" then s1
      else s1.(namedResponses := s.namedResponses[f.tag := View(cfg, f)],
               namedTransports := s.namedTransports[f.tag := f.transport])
  }

  function SettleFrom(cfg: Config, s: State, i: nat): State
    requires i <= |s.futures|
    decreases |s.futures| - i
  {
    if i == |s.futures| then s else SettleFrom(cfg, SettleOne(cfg, s, i), i + 1)
  }

  function Settle(cfg: Config, s: State): State {
    SettleFrom(cfg, s, 0)
  }

  // ---- sweepArmedDNSRules ----

  predicate Ready(s: State, a: Armed) {
    forall i :: 0 <= i < |a.futures| ==> Resolved(s, a.futures[i])
  }

  function ArmedCommitment(cfg: Config, s: State, a: Armed): Option<Commitment>
    requires a.ruleIndex < |cfg.rules|
  {
    var rule := cfg.rules[a.ruleIndex];
    match rule.action
    case Respond =>
      if rule.respondTag != "" then
        Some(Final(RespondWith(NamedResponse(s, rule.respondTag), NamedTransport(s, rule.respondTag))))
      else
        var source := if a.anonymous.Some? then a.anonymous else s.anonymous;
        Some(Final(RespondWith(ViewAt(cfg, s, source), TransportAt(s, source))))
    case Route(server, _, route) =>
      var status := ResolveRoute(cfg, server, route, a.options);
      if status.RouteResolved? then Some(Query(status.transport, status.options)) else None
    case Reject(how) => Some(Final(RejectResult(cfg, how)))
    case Predefined(response) => Some(Final(Result(Some(response), None, None, None)))
    case _ => None
  }

  predicate ArmedInRange(cfg: Config, s: State) {
    forall i :: 0 <= i < |s.armed| ==> s.armed[i].ruleIndex < |cfg.rules|
  }

  function Disarm(s: State, i: nat): State
    requires i < |s.armed|
  {
    s.(armed := s.armed[..i] + s.armed[i + 1..])
  }

  datatype SweepOutcome = SweepOutcome(state: State, committed: Option<(nat, Commitment)>)

  function SweepFrom(cfg: Config, s: State, i: nat): SweepOutcome
    requires i <= |s.armed| && ArmedInRange(cfg, s)
    decreases |s.armed| - i
  {
    if i == |s.armed| then SweepOutcome(s, None)
    else
      var a := s.armed[i];
      if !Ready(s, a) then SweepFrom(cfg, s, i + 1)
      else
        var s1 := Disarm(s, i);
        var c := if RuleMatches(cfg, s1, cfg.rules[a.ruleIndex], a.anonymous)
                 then ArmedCommitment(cfg, s1, a) else None;
        if c.Some? then SweepOutcome(s1, Some((a.ruleIndex, c.value)))
        else SweepFrom(cfg, s1, i)
  }

  function Sweep(cfg: Config, s: State): SweepOutcome
    requires ArmedInRange(cfg, s)
  {
    SweepFrom(cfg, s, 0)
  }

  // ---- walkDNSRules, one rule ----

  function Launch(s: State, tag: string, terminal: bool, transport: Transport, options: QueryOptions): State {
    s.(futures := s.futures + [Future(s.ruleIndex, tag, terminal, transport, options, false, false, false)])
  }

  function Next(s: State): State {
    s.(ruleIndex := s.ruleIndex + 1)
  }

  /** The bound futures that have not resolved, tags in order, then the anonymous one. */
  function Unresolved(s: State, rule: Rule): seq<nat> {
    UnresolvedTags(s, rule.tags) +
    (if rule.bindsAnonymous && s.anonymous.Some? && !Resolved(s, s.anonymous.value) then [s.anonymous.value] else [])
  }

  function UnresolvedTags(s: State, tags: seq<string>): seq<nat> {
    if tags == [] then []
    else (if tags[0] in s.named && !Resolved(s, s.named[tags[0]]) then [s.named[tags[0]]] else [])
         + UnresolvedTags(s, tags[1..])
  }

  /** A swept commitment: an answer at hand ends the walk, a query suspends it. */
  function Committed(s: State, origin: nat, c: Commitment): (State, WalkOutcome) {
    match c
    case Final(result) => (s, Stop(origin, result))
    case Query(transport, options) =>
      (s.(armed := []), Suspend(Exchange(Pending(origin, transport, options, None))))
  }

  function ArmRule(cfg: Config, s: State): (State, WalkOutcome)
    requires s.ruleIndex < |cfg.rules| && ArmedInRange(cfg, s)
  {
    var rule := cfg.rules[s.ruleIndex];
    var pending := Unresolved(s, rule);
    var armed := Armed(s.ruleIndex, pending, if rule.bindsAnonymous then s.anonymous else None, s.options);
    var s1 := s.(armed := s.armed + [armed]);
    if pending != [] then (Next(s1), Continue)
    else
      var swept := Sweep(cfg, s1);
      if swept.committed.Some? then Committed(swept.state, swept.committed.value.0, swept.committed.value.1)
      else (Next(swept.state), Continue)
  }

  function WalkEvaluate(cfg: Config, s: State): (State, WalkOutcome)
    requires s.ruleIndex < |cfg.rules| && cfg.rules[s.ruleIndex].action.Evaluate?
  {
    var action := cfg.rules[s.ruleIndex].action;
    if action.server !in cfg.transports then
      (Next(if action.tag == "" then s.(anonymous := None) else s), Continue)
    else if !action.speculative && s.armed != [] then (s, Suspend(Drain))
    else
      var s1 := Launch(s, action.tag, false, cfg.transports[action.server], ApplyRouteOptions(s.options, action.route));
      var id := |s.futures|;
      (Next(if action.tag == "" then s1.(anonymous := Some(id)) else s1.(named := s1.named[action.tag := id])),
       Continue)
  }

  function WalkRespond(cfg: Config, s: State): (State, WalkOutcome)
    requires s.ruleIndex < |cfg.rules|
  {
    var rule := cfg.rules[s.ruleIndex];
    if s.armed != [] then (s, Suspend(Drain))
    else if rule.respondTag != "" then
      (s, Stop(s.ruleIndex, RespondWith(NamedResponse(s, rule.respondTag), NamedTransport(s, rule.respondTag))))
    else if !rule.HasBindings() && s.anonymous.Some? && !Resolved(s, s.anonymous.value) then
      (s, Suspend(Await(s.anonymous.value)))
    else (s, Stop(s.ruleIndex, RespondWith(ViewAt(cfg, s, s.anonymous), TransportAt(s, s.anonymous))))
  }

  function WalkRoute(cfg: Config, s: State): (State, WalkOutcome)
    requires s.ruleIndex < |cfg.rules| && cfg.rules[s.ruleIndex].action.Route?
  {
    var action := cfg.rules[s.ruleIndex].action;
    var status := ResolveRoute(cfg, action.server, action.route, s.options);
    if !status.RouteResolved? then (Next(s), Continue)
    else if s.armed != [] then
      if action.speculative && s.terminal.None? then
        (Launch(s, "", true, status.transport, status.options)
         .(terminal := Some(|s.futures|), terminalIndex := s.ruleIndex),
         Suspend(Drain))
      else (s, Suspend(Drain))
    else if s.terminal.Some? && s.terminalIndex == s.ruleIndex && s.terminal.value < |s.futures| then
      var f := s.futures[s.terminal.value];
      (s, Suspend(Exchange(Pending(s.ruleIndex, f.transport, f.options, s.terminal))))
    else (s, Suspend(Exchange(Pending(s.ruleIndex, status.transport, status.options, None))))
  }

  function WalkMatched(cfg: Config, s: State): (State, WalkOutcome)
    requires s.ruleIndex < |cfg.rules|
  {
    match cfg.rules[s.ruleIndex].action
    case SetOptions(route) => (Next(s.(options := ApplyRouteOptions(s.options, route))), Continue)
    case Evaluate(_, _, _, _) => WalkEvaluate(cfg, s)
    case Respond => WalkRespond(cfg, s)
    case Route(_, _, _) => WalkRoute(cfg, s)
    case Reject(how) =>
      if s.armed != [] then (s, Suspend(Drain)) else (s, Stop(s.ruleIndex, RejectResult(cfg, how)))
    case Predefined(response) =>
      if s.armed != [] then (s, Suspend(Drain)) else (s, Stop(s.ruleIndex, Result(Some(response), None, None, None)))
  }

  function WalkRule(cfg: Config, s: State): (State, WalkOutcome)
    requires s.ruleIndex < |cfg.rules| && ArmedInRange(cfg, s)
  {
    var rule := cfg.rules[s.ruleIndex];
    var s1 := if rule.HasBindings() then Settle(cfg, s) else s;
    SettleFrame(cfg, s, 0);
    if rule.Races() then ArmRule(cfg, s1)
    else
      var unresolved := Unresolved(s1, rule);
      if unresolved != [] then (s1, Suspend(Await(unresolved[0])))
      else if !RuleMatches(cfg, s1, rule, s1.anonymous) then (Next(s1), Continue)
      else WalkMatched(cfg, s1)
  }

  /** Past the last rule. */
  function WalkEnd(cfg: Config, s: State): (State, WalkOutcome) {
    if s.armed != [] then (s, Suspend(Drain))
    else (s, Suspend(Exchange(Pending(|cfg.rules|, cfg.defaultTransport, s.options, None))))
  }

  /** What settling leaves alone. */
  lemma SettleFrame(cfg: Config, s: State, i: nat)
    requires i <= |s.futures|
    ensures var t := SettleFrom(cfg, s, i);
            && |t.futures| == |s.futures|
            && t == s.(futures := t.futures, namedResponses := t.namedResponses, namedTransports := t.namedTransports)
            && (forall k :: 0 <= k < |s.futures| ==>
                  t.futures[k] == s.futures[k].(settled := s.futures[k].settled || (i <= k && s.futures[k].done)))
    decreases |s.futures| - i
  {
    if i < |s.futures| {
      SettleFrame(cfg, SettleOne(cfg, s, i), i + 1);
    }
  }

  // ---- the drivers ----

  datatype Driver = Synchronous | Asynchronous

  datatype Control =
    | Walking(first: bool)
    | Sweeping(suspension: Suspension)
    | Checking(suspension: Suspension)
    | Blocked(suspension: Suspension)
    | Finishing(pending: Pending)
    | Finished(origin: nat, result: Result)

  datatype Machine = Machine(driver: Driver, state: State, control: Control)

  function Init(driver: Driver, options: QueryOptions): Machine {
    Machine(driver,
            State(0, options, None, map[], map[], map[], [], [], None, 0, false),
            Walking(true))
  }

  /** Where a driver goes once the walk has returned. The asynchronous driver sends a
      pending exchange of its first walk at once; everything else goes through the resume loop. */
  function AfterWalk(driver: Driver, first: bool, outcome: WalkOutcome): Control {
    match outcome
    case Continue => Walking(first)
    case Stop(origin, result) => Finished(origin, result)
    case Suspend(suspension) =>
      if driver.Asynchronous? && first && suspension.Exchange? && suspension.pending.future.None?
      then Finishing(suspension.pending)
      else Sweeping(suspension)
  }

  predicate DriverEnabled(m: Machine) {
    match m.control
    case Blocked(_) => m.state.wake
    case Finishing(p) => p.future.Some? ==> Resolved(m.state, p.future.value)
    case Finished(_, _) => false
    case _ => true
  }

  predicate Blocks(s: State, suspension: Suspension) {
    || (suspension.Await? && !Resolved(s, suspension.future))
    || (suspension.Drain? && s.armed != [])
  }

  function Walk(cfg: Config, s: State): (State, WalkOutcome)
    requires ArmedInRange(cfg, s)
  {
    if s.ruleIndex < |cfg.rules| then WalkRule(cfg, s) else WalkEnd(cfg, s)
  }

  function SweptControl(swept: SweepOutcome, suspension: Suspension): Control {
    match swept.committed
    case Some((origin, Final(result))) => Finished(origin, result)
    case Some((origin, Query(transport, options))) => Finishing(Pending(origin, transport, options, None))
    case None => Checking(suspension)
  }

  function SweepThen(cfg: Config, s: State, suspension: Suspension): (State, Control)
    requires ArmedInRange(cfg, s)
  {
    SettleFrame(cfg, s, 0);
    var swept := Sweep(cfg, Settle(cfg, s));
    (swept.state, SweptControl(swept, suspension))
  }

  function FinishResult(cfg: Config, s: State, p: Pending): Result {
    if p.future.Some? && p.future.value < |s.futures| then
      var f := s.futures[p.future.value];
      ExchangeResult(f.transport, FutureOutcome(cfg, f))
    else ExchangeResult(p.transport, cfg.Ask(p.origin, p.transport, p.options))
  }

  predicate Drivable(cfg: Config, m: Machine) {
    DriverEnabled(m) && (m.control.Walking? || m.control.Sweeping? ==> ArmedInRange(cfg, m.state))
  }

  function Drive(cfg: Config, m: Machine): Machine
    requires Drivable(cfg, m)
  {
    match m.control
    case Walking(first) =>
      var (s, outcome) := Walk(cfg, m.state);
      m.(state := s, control := AfterWalk(m.driver, first, outcome))
    case Sweeping(suspension) =>
      var (s, control) := SweepThen(cfg, m.state, suspension);
      m.(state := s, control := control)
    case Checking(suspension) =>
      m.(control := if suspension.Exchange? then Finishing(suspension.pending)
                    else if Blocks(m.state, suspension) then Blocked(suspension)
                    else Walking(false))
    case Blocked(suspension) => m.(state := m.state.(wake := false), control := Sweeping(suspension))
    case Finishing(p) => m.(control := Finished(p.origin, FinishResult(cfg, m.state, p)))
  }

  /** A future's response arrives: `done` is closed. */
  function Complete(s: State, i: nat): State
    requires i < |s.futures|
  {
    s.(futures := s.futures[i := s.futures[i].(done := true)])
  }

  /** Its callback then offers a token to the one-slot wake channel. */
  function Signal(s: State, i: nat): State
    requires i < |s.futures|
  {
    s.(futures := s.futures[i := s.futures[i].(signalled := true)], wake := true)
  }

  ghost predicate Completes(m: Machine, m': Machine, i: nat) {
    && i < |m.state.futures|
    && !m.state.futures[i].done
    && m' == m.(state := Complete(m.state, i))
  }

  ghost predicate Signals(m: Machine, m': Machine, i: nat) {
    && i < |m.state.futures|
    && m.state.futures[i].done
    && !m.state.futures[i].signalled
    && m' == m.(state := Signal(m.state, i))
  }

  ghost predicate DriverStep(cfg: Config, m: Machine, m': Machine) {
    Drivable(cfg, m) && m' == Drive(cfg, m)
  }

  ghost predicate Step(cfg: Config, m: Machine, m': Machine) {
    || DriverStep(cfg, m, m')
    || (exists i :: Completes(m, m', i))
    || (exists i :: Signals(m, m', i))
  }

  /** A run from a query's first rule, under any order of completions. */
  ghost predicate Run(cfg: Config, driver: Driver, options: QueryOptions, run: seq<Machine>) {
    && |run| > 0
    && run[0] == Init(driver, options)
    && forall i :: 0 <= i < |run| - 1 ==> Step(cfg, run[i], run[i + 1])
  }
}
