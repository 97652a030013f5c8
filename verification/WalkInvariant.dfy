/** What every reachable walk state keeps, stated against the reference semantics. */
module WalkInvariant {
  import opened Basics
  import opened WalkModel
  import opened WalkSpec
  import opened WalkMachine

  // ---- facts about the reference path ----

  lemma {:induction false} NamedWasDefined(cfg: Config, o: QueryOptions, i: nat, tag: string)
    requires i <= |cfg.rules| && tag in SpineAt(cfg, o, i).named
    ensures exists e: nat :: e < i && DefinesTag(cfg, e, tag)
  {
    if !cfg.RacesAt(i - 1) && DefinesTag(cfg, i - 1, tag) {
    } else {
      NamedWasDefined(cfg, o, i - 1, tag);
    }
  }

  /** The response a rule binds by tag is fixed by the time the walk reaches the rule. */
  lemma {:induction false} BoundTagIsFixed(cfg: Config, o: QueryOptions, j: nat, k: nat, tag: string)
    requires WellFormed(cfg) && j < |cfg.rules| && j <= k <= |cfg.rules| && tag in cfg.rules[j].tags
    ensures Named(SpineAt(cfg, o, k), tag) == Named(SpineAt(cfg, o, j), tag)
  {
    if j < k {
      BoundTagIsFixed(cfg, o, j, k - 1, tag);
      assert !DefinesTag(cfg, k - 1, tag);
      assert WellFormedRule(cfg.rules[j]);
    }
  }

  // ---- the invariant, part by part; each part names only what it reads ----

  /** Future `f` is the evaluate `e` in flight. */
  ghost predicate Realizes(cfg: Config, futures: seq<Future>, f: Option<nat>, e: Option<Evaluated>) {
    || (f.None? && e.None?)
    || (f.Some? && e.Some? && f.value < |futures|
        && futures[f.value].transport == e.value.transport
        && FutureOutcome(cfg, futures[f.value]) == e.value.outcome)
  }

  ghost predicate NamedRealize(cfg: Config, futures: seq<Future>, named: map<string, nat>,
                               reference: map<string, Evaluated>) {
    && named.Keys == reference.Keys
    && forall tag :: tag in named ==> Realizes(cfg, futures, Some(named[tag]), Some(reference[tag]))
  }

  ghost predicate OnSpine(cfg: Config, s: State, spine: Spine) {
    && s.options == spine.options
    && Realizes(cfg, s.futures, s.anonymous, spine.anonymous)
    && NamedRealize(cfg, s.futures, s.named, spine.named)
  }

  /** Tags name futures one to one. */
  ghost predicate TagsAgree(futures: seq<Future>, named: map<string, nat>) {
    && (forall tag :: tag in named ==> tag != "" && named[tag] < |futures| && futures[named[tag]].tag == tag)
    && (forall i :: 0 <= i < |futures| && futures[i].tag != "" ==>
          futures[i].tag in named && named[futures[i].tag] == i)
  }

  /** A response is on file exactly for the settled tagged futures. */
  ghost predicate FilesAgree(cfg: Config, futures: seq<Future>,
                             responses: map<string, Option<Message>>, transports: map<string, Transport>) {
    && (forall tag :: tag in responses ==>
          exists i :: 0 <= i < |futures| && futures[i].settled && futures[i].tag == tag)
    && responses.Keys == transports.Keys
    && (forall i :: 0 <= i < |futures| && futures[i].settled && futures[i].tag != "" ==>
          FiledAs(cfg, futures[i], responses, transports))
  }

  ghost predicate FiledAs(cfg: Config, f: Future, responses: map<string, Option<Message>>,
                          transports: map<string, Transport>) {
    && f.tag in responses && responses[f.tag] == View(cfg, f)
    && f.tag in transports && transports[f.tag] == f.transport
  }

  ghost predicate FlagsAgree(futures: seq<Future>) {
    forall i :: 0 <= i < |futures| ==>
      (futures[i].settled ==> futures[i].done) && (futures[i].signalled ==> futures[i].done)
  }

  /** Future `f` has been settled, or the armed rule is waiting for it. */
  ghost predicate Covered(futures: seq<Future>, a: Armed, f: nat) {
    f < |futures| && (futures[f].settled || f in a.futures)
  }

  /** An armed rule remembers the walk as it was when the rule was reached. */
  ghost predicate ArmedRight(cfg: Config, o: QueryOptions, futures: seq<Future>, named: map<string, nat>,
                             anonymous: Option<nat>, a: Armed) {
    && cfg.RacesAt(a.ruleIndex)
    && var rule := cfg.rules[a.ruleIndex];
    && var spine := SpineAt(cfg, o, a.ruleIndex);
    && a.options == spine.options
    && (forall x :: x in a.futures ==> x < |futures|)
    && (rule.bindsAnonymous ==> Realizes(cfg, futures, a.anonymous, spine.anonymous))
    && (rule.bindsAnonymous && a.anonymous.Some? ==> Covered(futures, a, a.anonymous.value))
    && (forall tag :: tag in rule.tags && tag in named ==> Covered(futures, a, named[tag]))
    && (rule.action.Respond? && rule.respondTag == "" && a.anonymous.None? ==> a.futures == [] && anonymous.None?)
  }

  ghost predicate AllArmedRight(cfg: Config, o: QueryOptions, futures: seq<Future>, named: map<string, nat>,
                                anonymous: Option<nat>, armed: seq<Armed>) {
    forall i :: 0 <= i < |armed| ==> ArmedRight(cfg, o, futures, named, anonymous, armed[i])
  }

  /** Armed rules are strictly sorted by index and lie behind the walk. */
  ghost predicate ArmedSorted(armed: seq<Armed>, ruleIndex: nat) {
    && (forall i, j :: 0 <= i < j < |armed| ==> armed[i].ruleIndex < armed[j].ruleIndex)
    && (forall i :: 0 <= i < |armed| ==> armed[i].ruleIndex < ruleIndex)
  }

  ghost predicate IsArmed(armed: seq<Armed>, k: nat) {
    exists i :: 0 <= i < |armed| && armed[i].ruleIndex == k
  }

  /** Every rule behind the walk has no verdict, unless it is a race rule still armed. */
  ghost predicate Passed(cfg: Config, o: QueryOptions, ruleIndex: nat, armed: seq<Armed>) {
    && ruleIndex <= |cfg.rules|
    && forall k: nat :: k < ruleIndex && Verdict(cfg, o, k).Some? ==> cfg.RacesAt(k) && IsArmed(armed, k)
  }

  /** Launch order is rule order, one launch per rule; only the rule under the walk may already
      have launched, and then the launch is its own speculative query. */
  ghost predicate LaunchedOnce(futures: seq<Future>, ruleIndex: nat, terminal: Option<nat>) {
    && (forall i, j :: 0 <= i < j < |futures| ==> futures[i].origin < futures[j].origin)
    && (forall i :: 0 <= i < |futures| ==>
          futures[i].origin < ruleIndex || (terminal == Some(i) && futures[i].origin == ruleIndex))
    && (forall i :: 0 <= i < |futures| ==> (futures[i].terminal <==> terminal == Some(i)))
  }

  ghost predicate TerminalRight(cfg: Config, o: QueryOptions, futures: seq<Future>, ruleIndex: nat,
                                terminal: Option<nat>, terminalIndex: nat) {
    terminal.Some? ==>
      && terminal.value < |futures|
      && var f := futures[terminal.value];
      && f.origin == terminalIndex == ruleIndex < |cfg.rules|
      && f.tag == ""
      && !cfg.RacesAt(ruleIndex)
      && Verdict(cfg, o, ruleIndex) == Some(Query(f.transport, f.options))
  }

  ghost predicate StateInv(cfg: Config, o: QueryOptions, s: State) {
    && s.ruleIndex <= |cfg.rules|
    && OnSpine(cfg, s, SpineAt(cfg, o, s.ruleIndex))
    && TagsAgree(s.futures, s.named)
    && FilesAgree(cfg, s.futures, s.namedResponses, s.namedTransports)
    && FlagsAgree(s.futures)
    && AllArmedRight(cfg, o, s.futures, s.named, s.anonymous, s.armed)
    && ArmedSorted(s.armed, s.ruleIndex)
    && Passed(cfg, o, s.ruleIndex, s.armed)
    && LaunchedOnce(s.futures, s.ruleIndex, s.terminal)
    && TerminalRight(cfg, o, s.futures, s.ruleIndex, s.terminal, s.terminalIndex)
  }

  ghost predicate AllSettled(futures: seq<Future>) {
    forall i :: 0 <= i < |futures| && futures[i].done ==> futures[i].settled
  }

  ghost predicate NoIdleArms(armed: seq<Armed>) {
    forall i :: 0 <= i < |armed| ==> armed[i].futures != []
  }

  // ---- the invariant of the whole machine ----

  /** The chosen exchange is the one its rule's verdict asks for. */
  ghost predicate PendingRight(cfg: Config, o: QueryOptions, futures: seq<Future>, p: Pending) {
    && MayCommit(cfg, o, p.origin)
    && Verdict(cfg, o, p.origin) == Some(Query(p.transport, p.options))
    && (p.future.Some? ==>
          && p.future.value < |futures|
          && var f := futures[p.future.value];
          && f.origin == p.origin && f.transport == p.transport && f.options == p.options && f.terminal)
  }

  /** An armed rule still waits for something that settling has not seen. */
  ghost predicate Waiting(futures: seq<Future>, a: Armed) {
    exists x :: x in a.futures && x < |futures| && !futures[x].settled
  }

  ghost predicate SuspensionRight(cfg: Config, o: QueryOptions, s: State, suspension: Suspension) {
    match suspension
    case Await(f) => f < |s.futures| && StateInv(cfg, o, s) && NoIdleArms(s.armed)
    case Drain => StateInv(cfg, o, s) && NoIdleArms(s.armed)
    case Exchange(p) => PendingRight(cfg, o, s.futures, p) && s.armed == [] && FlagsAgree(s.futures)
  }

  ghost predicate ControlRight(cfg: Config, o: QueryOptions, s: State, control: Control) {
    match control
    case Walking(_) => StateInv(cfg, o, s) && NoIdleArms(s.armed)
    case Sweeping(suspension) => SuspensionRight(cfg, o, s, suspension)
    case Checking(suspension) =>
      && SuspensionRight(cfg, o, s, suspension)
      && (forall i :: 0 <= i < |s.armed| ==> Waiting(s.futures, s.armed[i]))
    case Blocked(suspension) =>
      && SuspensionRight(cfg, o, s, suspension)
      && (suspension.Await? ==> !s.futures[suspension.future].settled)
      && (suspension.Drain? ==> s.armed != [] && Waiting(s.futures, s.armed[0]))
      && !suspension.Exchange?
    case Finishing(p) => PendingRight(cfg, o, s.futures, p) && FlagsAgree(s.futures)
    case Finished(origin, result) => Sound(cfg, o, origin, result)
  }

  /** No wake-up is lost: outside the sweep that answers one, a completion nobody has settled
      has its token in the channel or is about to offer it. */
  ghost predicate WakeKept(futures: seq<Future>, wake: bool) {
    forall i :: 0 <= i < |futures| && futures[i].signalled && !futures[i].settled ==> wake
  }

  ghost predicate Inv(cfg: Config, o: QueryOptions, m: Machine) {
    && ControlRight(cfg, o, m.state, m.control)
    && (!m.control.Sweeping? ==> WakeKept(m.state.futures, m.state.wake))
  }
}
