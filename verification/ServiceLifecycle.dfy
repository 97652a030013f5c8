/** The started service: starting, reloading and closing under two locks, with a start in
    progress that a later call interrupts. A section under the inner lock (serviceAccess) is one
    step; the outer lock (lifecycleAccess) is held across steps. */
module ServiceLifecycle {
  import opened Basics

  datatype Status = IDLE | STARTING | STARTED | STOPPING | FATAL

  datatype Kind = StartCall | CloseCall

  /** Where a call is; between Locked and Unlocking it holds the outer lock. */
  datatype Pc =
    | Interrupting
    | Queued
    | Locked
    | ClosingOld(previous: Option<nat>)
    | Restarting
    | Building
    | Failing
    | Installing(built: nat)
    | Starting(built: nat)
    | Checking(built: nat, failed: bool)
    | ClosingNew(built: nat)
    | Idling
    | Unlocking
    | Returned

  datatype Thread = Thread(kind: Kind, pc: Pc)

  /** The service, the calls on it, and as history the instances created and those closed. */
  datatype State = State(
    status: Status,
    instance: Option<nat>,
    startInterrupted: bool,
    closed: bool,
    lock: Option<nat>,
    threads: map<nat, Thread>,
    created: set<nat>,
    shut: set<nat>)

  function Init(): State {
    State(IDLE, None, false, false, None, map[], {}, {})
  }

  datatype Event =
    | Call(id: nat, kind: Kind)
    | Act(id: nat)
    | Built(id: nat, built: nat)
    | BuildFailed(id: nat)
    | StartReturned(id: nat, failed: bool)
    | SetError
    | CloseAll

  function At(s: State, id: nat, pc: Pc): State
    requires id in s.threads
  {
    s.(threads := s.threads[id := s.threads[id].(pc := pc)])
  }

  /** interruptStart */
  function Interrupt(s: State): State {
    if s.status == STARTING && s.instance.Some? then s.(startInterrupted := true) else s
  }

  /** The first section of StartOrReloadService. */
  function BeginStart(s: State, id: nat): State
    requires id in s.threads
  {
    if s.closed then At(s, id, Unlocking)
    else if s.instance.Some? then At(s.(instance := None, status := STOPPING), id, ClosingOld(s.instance))
    else At(s.(startInterrupted := false, status := STARTING), id, Building)
  }

  /** The first section of CloseService. */
  function BeginClose(s: State, id: nat): State
    requires id in s.threads
  {
    if s.instance.None? && s.status != STARTING && s.status != STARTED then At(s, id, Unlocking)
    else At(s.(instance := None, status := STOPPING), id, ClosingOld(s.instance))
  }

  /** The last section of StartOrReloadService: interrupted, failed or started. */
  function Check(s: State, id: nat, built: nat, failed: bool): State
    requires id in s.threads
  {
    if s.startInterrupted then At(s.(startInterrupted := false, instance := None), id, ClosingNew(built))
    else if failed then At(s.(instance := None, status := FATAL), id, ClosingNew(built))
    else At(s.(status := STARTED), id, Unlocking)
  }

  function Shut(s: State, i: Option<nat>): State {
    if i.Some? then s.(shut := s.shut + {i.value}) else s
  }

  predicate CanAct(s: State, pc: Pc) {
    match pc
    case Queued => s.lock.None?
    case Building | Starting(_) | Returned => false
    case _ => true
  }

  function ActThread(s: State, id: nat): State
    requires id in s.threads && CanAct(s, s.threads[id].pc)
  {
    var t := s.threads[id];
    match t.pc
    case Interrupting => At(Interrupt(s), id, Queued)
    case Queued => At(s.(lock := Some(id)), id, Locked)
    case Locked => if t.kind == StartCall then BeginStart(s, id) else BeginClose(s, id)
    case ClosingOld(previous) => At(Shut(s, previous), id, if t.kind == StartCall then Restarting else Idling)
    case Restarting => At(s.(startInterrupted := false, status := STARTING), id, Building)
    case Failing => At(s.(status := FATAL), id, Unlocking)
    case Installing(built) => At(s.(instance := Some(built)), id, Starting(built))
    case Checking(built, failed) => Check(s, id, built, failed)
    case ClosingNew(built) => At(Shut(s, Some(built)), id, Unlocking)
    case Idling => At(s.(status := IDLE), id, Unlocking)
    case Unlocking => At(s.(lock := None), id, Returned)
  }

  predicate Enabled(s: State, e: Event) {
    match e
    case Call(id, _) => id !in s.threads
    case Act(id) => id in s.threads && CanAct(s, s.threads[id].pc)
    case Built(id, built) => id in s.threads && s.threads[id].pc.Building? && built !in s.created
    case BuildFailed(id) => id in s.threads && s.threads[id].pc.Building?
    case StartReturned(id, _) => id in s.threads && s.threads[id].pc.Starting?
    case SetError => true
    case CloseAll => true
  }

  function Next(s: State, e: Event): State
    requires Enabled(s, e)
  {
    match e
    case Call(id, kind) => s.(threads := s.threads[id := Thread(kind, Interrupting)])
    case Act(id) => ActThread(s, id)
    case Built(id, built) => At(s.(created := s.created + {built}), id, Installing(built))
    case BuildFailed(id) => At(s, id, Failing)
    case StartReturned(id, failed) => At(s, id, Checking(s.threads[id].pc.built, failed))
    case SetError => s.(status := FATAL)
    case CloseAll => s.(closed := true)
  }

  ghost predicate IsRun(s: State, events: seq<Event>, last: State)
    decreases |events|
  {
    if events == [] then s == last
    else Enabled(s, events[0]) && IsRun(Next(s, events[0]), events[1..], last)
  }

  ghost predicate Reachable(s: State) {
    exists events :: IsRun(Init(), events, s)
  }

  // ---- what every step keeps ----

  predicate Inside(pc: Pc) {
    !pc.Interrupting? && !pc.Queued? && !pc.Returned?
  }

  /** Where the service has no instance. */
  predicate Between(pc: Pc) {
    pc.ClosingOld? || pc.Restarting? || pc.Building? || pc.Failing? || pc.Installing? || pc.ClosingNew? || pc.Idling?
  }

  /** The holder's hand on an instance the service does not have. */
  predicate InHand(pc: Pc, i: nat) {
    (pc.ClosingOld? && pc.previous == Some(i)) || ((pc.Installing? || pc.ClosingNew?) && pc.built == i)
  }

  /** Only a start goes through the steps of a start. */
  predicate KindOk(t: Thread) {
    if t.kind == StartCall then !t.pc.Idling?
    else !(t.pc.Restarting? || t.pc.Building? || t.pc.Failing? || t.pc.Installing? || t.pc.Starting? ||
           t.pc.Checking? || t.pc.ClosingNew?)
  }

  ghost predicate LockOk(lock: Option<nat>, threads: map<nat, Thread>) {
    && (lock.Some? ==> lock.value in threads)
    && forall id :: id in threads ==> KindOk(threads[id]) && (Inside(threads[id].pc) <==> lock == Some(id))
  }

  ghost predicate SomeoneQueued(threads: map<nat, Thread>) {
    exists id :: id in threads && threads[id].pc.Queued?
  }

  /** The pc of the holder of the outer lock, or Returned when it is free. */
  function HolderPc(lock: Option<nat>, threads: map<nat, Thread>): Pc {
    if lock.Some? && lock.value in threads then threads[lock.value].pc else Returned
  }

  /** Created instances are closed, installed or in the holder's hand, and only one of these. */
  ghost predicate InstancesOk(instance: Option<nat>, created: set<nat>, shut: set<nat>, holder: Pc) {
    && shut <= created
    && (forall i :: i in created && i !in shut ==> instance == Some(i) || InHand(holder, i))
    && (instance.Some? ==> instance.value in created && instance.value !in shut)
    && (forall i :: InHand(holder, i) ==> i in created && i !in shut && instance != Some(i))
    && (Between(holder) ==> instance.None?)
    && (holder.Starting? || holder.Checking? ==> instance == Some(holder.built))
  }

  ghost predicate StatusOk(status: Status, instance: Option<nat>, interrupted: bool, closed: bool, holder: Pc,
                           queued: bool) {
    && (status == STARTED ==> instance.Some?)
    && (interrupted ==> queued && (holder.Starting? || holder.Checking?))
    && (status == STARTED && (holder.Starting? || holder.Checking?) ==> false)
    && (status == STARTING && (holder.Returned? || holder.ClosingNew? || holder.Unlocking?) ==>
          instance.None? && (queued || closed))
    && (status == STARTING && holder.Locked? ==> instance.None?)
  }

  ghost predicate Inv(s: State) {
    var holder := HolderPc(s.lock, s.threads);
    && LockOk(s.lock, s.threads)
    && InstancesOk(s.instance, s.created, s.shut, holder)
    && StatusOk(s.status, s.instance, s.startInterrupted, s.closed, holder, SomeoneQueued(s.threads))
  }

  /** Everybody else stays queued. */
  lemma QueueKept(threads: map<nat, Thread>, id: nat, t: Thread)
    requires id in threads ==> !threads[id].pc.Queued? || t.pc.Queued?
    ensures SomeoneQueued(threads) ==> SomeoneQueued(threads[id := t])
    ensures t.pc.Queued? ==> SomeoneQueued(threads[id := t])
  {
    if SomeoneQueued(threads) {
      var q :| q in threads && threads[q].pc.Queued?;
      assert q in threads[id := t] && threads[id := t][q].pc.Queued?;
    }
    if t.pc.Queued? {
      assert threads[id := t][id].pc.Queued?;
    }
  }

  /** A step of the holder to a place inside. */
  lemma HolderMoves(lock: Option<nat>, threads: map<nat, Thread>, id: nat, pc: Pc)
    requires LockOk(lock, threads) && id in threads && lock == Some(id)
    requires Inside(pc) && KindOk(threads[id].(pc := pc))
    ensures var threads' := threads[id := threads[id].(pc := pc)];
            && LockOk(lock, threads') && HolderPc(lock, threads') == pc
            && (SomeoneQueued(threads) ==> SomeoneQueued(threads'))
  {
    QueueKept(threads, id, threads[id].(pc := pc));
  }

  lemma InterruptKept(s: State, id: nat)
    requires Inv(s) && id in s.threads && s.threads[id].pc.Interrupting?
    ensures Inv(ActThread(s, id))
  {
    QueueKept(s.threads, id, s.threads[id].(pc := Queued));
    assert HolderPc(s.lock, ActThread(s, id).threads) == HolderPc(s.lock, s.threads);
  }

  lemma AcquireKept(s: State, id: nat)
    requires Inv(s) && id in s.threads && s.threads[id].pc.Queued? && s.lock.None?
    ensures Inv(ActThread(s, id))
  {
    var s' := ActThread(s, id);
    assert HolderPc(s'.lock, s'.threads) == Locked;
    assert LockOk(s'.lock, s'.threads);
  }

  lemma BeginKept(s: State, id: nat)
    requires Inv(s) && id in s.threads && s.threads[id].pc.Locked?
    ensures Inv(ActThread(s, id))
  {
    HolderMoves(s.lock, s.threads, id, ActThread(s, id).threads[id].pc);
  }

  lemma ClosingKept(s: State, id: nat)
    requires Inv(s) && id in s.threads && (s.threads[id].pc.ClosingOld? || s.threads[id].pc.ClosingNew?)
    ensures Inv(ActThread(s, id))
  {
    HolderMoves(s.lock, s.threads, id, ActThread(s, id).threads[id].pc);
  }

  lemma StartingKept(s: State, id: nat)
    requires Inv(s) && id in s.threads
    requires s.threads[id].pc.Restarting? || s.threads[id].pc.Failing? || s.threads[id].pc.Installing?
    ensures Inv(ActThread(s, id))
  {
    HolderMoves(s.lock, s.threads, id, ActThread(s, id).threads[id].pc);
  }

  lemma CheckingKept(s: State, id: nat)
    requires Inv(s) && id in s.threads && s.threads[id].pc.Checking?
    ensures Inv(ActThread(s, id))
  {
    HolderMoves(s.lock, s.threads, id, ActThread(s, id).threads[id].pc);
  }

  lemma EndingKept(s: State, id: nat)
    requires Inv(s) && id in s.threads && (s.threads[id].pc.Idling? || s.threads[id].pc.Unlocking?)
    ensures Inv(ActThread(s, id))
  {
    var t := s.threads[id];
    if t.pc.Idling? {
      HolderMoves(s.lock, s.threads, id, Unlocking);
    } else {
      QueueKept(s.threads, id, t.(pc := Returned));
    }
  }

  lemma ActKept(s: State, id: nat)
    requires Inv(s) && id in s.threads && CanAct(s, s.threads[id].pc)
    ensures Inv(ActThread(s, id))
  {
    match s.threads[id].pc
    case Interrupting => InterruptKept(s, id);
    case Queued => AcquireKept(s, id);
    case Locked => BeginKept(s, id);
    case ClosingOld(_) => ClosingKept(s, id);
    case ClosingNew(_) => ClosingKept(s, id);
    case Checking(_, _) => CheckingKept(s, id);
    case Idling => EndingKept(s, id);
    case Unlocking => EndingKept(s, id);
    case _ => StartingKept(s, id);
  }

  lemma CallKept(s: State, id: nat, kind: Kind)
    requires Inv(s) && id !in s.threads
    ensures Inv(Next(s, Call(id, kind)))
  {
    QueueKept(s.threads, id, Thread(kind, Interrupting));
    assert HolderPc(s.lock, s.threads[id := Thread(kind, Interrupting)]) == HolderPc(s.lock, s.threads);
  }

  lemma BuildKept(s: State, e: Event)
    requires Inv(s) && Enabled(s, e) && (e.Built? || e.BuildFailed?)
    ensures Inv(Next(s, e))
  {
    HolderMoves(s.lock, s.threads, e.id, if e.Built? then Installing(e.built) else Failing);
  }

  lemma ReturnKept(s: State, id: nat, failed: bool)
    requires Inv(s) && Enabled(s, StartReturned(id, failed))
    ensures Inv(Next(s, StartReturned(id, failed)))
  {
    HolderMoves(s.lock, s.threads, id, Checking(s.threads[id].pc.built, failed));
  }

  lemma StepKeepsInv(s: State, e: Event)
    requires Inv(s) && Enabled(s, e)
    ensures Inv(Next(s, e))
  {
    match e
    case Call(id, kind) => CallKept(s, id, kind);
    case Act(id) => ActKept(s, id);
    case Built(_, _) => BuildKept(s, e);
    case BuildFailed(_) => BuildKept(s, e);
    case StartReturned(id, failed) => ReturnKept(s, id, failed);
    case SetError =>
    case CloseAll =>
  }

  lemma {:induction false} RunKeepsInv(s: State, events: seq<Event>, last: State)
    requires Inv(s) && IsRun(s, events, last)
    ensures Inv(last)
    decreases |events|
  {
    if events != [] {
      StepKeepsInv(s, events[0]);
      RunKeepsInv(Next(s, events[0]), events[1..], last);
    }
  }

  lemma ReachableInv(s: State)
    requires Reachable(s)
    ensures Inv(s)
  {
    var events :| IsRun(Init(), events, s);
    RunKeepsInv(Init(), events, s);
  }

  // ---- what holds in every run ----

  /** A service that says it is started has an instance, and that instance has not been closed. */
  lemma StartedHasInstance(s: State)
    requires Reachable(s) && s.status == STARTED
    ensures s.instance.Some? && s.instance.value in s.created && s.instance.value !in s.shut
  {
    ReachableInv(s);
  }

  /** With the outer lock free, every instance ever created is closed but the service's own. */
  lemma NothingLeaks(s: State, i: nat)
    requires Reachable(s) && s.lock.None? && i in s.created
    ensures i in s.shut <==> s.instance != Some(i)
  {
    ReachableInv(s);
  }

  /** A free lock with the status STARTING means another call is waiting to take over, or the
      service is closed: an interrupted start is never the last word. */
  lemma InterruptedStartIsTakenOver(s: State)
    requires Reachable(s) && s.lock.None? && s.status == STARTING
    ensures s.instance.None? && (s.closed || exists id :: id in s.threads && s.threads[id].pc.Queued?)
  {
    ReachableInv(s);
  }

  /** Once every call has returned, the service is not left starting unless it was closed. */
  lemma SettlesWhenQuiet(s: State)
    requires Reachable(s) && forall id :: id in s.threads ==> s.threads[id].pc.Returned?
    ensures s.lock.None? && (s.status == STARTING ==> s.closed)
  {
    ReachableInv(s);
  }

  /** What a step closes was in the lock holder's hand, not the service's instance. */
  lemma OnlyHolderCloses(s: State, e: Event, i: nat)
    requires Reachable(s) && Enabled(s, e) && i in Next(s, e).shut && i !in s.shut
    ensures i in s.created && s.instance != Some(i)
    ensures e.Act? && InHand(s.threads[e.id].pc, i) && s.lock == Some(e.id)
  {
    ReachableInv(s);
  }

  /** An instance that is about to be closed has not been closed before. */
  lemma NeverClosedTwice(s: State, id: nat, i: nat)
    requires Reachable(s) && id in s.threads && InHand(s.threads[id].pc, i)
    ensures i in s.created && i !in s.shut
  {
    ReachableInv(s);
  }

  /** A call waiting for its instance to be built or started. */
  predicate AwaitsInstance(pc: Pc) {
    pc.Building? || pc.Starting?
  }

  /** Calls never block each other for good: while one is unfinished, some call can go on, or the
      holder waits only for its own instance to be built or to start. */
  lemma NeverDeadlocked(s: State, id: nat)
    requires Reachable(s) && id in s.threads && !s.threads[id].pc.Returned?
    ensures exists j :: j in s.threads && (CanAct(s, s.threads[j].pc) || AwaitsInstance(s.threads[j].pc))
  {
    ReachableInv(s);
    var j := if s.lock.Some? then s.lock.value else id;
    assert CanAct(s, s.threads[j].pc) || AwaitsInstance(s.threads[j].pc);
  }
}
