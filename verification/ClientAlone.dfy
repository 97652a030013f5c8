/** The two forms of an exchange agree: a run of the client's machine in which one exchange acts and
    nobody else does ends with what ClientExchange says of it, and such a run exists whenever
    nobody holds the exchange's lock. */
module ClientAlone {
  import opened Basics
  import opened ResponseTtl
  import opened ClientModel
  import opened ClientMachine
  import opened ClientExchange
  import opened ClientInvariant
  import opened ClientTheorems
  import opened ClientProgress

  /** The exchange itself acts, or its transport gives it the answer. */
  predicate IsOwn(e: Event, id: nat, answer: Option<Reply>) {
    match e
    case Act(i) => i == id
    case Arrive(i, reply) => i == id && answer == Some(reply)
    case Fail(i) => i == id && answer == None
    case Spawn(i, _) => i == id
    case _ => false
  }

  predicate AllOwn(events: seq<Event>, id: nat, answer: Option<Reply>) {
    forall i :: 0 <= i < |events| ==> IsOwn(events[i], id, answer)
  }

  predicate Asks(e: Event) {
    e.Arrive? || e.Fail?
  }

  ghost predicate AnyAsks(events: seq<Event>) {
    exists i :: 0 <= i < |events| && Asks(events[i])
  }

  // ---- what is left of an exchange ----

  /** The cache after a load whose answer is not used. */
  function Unused(cache: Cache, l: Loaded): Cache {
    if l.Miss? then l.cache else cache
  }

  /** An exchange, or a lookup, which goes to the cache before anything else. */
  function Outright(cfg: Config, now: nat, environments: Environments, cache: Cache, q: Query, lookup: bool,
                    answer: Option<Reply>, origin: nat): Outcome {
    var l := LoadResponse(cfg, now, cache, NewKey(environments, q));
    if !lookup || !q.caches then Alone(cfg, now, environments, cache, q, answer, origin)
    else if Usable(q, l) then Outcome(CachedResult(cfg, q, l.reply), cache, false)
    else Alone(cfg, now, environments, Unused(cache, l), q, answer, origin)
  }

  /** From the transport on. */
  function AfterAsking(cfg: Config, now: nat, environments: Environments, cache: Cache, origin: nat, q: Query,
                       answer: Option<Reply>): Outcome {
    if answer.None? then Outcome(Failed, cache, true)
    else if !cfg.Passes(q, answer.value) then Outcome(Rejected(answer.value), cache, true)
    else
      Outcome(Answered(Kept(q, answer.value)),
              Finished(cfg, now, environments, cache, q, NewKey(environments, q), answer.value, origin), true)
  }

  /** What an exchange comes to from where it is, if only it acts from now on. */
  function Remaining(cfg: Config, now: nat, environments: Environments, cache: Cache, origin: nat, t: Thread,
                     answer: Option<Reply>): Outcome
    requires t.Exchange?
  {
    match t.pc
    case Peeking => Outright(cfg, now, environments, cache, t.query, true, answer, origin)
    case Entering => Alone(cfg, now, environments, cache, t.query, answer, origin)
    case Looking(_) => Alone(cfg, now, environments, cache, t.query, answer, origin)
    case Waiting(_) => Alone(cfg, now, environments, cache, t.query, answer, origin)
    case Deciding => AfterAsking(cfg, now, environments, cache, origin, t.query, answer)
    case Exchanging => AfterAsking(cfg, now, environments, cache, origin, t.query, answer)
    case Finishing(raw) => AfterAsking(cfg, now, environments, cache, origin, t.query, Some(raw)).(asked := false)
    case Storing(f) =>
      Outcome(Answered(f.kept), StoreCache(cfg, now, cache, f.key, f.kept, f.ttl, origin), false)
    case Leaving(result, _) => Outcome(result, cache, false)
    case Closing(result, _) => Outcome(result, cache, false)
    case Spawning(result) => Outcome(result, cache, false)
    case Done(result) => Outcome(result, cache, false)
  }

  predicate KeyIsMade(pc: Pc) {
    pc.Looking? || pc.Waiting? || pc.Deciding? || pc.Exchanging? || pc.Finishing? || pc.Storing?
  }

  /** An exchange on its way: where it uses the cache, its key is of the environment it is in. */
  predicate OnWay(environments: Environments, t: Thread) {
    && t.Exchange?
    && (t.pc.Peeking? || t.pc.Looking? || t.pc.Waiting? || t.pc.Storing? ==> t.query.caches)
    && (t.pc.Looking? || t.pc.Waiting? ==> t.query.early.None?)
    && (t.query.caches && KeyIsMade(t.pc) ==> t.key == Some(NewKey(environments, t.query)))
    && (!t.query.caches ==> t.key.None?)
  }

  predicate IsOnWay(s: State, id: nat) {
    id in s.threads && OnWay(s.environments, s.threads[id])
  }

  function RemainingAt(cfg: Config, s: State, id: nat, answer: Option<Reply>): Outcome
    requires IsExchangeAt(s, id)
  {
    Remaining(cfg, s.now, s.environments, s.cache, |s.stored|, s.threads[id], answer)
  }

  /** The exchange goes on as it would have: nothing is lost or gained but the asking just done. */
  predicate GoesOn(r: Outcome, r': Outcome, asks: bool) {
    r' == r.(asked := r'.asked) && (r.asked <==> asks || r'.asked)
  }

  // ---- each step, of the exchange alone ----

  /** An answer that is not used is not used a moment later, and the cache stays as it is. */
  lemma LoadTwice(cfg: Config, now: nat, cache: Cache, q: Query, key: CacheKey)
    requires !Usable(q, LoadResponse(cfg, now, cache, key))
    ensures var rest := Unused(cache, LoadResponse(cfg, now, cache, key));
            && !Usable(q, LoadResponse(cfg, now, rest, key))
            && Unused(rest, LoadResponse(cfg, now, rest, key)) == rest
  {
  }

  lemma PeekRemains(cfg: Config, now: nat, environments: Environments, cache: Cache, origin: nat, t: Thread,
                    answer: Option<Reply>)
    requires OnWay(environments, t) && t.pc.Peeking?
    ensures var key := NewKey(environments, t.query);
            var l := LoadResponse(cfg, now, cache, key);
            var t' := PeekThread(cfg, t, key, l);
            var cache' := if Usable(t.query, l) then cache else Unused(cache, l);
            && OnWay(environments, t')
            && Remaining(cfg, now, environments, cache', origin, t', answer) ==
               Remaining(cfg, now, environments, cache, origin, t, answer)
  {
  }

  lemma EnterRemains(cfg: Config, now: nat, environments: Environments, cache: Cache, origin: nat,
                     locks: map<ExchangeKey, nat>, t: Thread, answer: Option<Reply>)
    requires OnWay(environments, t) && t.pc.Entering?
    ensures var t' := EnterThread(environments, locks, t);
            && OnWay(environments, t')
            && Remaining(cfg, now, environments, cache, origin, t', answer) ==
               Remaining(cfg, now, environments, cache, origin, t, answer)
  {
  }

  lemma LookRemains(cfg: Config, now: nat, environments: Environments, cache: Cache, origin: nat, t: Thread,
                    answer: Option<Reply>)
    requires OnWay(environments, t) && t.pc.Looking?
    ensures var l := LoadResponse(cfg, now, cache, t.key.value);
            var t' := LookThread(cfg, t, l);
            var cache' := if Usable(t.query, l) then cache else Unused(cache, l);
            && OnWay(environments, t')
            && Remaining(cfg, now, environments, cache', origin, t', answer) ==
               Remaining(cfg, now, environments, cache, origin, t, answer)
  {
    if !Usable(t.query, LoadResponse(cfg, now, cache, t.key.value)) {
      LoadTwice(cfg, now, cache, t.query, t.key.value);
    }
  }

  lemma FinishRemains(cfg: Config, now: nat, environments: Environments, cache: Cache, origin: nat, t: Thread,
                      answer: Option<Reply>)
    requires OnWay(environments, t) && t.pc.Finishing?
    ensures var t' := FinishThread(cfg, environments, t);
            && OnWay(environments, t')
            && Remaining(cfg, now, environments, cache, origin, t', answer) ==
               Remaining(cfg, now, environments, cache, origin, t, answer)
  {
    var raw := t.pc.raw;
    if cfg.Passes(t.query, raw) && t.query.caches && Cacheable(raw) {
      FilingRemains(cfg, now, environments, cache, origin, t);
    }
  }

  lemma FilingRemains(cfg: Config, now: nat, environments: Environments, cache: Cache, origin: nat, t: Thread)
    requires OnWay(environments, t) && t.pc.Finishing? && t.query.caches && cfg.Passes(t.query, t.pc.raw)
    requires Cacheable(t.pc.raw)
    ensures var t' := FinishThread(cfg, environments, t);
            && OnWay(environments, t') && (t'.pc.Storing? || t'.pc.Leaving?)
            && Remaining(cfg, now, environments, cache, origin, t', Some(t.pc.raw)) ==
               Outcome(Answered(Kept(t.query, t.pc.raw)),
                       Finished(cfg, now, environments, cache, t.query, t.key.value, t.pc.raw, origin), false)
  {
  }

  // ---- each step, of the machine ----

  ghost predicate StateGoesOn(cfg: Config, s: State, s': State, id: nat, answer: Option<Reply>, asks: bool)
    requires IsExchangeAt(s, id)
  {
    IsOnWay(s', id) && GoesOn(RemainingAt(cfg, s, id, answer), RemainingAt(cfg, s', id, answer), asks)
  }

  lemma PeekGoesOn(cfg: Config, s: State, id: nat, answer: Option<Reply>)
    requires IsOnWay(s, id) && s.threads[id].pc.Peeking?
    ensures StateGoesOn(cfg, s, ActExchange(cfg, s, id), id, answer, false)
  {
    PeekRemains(cfg, s.now, s.environments, s.cache, |s.stored|, s.threads[id], answer);
  }

  lemma LookGoesOn(cfg: Config, s: State, id: nat, answer: Option<Reply>)
    requires IsOnWay(s, id) && s.threads[id].pc.Looking?
    ensures StateGoesOn(cfg, s, ActExchange(cfg, s, id), id, answer, false)
  {
    LookRemains(cfg, s.now, s.environments, s.cache, |s.stored|, s.threads[id], answer);
  }

  lemma EnterGoesOn(cfg: Config, s: State, id: nat, answer: Option<Reply>)
    requires IsOnWay(s, id) && s.threads[id].pc.Entering?
    ensures StateGoesOn(cfg, s, ActExchange(cfg, s, id), id, answer, false)
  {
    EnterRemains(cfg, s.now, s.environments, s.cache, |s.stored|, s.locks, s.threads[id], answer);
  }

  lemma FinishGoesOn(cfg: Config, s: State, id: nat, answer: Option<Reply>)
    requires IsOnWay(s, id) && s.threads[id].pc.Finishing?
    ensures StateGoesOn(cfg, s, ActExchange(cfg, s, id), id, answer, false)
  {
    FinishRemains(cfg, s.now, s.environments, s.cache, |s.stored|, s.threads[id], answer);
  }

  lemma StoreGoesOn(cfg: Config, s: State, id: nat, answer: Option<Reply>)
    requires IsOnWay(s, id) && s.threads[id].pc.Storing?
    ensures StateGoesOn(cfg, s, ActExchange(cfg, s, id), id, answer, false)
  {
  }

  lemma WaitGoesOn(cfg: Config, s: State, id: nat, answer: Option<Reply>)
    requires IsOnWay(s, id) && CanAct(s.closed, s.threads[id])
    requires s.threads[id].pc.Waiting? || s.threads[id].pc.Deciding?
    ensures StateGoesOn(cfg, s, ActExchange(cfg, s, id), id, answer, false)
  {
  }

  lemma LeaveGoesOn(cfg: Config, s: State, id: nat, answer: Option<Reply>)
    requires IsOnWay(s, id) && s.threads[id].pc.Leaving?
    ensures StateGoesOn(cfg, s, ActExchange(cfg, s, id), id, answer, false)
  {
    assert ActExchange(cfg, s, id) == Leave(s, id);
  }

  lemma CloseGoesOn(cfg: Config, s: State, id: nat, answer: Option<Reply>)
    requires IsOnWay(s, id) && s.threads[id].pc.Closing?
    ensures StateGoesOn(cfg, s, ActExchange(cfg, s, id), id, answer, false)
  {
    assert ActExchange(cfg, s, id) == Close(s, id);
  }

  lemma ActGoesOn(cfg: Config, s: State, id: nat, answer: Option<Reply>)
    requires IsOnWay(s, id) && CanAct(s.closed, s.threads[id])
    ensures StateGoesOn(cfg, s, ActExchange(cfg, s, id), id, answer, false)
  {
    match s.threads[id].pc
    case Peeking => PeekGoesOn(cfg, s, id, answer);
    case Looking(_) => LookGoesOn(cfg, s, id, answer);
    case Entering => EnterGoesOn(cfg, s, id, answer);
    case Finishing(_) => FinishGoesOn(cfg, s, id, answer);
    case Storing(_) => StoreGoesOn(cfg, s, id, answer);
    case Waiting(_) => WaitGoesOn(cfg, s, id, answer);
    case Deciding => WaitGoesOn(cfg, s, id, answer);
    case Leaving(_, _) => LeaveGoesOn(cfg, s, id, answer);
    case Closing(_, _) => CloseGoesOn(cfg, s, id, answer);
  }

  lemma AnswerGoesOn(cfg: Config, s: State, e: Event, id: nat, answer: Option<Reply>)
    requires IsOnWay(s, id) && Enabled(s, e) && IsOwn(e, id, answer) && Asks(e)
    ensures StateGoesOn(cfg, s, Next(cfg, s, e), id, answer, true)
  {
  }

  lemma SpawnGoesOn(cfg: Config, s: State, id: nat, refresher: nat, answer: Option<Reply>)
    requires IsOnWay(s, id) && Enabled(s, Spawn(id, refresher))
    ensures StateGoesOn(cfg, s, SpawnRefresh(s, id, refresher), id, answer, false)
  {
  }

  lemma EventGoesOn(cfg: Config, s: State, e: Event, id: nat, answer: Option<Reply>)
    requires IsOnWay(s, id) && Enabled(s, e) && IsOwn(e, id, answer)
    ensures StateGoesOn(cfg, s, Next(cfg, s, e), id, answer, Asks(e))
  {
    if e.Act? {
      ActGoesOn(cfg, s, id, answer);
    } else if e.Spawn? {
      SpawnGoesOn(cfg, s, id, e.refresher, answer);
    } else {
      AnswerGoesOn(cfg, s, e, id, answer);
    }
  }

  // ---- whole runs ----

  lemma {:induction false} LoneRunGoesOn(cfg: Config, s: State, events: seq<Event>, last: State, id: nat,
                                         answer: Option<Reply>)
    requires IsOnWay(s, id) && IsRun(cfg, s, events, last) && AllOwn(events, id, answer)
    ensures StateGoesOn(cfg, s, last, id, answer, AnyAsks(events))
    decreases |events|
  {
    if events != [] {
      var s' := Next(cfg, s, events[0]);
      assert IsOwn(events[0], id, answer);
      EventGoesOn(cfg, s, events[0], id, answer);
      assert forall i :: 0 <= i < |events[1..]| ==> events[1..][i] == events[i + 1];
      LoneRunGoesOn(cfg, s', events[1..], last, id, answer);
      AsksFirstOrLater(events);
    }
  }

  lemma AsksFirstOrLater(events: seq<Event>)
    requires events != []
    ensures AnyAsks(events) <==> Asks(events[0]) || AnyAsks(events[1..])
  {
    if i :| 0 <= i < |events| && Asks(events[i]) && i > 0 {
      assert events[1..][i - 1] == events[i];
    }
  }

  /** A call after which only its own exchange acts, up to its end: the result, the cache and
      whether the transport was asked are those of an exchange nobody interferes with. */
  lemma LoneRunIsAlone(cfg: Config, s: State, id: nat, q: Query, allowWait: bool, lookup: bool,
                       answer: Option<Reply>, events: seq<Event>, last: State)
    requires IsRun(cfg, s, [Call(id, q, allowWait, lookup)] + events, last) && AllOwn(events, id, answer)
    requires IsExchangeAt(last, id) && last.threads[id].pc.Done?
    ensures Outcome(last.threads[id].pc.result, last.cache, AnyAsks(events)) ==
            Outright(cfg, s.now, s.environments, s.cache, q, lookup, answer, |s.stored|)
  {
    var call := Call(id, q, allowWait, lookup);
    assert ([call] + events)[1..] == events;
    CallStarts(cfg, s, id, q, allowWait, lookup, answer);
    LoneRunGoesOn(cfg, Next(cfg, s, call), events, last, id, answer);
  }

  lemma CallStarts(cfg: Config, s: State, id: nat, q: Query, allowWait: bool, lookup: bool, answer: Option<Reply>)
    requires Enabled(s, Call(id, q, allowWait, lookup))
    ensures var s' := Next(cfg, s, Call(id, q, allowWait, lookup));
            && IsOnWay(s', id)
            && RemainingAt(cfg, s', id, answer) ==
               Outright(cfg, s.now, s.environments, s.cache, q, lookup, answer, |s.stored|)
  {
  }

  /** For a lookup that is not answered early, looking in the cache first makes no difference. */
  lemma LookupIsExchange(cfg: Config, now: nat, environments: Environments, cache: Cache, q: Query,
                         answer: Option<Reply>, origin: nat)
    requires q.early.None?
    ensures Outright(cfg, now, environments, cache, q, true, answer, origin) ==
            Alone(cfg, now, environments, cache, q, answer, origin)
  {
    var key := NewKey(environments, q);
    if q.caches && !Usable(q, LoadResponse(cfg, now, cache, key)) {
      LoadTwice(cfg, now, cache, q, key);
    }
  }

  // ---- such runs exist ----

  /** Nobody holds the lock the exchange is going to ask for. */
  predicate LockIsFree(s: State, q: Query) {
    ExchangeKey(NewKey(s.environments, q), q.options.timeout) !in s.locks
  }

  /** The exchange has met no lock, and will not. */
  predicate Unhindered(s: State, t: Thread)
    requires t.Exchange?
  {
    && !t.pc.Waiting? && (t.pc.Looking? ==> t.pc.cond.None?)
    && (t.pc.Peeking? || t.pc.Entering? ==> LockIsFree(s, t.query))
  }

  lemma {:induction false} FreshNat(ids: set<nat>) returns (n: nat)
    ensures forall i :: i in ids ==> i < n
  {
    if ids == {} {
      n := 0;
    } else {
      var i :| i in ids;
      var m := FreshNat(ids - {i});
      n := if i < m then m else i + 1;
      assert forall k :: k in ids ==> k in ids - {i} || k == i;
    }
  }

  function NextOwn(s: State, id: nat, answer: Option<Reply>, refresher: nat): Event
    requires IsExchangeAt(s, id)
  {
    var pc := s.threads[id].pc;
    if pc.Exchanging? then (if answer.Some? then Arrive(id, answer.value) else Fail(id))
    else if pc.Spawning? then Spawn(id, refresher)
    else Act(id)
  }

  lemma NextOwnIsEnabled(cfg: Config, s: State, id: nat, answer: Option<Reply>, refresher: nat)
    requires ThreadsOk(cfg, s.threads) && IsExchangeAt(s, id) && !s.threads[id].pc.Done? && refresher !in s.threads
    requires !s.threads[id].pc.Waiting?
    ensures Enabled(s, NextOwn(s, id, answer, refresher)) && IsOwn(NextOwn(s, id, answer, refresher), id, answer)
  {
    assert ThreadOk(cfg, s.threads[id]);
  }

  lemma NextOwnIsUnhindered(cfg: Config, s: State, id: nat, answer: Option<Reply>, refresher: nat)
    requires IsExchangeAt(s, id) && !s.threads[id].pc.Done? && Unhindered(s, s.threads[id])
    requires Enabled(s, NextOwn(s, id, answer, refresher))
    requires Advances(s, Next(cfg, s, NextOwn(s, id, answer, refresher)), id)
    ensures var s' := Next(cfg, s, NextOwn(s, id, answer, refresher)); Unhindered(s', s'.threads[id])
  {
    var pc := s.threads[id].pc;
    if pc.Peeking? {
      PeekIsUnhindered(cfg, s, id);
    } else if pc.Entering? {
      EnterIsUnhindered(cfg, s, id);
    } else {
      LateIsUnhindered(Next(cfg, s, NextOwn(s, id, answer, refresher)), s.threads[id], id);
    }
  }

  lemma PeekIsUnhindered(cfg: Config, s: State, id: nat)
    requires IsExchangeAt(s, id) && s.threads[id].pc.Peeking? && LockIsFree(s, s.threads[id].query)
    ensures var s' := ActExchange(cfg, s, id); IsExchangeAt(s', id) && Unhindered(s', s'.threads[id])
  {
  }

  lemma EnterIsUnhindered(cfg: Config, s: State, id: nat)
    requires IsExchangeAt(s, id) && s.threads[id].pc.Entering? && LockIsFree(s, s.threads[id].query)
    ensures var s' := ActExchange(cfg, s, id); IsExchangeAt(s', id) && Unhindered(s', s'.threads[id])
  {
    assert ActExchange(cfg, s, id) == Enter(s, id);
  }

  /** Past its look at the cache an exchange meets no lock any more. */
  lemma LateIsUnhindered(s': State, t: Thread, id: nat)
    requires t.Exchange? && !t.pc.Peeking? && !t.pc.Entering? && !t.pc.Waiting? && (t.pc.Looking? ==> t.pc.cond.None?)
    requires IsExchangeAt(s', id) && Stage(t) < Stage(s'.threads[id])
    ensures Unhindered(s', s'.threads[id])
  {
  }

  lemma {:induction false} LoneRunEnds(cfg: Config, s: State, id: nat, answer: Option<Reply>)
    returns (events: seq<Event>, last: State)
    requires ThreadsOk(cfg, s.threads) && IsExchangeAt(s, id) && Unhindered(s, s.threads[id])
    ensures IsRun(cfg, s, events, last) && AllOwn(events, id, answer)
    ensures IsExchangeAt(last, id) && last.threads[id].pc.Done?
    decreases LAST_STAGE - Stage(s.threads[id])
  {
    if s.threads[id].pc.Done? {
      return [], s;
    }
    var refresher := FreshNat(s.threads.Keys);
    var e := NextOwn(s, id, answer, refresher);
    NextOwnIsEnabled(cfg, s, id, answer, refresher);
    EventAdvances(cfg, s, e, id);
    NextOwnIsUnhindered(cfg, s, id, answer, refresher);
    ThreadsKept(cfg, s, e);
    var rest;
    rest, last := LoneRunEnds(cfg, Next(cfg, s, e), id, answer);
    events := [e] + rest;
    assert events[1..] == rest;
  }

  /** Wherever nobody holds its lock, a call can be followed to its end with nobody else acting. */
  lemma LoneRunExists(cfg: Config, s: State, id: nat, q: Query, allowWait: bool, lookup: bool, answer: Option<Reply>)
    requires Reachable(cfg, s) && Enabled(s, Call(id, q, allowWait, lookup)) && LockIsFree(s, q)
    ensures exists events, last ::
              && IsRun(cfg, s, [Call(id, q, allowWait, lookup)] + events, last) && AllOwn(events, id, answer)
              && IsExchangeAt(last, id) && last.threads[id].pc.Done?
  {
    var call := Call(id, q, allowWait, lookup);
    ReachableInv(cfg, s);
    ThreadsKept(cfg, s, call);
    var events, last := LoneRunEnds(cfg, Next(cfg, s, call), id, answer);
    assert ([call] + events)[1..] == events;
    assert IsRun(cfg, s, [call] + events, last);
  }
}
