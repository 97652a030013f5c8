/** Every exchange goes forward: each of its events takes it to a later stage, so that it waits at
    most once and ends after a bounded number of events of its own. */
module ClientProgress {
  import opened Basics
  import opened ResponseTtl
  import opened ClientModel
  import opened ClientMachine
  import opened ClientInvariant
  import opened ClientTheorems

  const LAST_STAGE := 14

  /** How far an exchange is. One that may not wait begins again, once, as one that may. */
  function Stage(t: Thread): nat
    requires t.Exchange?
  {
    match t.pc
    case Peeking => 0
    case Entering => if t.allowWait then 3 else 1
    case Looking(cond) => if cond.None? then 6 else if t.allowWait then 4 else 2
    case Waiting(_) => 5
    case Deciding => 7
    case Exchanging => 8
    case Finishing(_) => 9
    case Storing(_) => 10
    case Leaving(_, _) => 11
    case Closing(_, _) => 12
    case Spawning(_) => 13
    case Done(_) => LAST_STAGE
  }

  predicate Advances(s: State, s': State, id: nat)
    requires IsExchangeAt(s, id)
  {
    IsExchangeAt(s', id) && Stage(s.threads[id]) < Stage(s'.threads[id])
  }

  lemma LoadAdvances(cfg: Config, s: State, id: nat)
    requires IsExchangeAt(s, id) && CanAct(s.closed, s.threads[id])
    requires s.threads[id].pc.Peeking? || s.threads[id].pc.Looking?
    ensures Advances(s, ActExchange(cfg, s, id), id)
  {
    var t := s.threads[id];
    if t.pc.Peeking? {
      var key := NewKey(s.environments, t.query);
      assert ActExchange(cfg, s, id).threads[id] == PeekThread(cfg, t, key, LoadResponse(cfg, s.now, s.cache, key));
    } else {
      assert ActExchange(cfg, s, id).threads[id] == LookThread(cfg, t, LoadResponse(cfg, s.now, s.cache, t.key.value));
    }
  }

  lemma EnterAdvances(s: State, id: nat)
    requires IsExchangeAt(s, id) && s.threads[id].pc.Entering?
    ensures Advances(s, Enter(s, id), id)
  {
  }

  lemma FinishStage(cfg: Config, environments: Environments, t: Thread)
    requires t.Exchange? && t.pc.Finishing?
    ensures FinishThread(cfg, environments, t).Exchange? && Stage(FinishThread(cfg, environments, t)) > Stage(t)
  {
  }

  lemma MiddleAdvances(cfg: Config, s: State, id: nat)
    requires IsExchangeAt(s, id) && CanAct(s.closed, s.threads[id])
    requires s.threads[id].pc.Waiting? || s.threads[id].pc.Deciding? || s.threads[id].pc.Finishing?
    ensures Advances(s, ActExchange(cfg, s, id), id)
  {
    if s.threads[id].pc.Finishing? {
      FinishStage(cfg, s.environments, s.threads[id]);
    }
  }

  lemma EndAdvances(cfg: Config, s: State, id: nat)
    requires IsExchangeAt(s, id) && CanAct(s.closed, s.threads[id])
    requires s.threads[id].pc.Storing? || s.threads[id].pc.Leaving? || s.threads[id].pc.Closing?
    ensures Advances(s, ActExchange(cfg, s, id), id)
  {
  }

  lemma ActAdvances(cfg: Config, s: State, id: nat)
    requires IsExchangeAt(s, id) && CanAct(s.closed, s.threads[id])
    ensures Advances(s, ActExchange(cfg, s, id), id)
  {
    var pc := s.threads[id].pc;
    if pc.Peeking? || pc.Looking? {
      LoadAdvances(cfg, s, id);
    } else if pc.Entering? {
      EnterAdvances(s, id);
    } else if pc.Waiting? || pc.Deciding? || pc.Finishing? {
      MiddleAdvances(cfg, s, id);
    } else {
      EndAdvances(cfg, s, id);
    }
  }

  lemma OtherEventsAdvance(cfg: Config, s: State, e: Event, id: nat)
    requires Enabled(s, e) && !e.Act? && IsExchangeAt(s, id)
    ensures var s' := Next(cfg, s, e);
            if IsOf(e, id) then Advances(s, s', id) else IsExchangeAt(s', id) && s'.threads[id] == s.threads[id]
  {
  }

  /** An event of an exchange takes it to a later stage; any other event leaves it where it is. */
  lemma EventAdvances(cfg: Config, s: State, e: Event, id: nat)
    requires ThreadsOk(cfg, s.threads) && IsExchangeAt(s, id) && Enabled(s, e)
    ensures var s' := Next(cfg, s, e);
            if IsOf(e, id) then Advances(s, s', id) else IsExchangeAt(s', id) && s'.threads[id] == s.threads[id]
  {
    if !e.Act? {
      OtherEventsAdvance(cfg, s, e, id);
    } else if e.id == id {
      ActAdvances(cfg, s, id);
    } else {
      OthersKeepThread(cfg, s, e.id, id);
    }
  }

  /** Over any run from a reachable state, an exchange has at most as many events as stages left. */
  lemma {:induction false} ExchangeIsBounded(cfg: Config, s: State, events: seq<Event>, last: State, id: nat)
    requires ThreadsOk(cfg, s.threads) && IsRun(cfg, s, events, last) && IsExchangeAt(s, id)
    ensures IsExchangeAt(last, id) && EventsOf(events, id) + Stage(s.threads[id]) <= Stage(last.threads[id])
    decreases |events|
  {
    if events != [] {
      EventAdvances(cfg, s, events[0], id);
      ThreadsKept(cfg, s, events[0]);
      ExchangeIsBounded(cfg, Next(cfg, s, events[0]), events[1..], last, id);
    }
  }

  /** An exchange that has waited, and been woken, never waits again. */
  lemma WaitsAtMostOnce(cfg: Config, s: State, events: seq<Event>, last: State, id: nat)
    requires Reachable(cfg, s) && IsRun(cfg, s, events, last) && IsExchangeAt(s, id) && s.threads[id].pc.Waiting?
    ensures IsExchangeAt(last, id)
    ensures WaitsOn(last.threads[id]).Some? ==> last.threads[id] == s.threads[id] && EventsOf(events, id) == 0
  {
    ReachableInv(cfg, s);
    ExchangeIsBounded(cfg, s, events, last, id);
    if WaitsOn(last.threads[id]).Some? {
      WaitingIsStage(s.threads[id], last.threads[id]);
      UntouchedStays(cfg, s, events, last, id);
    }
  }

  lemma WaitingIsStage(t: Thread, t': Thread)
    requires t.Exchange? && t.pc.Waiting? && WaitsOn(t').Some?
    ensures t'.Exchange? && Stage(t') <= Stage(t)
  {
  }

  lemma {:induction false} UntouchedStays(cfg: Config, s: State, events: seq<Event>, last: State, id: nat)
    requires ThreadsOk(cfg, s.threads) && IsRun(cfg, s, events, last) && IsExchangeAt(s, id) &&
             EventsOf(events, id) == 0
    ensures IsExchangeAt(last, id) && last.threads[id] == s.threads[id]
    decreases |events|
  {
    if events != [] {
      EventAdvances(cfg, s, events[0], id);
      ThreadsKept(cfg, s, events[0]);
      UntouchedStays(cfg, Next(cfg, s, events[0]), events[1..], last, id);
    }
  }

  /** An exchange that is not done can go on, unless it waits for its transport to answer or for an
      owner to close its channel. */
  lemma ExchangeCanGoOn(cfg: Config, s: State, id: nat, refresher: nat)
    requires Reachable(cfg, s) && IsExchangeAt(s, id) && !s.threads[id].pc.Done? && refresher !in s.threads
    ensures var pc := s.threads[id].pc;
            || pc.Exchanging? || (pc.Waiting? && pc.channel !in s.closed)
            || Enabled(s, Act(id)) || Enabled(s, Spawn(id, refresher))
  {
    ReachableInv(cfg, s);
    assert ThreadOk(cfg, s.threads[id]);
  }
}
