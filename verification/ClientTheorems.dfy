/** What holds in every run of the DNS client: single flight without lost waiters, one refresh
    per key, and cached answers that are as fresh as they claim. */
module ClientTheorems {
  import opened Basics
  import opened ResponseTtl
  import opened ClientModel
  import opened ClientMachine
  import opened ClientInvariant
  import opened ClientLocks

  // ---- the cache, event by event ----

  /** What a load finds is served from the store that filed it. */
  lemma HitIsServedFrom(cfg: Config, now: nat, cache: Cache, stored: seq<Stored>, q: Query, key: CacheKey)
    requires StoredOk(cfg, stored, now) && CacheOk(cfg, stored, cache)
    ensures var l := LoadResponse(cfg, now, cache, key);
            l.Hit? ==> l.origin < |stored| &&
                       ServedFrom(cfg, Served(q, key, l.reply, l.stale, now, l.origin), stored[l.origin])
  {
    var l := LoadResponse(cfg, now, cache, key);
    if l.Hit? {
      var e := cache[Filed(cfg, key)];
      assert EntryOk(cfg, stored, Filed(cfg, key), e);
      var st := stored[e.origin];
      if !cfg.disableExpire && !l.stale {
        FreshHit(cfg, e, Served(q, key, l.reply, l.stale, now, l.origin), st);
      }
    }
  }

  lemma FreshHit(cfg: Config, e: Entry, sv: Served, st: Stored)
    requires e.reply == st.filing.kept && e.expireAt == st.at + Life(cfg, st.at, st.filing.ttl)
    requires st.at <= sv.at <= e.expireAt
    requires sv.reply.sections == Normalize(e.reply.sections, SecondsLeft(e.expireAt - sv.at))
    ensures exists left: nat :: FreshFrom(cfg, sv, st, left)
  {
    LeftIsNotMore(st.filing.ttl, e.expireAt - sv.at);
    assert FreshFrom(cfg, sv, st, SecondsLeft(e.expireAt - sv.at));
  }

  lemma LeftIsNotMore(ttl: nat, left: nat)
    requires left <= ttl * NANO
    ensures SecondsLeft(left) * NANO <= left + Slack(ttl)
  {
    SecondsLeftAreRight(left);
    LeftIsWithin(ttl, left);
  }

  lemma MissKeepsCache(cfg: Config, now: nat, cache: Cache, stored: seq<Stored>, key: CacheKey)
    requires CacheOk(cfg, stored, cache)
    ensures var l := LoadResponse(cfg, now, cache, key); l.Miss? ==> CacheOk(cfg, stored, l.cache)
  {
  }

  lemma MoreServed(cfg: Config, served: seq<Served>, stored: seq<Stored>, sv: Served)
    requires ServedOk(cfg, served, stored)
    requires KeyOk(sv.query, sv.key) && (sv.stale ==> !sv.query.options.disableOptimisticCache)
    requires sv.origin < |stored| && ServedFrom(cfg, sv, stored[sv.origin])
    ensures ServedOk(cfg, served + [sv], stored)
  {
  }

  lemma LoadKeepsCache(cfg: Config, s: State, q: Query, key: CacheKey)
    requires CacheInv(cfg, s) && KeyOk(q, key)
    ensures CacheInv(cfg, AfterLoad(s, q, key, LoadResponse(cfg, s.now, s.cache, key)))
  {
    var l := LoadResponse(cfg, s.now, s.cache, key);
    if Usable(q, l) {
      HitIsServedFrom(cfg, s.now, s.cache, s.stored, q, key);
      MoreServed(cfg, s.served, s.stored, Served(q, key, l.reply, l.stale, s.now, l.origin));
    } else {
      MissKeepsCache(cfg, s.now, s.cache, s.stored, key);
    }
  }

  lemma MoreStored(cfg: Config, served: seq<Served>, stored: seq<Stored>, st: Stored)
    requires ServedOk(cfg, served, stored)
    ensures ServedOk(cfg, served, stored + [st])
  {
    forall n | 0 <= n < |served|
      ensures served[n].origin < |stored| && (stored + [st])[served[n].origin] == stored[served[n].origin]
    {
    }
  }

  lemma StoreKeepsEntries(cfg: Config, now: nat, cache: Cache, stored: seq<Stored>, st: Stored)
    requires CacheOk(cfg, stored, cache) && st.at == now && st.filing.ttl > 0
    ensures CacheOk(cfg, stored + [st],
                    StoreCache(cfg, now, cache, st.filing.key, st.filing.kept, st.filing.ttl, |stored|))
  {
    var cache' := StoreCache(cfg, now, cache, st.filing.key, st.filing.kept, st.filing.ttl, |stored|);
    forall k | k in cache' ensures EntryOk(cfg, stored + [st], k, cache'[k]) {
      if k != Filed(cfg, st.filing.key) {
        assert EntryOk(cfg, stored, k, cache[k]);
      }
    }
  }

  lemma FileKeepsCache(cfg: Config, s: State, q: Query, startEnvironment: nat, f: Filing)
    requires CacheInv(cfg, s) && FilingOk(cfg, q, startEnvironment, f)
    ensures CacheInv(cfg, File(cfg, s, q, startEnvironment, f))
  {
    if f.ttl > 0 {
      var st := Stored(q, f, startEnvironment, s.now);
      MoreStored(cfg, s.served, s.stored, st);
      StoreKeepsEntries(cfg, s.now, s.cache, s.stored, st);
    }
  }

  /** The parts the cache invariant speaks of. */
  predicate SameCache(s: State, s': State) {
    s'.now == s.now && s'.cache == s.cache && s'.stored == s.stored && s'.served == s.served
  }

  lemma SameCacheKeeps(cfg: Config, s: State, s': State)
    requires CacheInv(cfg, s) && SameCache(s, s')
    ensures CacheInv(cfg, s')
  {
  }

  predicate TouchesCache(pc: Pc) {
    pc.Peeking? || pc.Looking? || pc.Storing?
  }

  lemma OtherStepsKeepCache(cfg: Config, s: State, id: nat)
    requires IsExchangeAt(s, id) && CanAct(s.closed, s.threads[id]) && !TouchesCache(s.threads[id].pc)
    ensures SameCache(s, ActExchange(cfg, s, id))
  {
  }

  lemma LoadingKeepsCache(cfg: Config, s: State, id: nat)
    requires CacheInv(cfg, s) && IsExchangeAt(s, id) && ThreadOk(cfg, s.threads[id]) && CanAct(s.closed, s.threads[id])
    requires s.threads[id].pc.Peeking? || s.threads[id].pc.Looking?
    ensures CacheInv(cfg, ActExchange(cfg, s, id))
  {
    var t := s.threads[id];
    var key := if t.pc.Peeking? then NewKey(s.environments, t.query) else t.key.value;
    LoadKeepsCache(cfg, s, t.query, key);
    var s' := AfterLoad(s, t.query, key, LoadResponse(cfg, s.now, s.cache, key));
    SameCacheKeeps(cfg, s', ActExchange(cfg, s, id));
  }

  lemma StoringKeepsCache(cfg: Config, s: State, id: nat)
    requires CacheInv(cfg, s) && IsExchangeAt(s, id) && ThreadOk(cfg, s.threads[id]) && s.threads[id].pc.Storing?
    ensures CacheInv(cfg, ActExchange(cfg, s, id))
  {
    var t := s.threads[id];
    FileKeepsCache(cfg, s, t.query, t.key.value.environment, t.pc.filing);
    SameCacheKeeps(cfg, File(cfg, s, t.query, t.key.value.environment, t.pc.filing), ActExchange(cfg, s, id));
  }

  lemma ExchangeKeepsCache(cfg: Config, s: State, id: nat)
    requires CacheInv(cfg, s) && IsExchangeAt(s, id) && ThreadOk(cfg, s.threads[id]) && CanAct(s.closed, s.threads[id])
    ensures CacheInv(cfg, ActExchange(cfg, s, id))
  {
    var t := s.threads[id];
    if t.pc.Storing? {
      StoringKeepsCache(cfg, s, id);
    } else if TouchesCache(t.pc) {
      LoadingKeepsCache(cfg, s, id);
    } else {
      OtherStepsKeepCache(cfg, s, id);
      SameCacheKeeps(cfg, s, ActExchange(cfg, s, id));
    }
  }

  lemma RefreshKeepsCache(cfg: Config, s: State, id: nat)
    requires CacheInv(cfg, s) && id in s.threads && s.threads[id].Refresh?
    requires ThreadOk(cfg, s.threads[id]) && CanAct(s.closed, s.threads[id])
    ensures CacheInv(cfg, ActRefresh(cfg, s, id))
  {
    var t := s.threads[id];
    var s' := ActRefresh(cfg, s, id);
    match t.rpc
    case Filling(f) =>
      FileKeepsCache(cfg, s, t.query, t.refreshKey.environment, f);
      SameCacheKeeps(cfg, File(cfg, s, t.query, t.refreshKey.environment, f), s');
    case Judging(_) => SameCacheKeeps(cfg, s, s');
    case Ending => SameCacheKeeps(cfg, s, s');
  }

  lemma TickKeepsCache(cfg: Config, s: State, elapsed: nat)
    requires CacheInv(cfg, s)
    ensures CacheInv(cfg, s.(now := s.now + elapsed))
  {
  }

  lemma EvictKeepsCache(cfg: Config, s: State, place: CacheKey)
    requires CacheInv(cfg, s)
    ensures CacheInv(cfg, s.(cache := s.cache - {place}))
  {
  }

  lemma CacheKept(cfg: Config, s: State, e: Event)
    requires Enabled(s, e) && ThreadsOk(cfg, s.threads) && CacheInv(cfg, s)
    ensures CacheInv(cfg, Next(cfg, s, e))
  {
    match e
    case Act(id) =>
      if s.threads[id].Exchange? {
        ExchangeKeepsCache(cfg, s, id);
      } else {
        RefreshKeepsCache(cfg, s, id);
      }
    case Tick(elapsed) => TickKeepsCache(cfg, s, elapsed);
    case Evict(place) => EvictKeepsCache(cfg, s, place);
    case _ =>
      OthersLeaveCache(cfg, s, e);
      SameCacheKeeps(cfg, s, Next(cfg, s, e));
  }

  lemma OthersLeaveCache(cfg: Config, s: State, e: Event)
    requires Enabled(s, e) && !e.Act? && !e.Tick? && !e.Evict?
    ensures SameCache(s, Next(cfg, s, e))
  {
  }

  // ---- channels, event by event ----

  lemma CacheStepsKeepClosed(cfg: Config, s: State, id: nat)
    requires IsExchangeAt(s, id) && CanAct(s.closed, s.threads[id]) && TouchesCache(s.threads[id].pc)
    ensures ActExchange(cfg, s, id).closed == s.closed
  {
    var t := s.threads[id];
    if !t.pc.Storing? {
      var key := if t.pc.Peeking? then NewKey(s.environments, t.query) else t.key.value;
      assert AfterLoad(s, t.query, key, LoadResponse(cfg, s.now, s.cache, key)).closed == s.closed;
    }
  }

  lemma OtherStepsKeepClosed(cfg: Config, s: State, id: nat)
    requires IsExchangeAt(s, id) && CanAct(s.closed, s.threads[id]) && !TouchesCache(s.threads[id].pc)
    ensures ActExchange(cfg, s, id).closed == s.closed + if s.threads[id].pc.Closing? then {id} else {}
  {
    assert s.closed + {} == s.closed;
  }

  /** A closed channel stays closed. */
  lemma ClosedStays(cfg: Config, s: State, e: Event)
    requires Enabled(s, e)
    ensures s.closed <= Next(cfg, s, e).closed
  {
    if e.Act? && s.threads[e.id].Exchange? {
      if TouchesCache(s.threads[e.id].pc) {
        CacheStepsKeepClosed(cfg, s, e.id);
      } else {
        OtherStepsKeepClosed(cfg, s, e.id);
      }
    }
  }

  lemma LoadKeepsWaited(cfg: Config, s: State, id: nat)
    requires IsExchangeAt(s, id) && CanAct(s.closed, s.threads[id])
    requires s.threads[id].pc.Peeking? || s.threads[id].pc.Looking?
    ensures var t' := ActExchange(cfg, s, id).threads[id]; t'.Exchange? && t'.waited == s.threads[id].waited
  {
    var t := s.threads[id];
    if t.pc.Peeking? {
      var key := NewKey(s.environments, t.query);
      assert ActExchange(cfg, s, id).threads[id] == PeekThread(cfg, t, key, LoadResponse(cfg, s.now, s.cache, key));
    } else {
      assert ActExchange(cfg, s, id).threads[id] == LookThread(cfg, t, LoadResponse(cfg, s.now, s.cache, t.key.value));
    }
  }

  lemma MiddleStepsKeepWaited(cfg: Config, s: State, id: nat)
    requires IsExchangeAt(s, id) && CanAct(s.closed, s.threads[id])
    requires s.threads[id].pc.Entering? || s.threads[id].pc.Waiting? || s.threads[id].pc.Deciding?
    ensures var t, t' := s.threads[id], ActExchange(cfg, s, id).threads[id];
            t'.Exchange? && t'.waited == if t.pc.Waiting? then Some(t.pc.channel) else t.waited
  {
  }

  lemma LateStepsKeepWaited(cfg: Config, s: State, id: nat)
    requires IsExchangeAt(s, id) && CanAct(s.closed, s.threads[id])
    requires s.threads[id].pc.Storing? || s.threads[id].pc.Leaving? || s.threads[id].pc.Closing?
    ensures var t' := ActExchange(cfg, s, id).threads[id]; t'.Exchange? && t'.waited == s.threads[id].waited
  {
  }

  lemma FinishKeepsWaited(cfg: Config, s: State, id: nat)
    requires IsExchangeAt(s, id) && s.threads[id].pc.Finishing?
    ensures var t' := ActExchange(cfg, s, id).threads[id]; t'.Exchange? && t'.waited == s.threads[id].waited
  {
    assert ActExchange(cfg, s, id).threads[id] == FinishThread(cfg, s.environments, s.threads[id]);
  }

  lemma ActKeepsWaited(cfg: Config, s: State, id: nat)
    requires IsExchangeAt(s, id) && CanAct(s.closed, s.threads[id])
    ensures var t, t' := s.threads[id], ActExchange(cfg, s, id).threads[id];
            t'.Exchange? && t'.waited == if t.pc.Waiting? then Some(t.pc.channel) else t.waited
  {
    var pc := s.threads[id].pc;
    if pc.Peeking? || pc.Looking? {
      LoadKeepsWaited(cfg, s, id);
    } else if pc.Finishing? {
      FinishKeepsWaited(cfg, s, id);
    } else if pc.Storing? || pc.Leaving? || pc.Closing? {
      LateStepsKeepWaited(cfg, s, id);
    } else {
      MiddleStepsKeepWaited(cfg, s, id);
    }
  }

  /** An exchange notes a channel only when that is closed. */
  lemma WaitedKept(cfg: Config, s: State, e: Event)
    requires Enabled(s, e) && ThreadsOk(cfg, s.threads) && WaitedClosed(s.closed, s.threads)
    ensures WaitedClosed(Next(cfg, s, e).closed, Next(cfg, s, e).threads)
  {
    if e.Act? && s.threads[e.id].Exchange? {
      ClosedStays(cfg, s, e);
      ActExchangeOk(cfg, s, e.id);
      ActKeepsWaited(cfg, s, e.id);
    } else {
      OthersKeepWaited(cfg, s, e);
    }
  }

  lemma OthersKeepWaited(cfg: Config, s: State, e: Event)
    requires Enabled(s, e) && WaitedClosed(s.closed, s.threads) && !(e.Act? && s.threads[e.id].Exchange?)
    ensures WaitedClosed(Next(cfg, s, e).closed, Next(cfg, s, e).threads)
  {
    ClosedStays(cfg, s, e);
  }

  // ---- runs ----

  lemma StepKeepsInv(cfg: Config, s: State, e: Event)
    requires Inv(cfg, s) && Enabled(s, e)
    ensures Inv(cfg, Next(cfg, s, e))
  {
    ThreadsKept(cfg, s, e);
    LocksKept(cfg, s, e);
    WaitedKept(cfg, s, e);
    RefreshesKept(cfg, s, e);
    CacheKept(cfg, s, e);
  }

  lemma {:induction false} RunKeepsInv(cfg: Config, s: State, events: seq<Event>, last: State)
    requires Inv(cfg, s) && IsRun(cfg, s, events, last)
    ensures Inv(cfg, last)
    decreases |events|
  {
    if events != [] {
      StepKeepsInv(cfg, s, events[0]);
      RunKeepsInv(cfg, Next(cfg, s, events[0]), events[1..], last);
    }
  }

  /** A state some run of a fresh client ends in. */
  ghost predicate Reachable(cfg: Config, s: State) {
    exists environments, events :: IsRun(cfg, Init(environments), events, s)
  }

  lemma ReachableInv(cfg: Config, s: State)
    requires Reachable(cfg, s)
    ensures Inv(cfg, s)
  {
    var environments, events :| IsRun(cfg, Init(environments), events, s);
    RunKeepsInv(cfg, Init(environments), events, s);
  }

  // ---- single flight ----

  /** One unreleased owner per key, and an entry in the lock map exactly while there is one. */
  lemma SingleFlight(cfg: Config, s: State, lock: ExchangeKey)
    requires Reachable(cfg, s)
    ensures lock in s.locks <==> exists id :: id in s.threads && Holds(s.threads[id], lock)
    ensures forall i, j ::
              i in s.threads && j in s.threads && Holds(s.threads[i], lock) && Holds(s.threads[j], lock) ==> i == j
  {
    ReachableInv(cfg, s);
  }

  /** No exchange closes a channel twice, and none that made one ends without closing it. */
  lemma ClosedExactlyOnce(cfg: Config, s: State, id: nat)
    requires Reachable(cfg, s) && IsExchangeAt(s, id)
    ensures s.threads[id].pc.Closing? ==> id !in s.closed && HasChannel(s.threads[id])
    ensures s.threads[id].pc.Done? ==> (id in s.closed <==> HasChannel(s.threads[id]))
  {
    ReachableInv(cfg, s);
    assert ThreadOk(cfg, s.threads[id]);
  }

  /** How far an owner is from its release. */
  function ToRelease(pc: Pc): nat {
    match pc
    case Looking(_) => 7
    case Deciding => 6
    case Exchanging => 5
    case Finishing(_) => 4
    case Storing(_) => 3
    case Leaving(_, _) => 2
    case Closing(_, _) => 1
    case _ => 0
  }

  /** The event belongs to the thread: its own step, or its transport's answer. */
  predicate IsOf(e: Event, id: nat) {
    (e.Act? || e.Cancel? || e.Refuse? || e.Arrive? || e.Fail? || e.Spawn?) && e.id == id
  }

  /** A waiter waits on one channel, which is closed or belongs to an owner that itself waits for
      nobody: it is asking its transport, or can act at once. */
  lemma WaiterIsOwed(cfg: Config, s: State, id: nat)
    requires Reachable(cfg, s) && IsExchangeAt(s, id) && s.threads[id].pc.Waiting?
    ensures var channel := s.threads[id].pc.channel;
            || channel in s.closed
            || (&& IsExchangeAt(s, channel) && s.threads[channel].role.Owner? && channel != id
                && WaitsOn(s.threads[channel]).None?
                && (s.threads[channel].pc.Exchanging? || CanAct(s.closed, s.threads[channel])))
  {
    ReachableInv(cfg, s);
    var channel := s.threads[id].pc.channel;
    assert WaitsOn(s.threads[id]) == Some(channel);
    assert ThreadOk(cfg, s.threads[channel]) && ThreadOk(cfg, s.threads[id]);
  }

  /** The exchange is nearer its release, or has released. */
  predicate Nearer(s: State, s': State, id: nat)
    requires IsExchangeAt(s, id)
  {
    || id in s'.closed
    || (IsExchangeAt(s', id) && s'.threads[id].role == s.threads[id].role &&
        ToRelease(s'.threads[id].pc) < ToRelease(s.threads[id].pc))
  }

  lemma EarlyOwnerStep(cfg: Config, s: State, id: nat)
    requires IsExchangeAt(s, id) && RoleOk(s.threads[id]) && s.threads[id].role.Owner? &&
             CanAct(s.closed, s.threads[id])
    requires s.threads[id].pc.Looking? || s.threads[id].pc.Deciding? || s.threads[id].pc.Finishing?
    ensures Nearer(s, ActExchange(cfg, s, id), id)
  {
  }

  lemma LateOwnerStep(cfg: Config, s: State, id: nat)
    requires IsExchangeAt(s, id) && s.threads[id].role.Owner? && CanAct(s.closed, s.threads[id])
    requires s.threads[id].pc.Storing? || s.threads[id].pc.Leaving? || s.threads[id].pc.Closing?
    ensures Nearer(s, ActExchange(cfg, s, id), id)
  {
  }

  lemma OthersKeepThread(cfg: Config, s: State, id: nat, other: nat)
    requires Enabled(s, Act(id)) && ThreadOk(cfg, s.threads[id]) && other in s.threads && id != other
    ensures var s' := Next(cfg, s, Act(id)); other in s'.threads && s'.threads[other] == s.threads[other]
  {
    if s.threads[id].Exchange? {
      ActExchangeOk(cfg, s, id);
    } else {
      ActRefreshOk(cfg, s, id);
    }
  }

  lemma AnswerNears(cfg: Config, s: State, e: Event, id: nat)
    requires Enabled(s, e) && !e.Act? && IsExchangeAt(s, id) && RoleOk(s.threads[id]) && s.threads[id].role.Owner?
    ensures var s' := Next(cfg, s, e);
            if IsOf(e, id) then Nearer(s, s', id) else IsExchangeAt(s', id) && s'.threads[id] == s.threads[id]
  {
  }

  /** Whatever happens to an owner brings its release nearer, and nothing else moves it. */
  lemma OwnerNearsRelease(cfg: Config, s: State, e: Event, id: nat)
    requires Inv(cfg, s) && IsExchangeAt(s, id) && s.threads[id].role.Owner? && Enabled(s, e)
    ensures var s' := Next(cfg, s, e);
            if IsOf(e, id) then Nearer(s, s', id) else IsExchangeAt(s', id) && s'.threads[id] == s.threads[id]
  {
    assert ThreadOk(cfg, s.threads[id]);
    if !e.Act? {
      AnswerNears(cfg, s, e, id);
    } else if e.id != id {
      OthersKeepThread(cfg, s, e.id, id);
    } else if s.threads[id].pc.Storing? || s.threads[id].pc.Leaving? || s.threads[id].pc.Closing? {
      LateOwnerStep(cfg, s, id);
    } else {
      EarlyOwnerStep(cfg, s, id);
    }
  }

  /** The number of the thread's own events. */
  function EventsOf(events: seq<Event>, id: nat): nat {
    if events == [] then 0 else (if IsOf(events[0], id) then 1 else 0) + EventsOf(events[1..], id)
  }

  lemma {:induction false} ClosedStaysInRun(cfg: Config, s: State, events: seq<Event>, last: State, id: nat)
    requires IsRun(cfg, s, events, last) && id in s.closed
    ensures id in last.closed
    decreases |events|
  {
    if events != [] {
      ClosedStays(cfg, s, events[0]);
      ClosedStaysInRun(cfg, Next(cfg, s, events[0]), events[1..], last, id);
    }
  }

  /** An owner that has not released: it still owns, each of its events has brought it nearer, and
      it is asking its transport or can act at once. */
  ghost predicate StillOwns(s: State, last: State, id: nat, steps: nat)
    requires IsExchangeAt(s, id)
  {
    && IsExchangeAt(last, id) && last.threads[id].role == s.threads[id].role
    && steps + ToRelease(last.threads[id].pc) <= ToRelease(s.threads[id].pc)
    && (last.threads[id].pc.Exchanging? || CanAct(last.closed, last.threads[id]))
  }

  lemma {:induction false} OwnerCountsDown(cfg: Config, s: State, events: seq<Event>, last: State, id: nat)
    requires Inv(cfg, s) && IsRun(cfg, s, events, last) && IsExchangeAt(s, id) && s.threads[id].role.Owner?
    ensures id in last.closed || StillOwns(s, last, id, EventsOf(events, id))
    decreases |events|
  {
    if events == [] {
      OwnerCanGoOn(cfg, s, id);
    } else {
      var s' := Next(cfg, s, events[0]);
      OwnerNearsRelease(cfg, s, events[0], id);
      StepKeepsInv(cfg, s, events[0]);
      if id in s'.closed {
        ClosedStaysInRun(cfg, s', events[1..], last, id);
      } else {
        OwnerCountsDown(cfg, s', events[1..], last, id);
      }
    }
  }

  lemma OwnerCanGoOn(cfg: Config, s: State, id: nat)
    requires Inv(cfg, s) && IsExchangeAt(s, id) && s.threads[id].role.Owner?
    ensures s.threads[id].pc.Exchanging? || CanAct(s.closed, s.threads[id])
  {
    assert ThreadOk(cfg, s.threads[id]);
  }

  /** However a run goes on from an owner, on every path, it has closed its channel or is nearer to
      that by each event of its own, at most seven in all, and waits for nothing but its transport:
      every waiter is let go if every transport answers or fails. */
  lemma OwnerReleases(cfg: Config, s: State, events: seq<Event>, last: State, id: nat)
    requires Reachable(cfg, s) && IsRun(cfg, s, events, last) && IsExchangeAt(s, id) && s.threads[id].role.Owner?
    ensures id in last.closed || StillOwns(s, last, id, EventsOf(events, id))
    ensures EventsOf(events, id) >= ToRelease(s.threads[id].pc) ==> id in last.closed
  {
    ReachableInv(cfg, s);
    OwnerCountsDown(cfg, s, events, last, id);
    RunKeepsInv(cfg, s, events, last);
    if id !in last.closed {
      assert ThreadOk(cfg, last.threads[id]);
    }
  }

  /** A caching exchange that owns no lock goes to the transport only after the channel it waited
      on was closed: at any time the exchanges under a key that are past the wait are its one owner
      and waiters let go by an owner that has released. */
  lemma OnlyWokenWaitersSend(cfg: Config, s: State, id: nat)
    requires Reachable(cfg, s) && IsExchangeAt(s, id)
    requires s.threads[id].query.caches && s.threads[id].role.Free? && SendsNext(s.threads[id].pc)
    ensures var channel := s.threads[id].waited;
            && channel.Some? && channel.value in s.closed
            && IsExchangeAt(s, channel.value) && s.threads[channel.value].role.Released? && channel.value != id
  {
    ReachableInv(cfg, s);
    assert ThreadOk(cfg, s.threads[id]);
  }

  // ---- refreshes ----

  /** At most one refresh per key runs, and the key is marked exactly while it does. */
  lemma OneRefreshPerKey(cfg: Config, s: State, key: CacheKey)
    requires Reachable(cfg, s)
    ensures key in s.refreshing <==> exists id :: id in s.threads && Refreshes(s.threads[id], key)
    ensures forall i, j ::
              i in s.threads && j in s.threads && Refreshes(s.threads[i], key) && Refreshes(s.threads[j], key) ==>
                i == j
  {
    ReachableInv(cfg, s);
  }

  // ---- the cache ----

  /** What an exchange starts to file is filed under the environment of its transport at that moment. */
  lemma ExchangeFilesUnderCurrent(cfg: Config, environments: Environments, t: Thread)
    requires t.Exchange? && ThreadOk(cfg, t) && t.pc.Finishing?
    ensures var t' := FinishThread(cfg, environments, t);
            t'.Exchange? && t'.pc.Storing? ==> t'.pc.filing.key.environment == EnvironmentOf(environments, t.query.tag)
  {
    FinishOk(cfg, environments, t);
  }

  /** The same for a refresh. */
  lemma RefreshFilesUnderCurrent(cfg: Config, environments: Environments, t: Thread)
    requires t.Refresh? && ThreadOk(cfg, t) && t.rpc.Judging?
    ensures var t' := JudgeThread(cfg, environments, t);
            t'.Refresh? && t'.rpc.Filling? ==> t'.rpc.filing.key.environment == EnvironmentOf(environments, t.query.tag)
  {
    JudgeOk(cfg, environments, t);
  }

  /** Every entry was filed by a store: a cacheable reply, accepted by its query's checker, with a
      positive time to live, under the environment read when its query finished, which is the one
      it started in unless that was unset. */
  lemma EntriesWereFiled(cfg: Config, s: State, place: CacheKey)
    requires Reachable(cfg, s) && place in s.cache
    ensures var e := s.cache[place];
            && e.origin < |s.stored|
            && var st := s.stored[e.origin];
               && FilingOk(cfg, st.query, st.startEnvironment, st.filing)
               && place == Filed(cfg, st.filing.key) && place.environment == st.filing.finishEnvironment
               && e.reply == st.filing.kept
               && st.filing.ttl > 0 && e.expireAt == st.at + Life(cfg, st.at, st.filing.ttl)
               && Uniform(e.reply.sections, st.filing.ttl)
  {
    ReachableInv(cfg, s);
    var st := s.stored[s.cache[place].origin];
    AppliedIsUniform(st.query.question.qtype, st.query.options, st.filing.raw.sections);
  }

  /** Expiry on: a cached answer that is not stale has been kept for an age that, with the time to
      live on each of its records, is at most the life of its entry, up to the slack of the double
      the code goes through: none below 2^24 seconds, never more than 238 nanoseconds. A stale one
      was only served inside the optimistic window that begins where that life ends, to a query
      that allows it, with a time to live of 1. The life is the stored time to live, less than a
      unit of the cache cut off. Without a rewrite, the stored one is the response's own. */
  lemma ServedIsFresh(cfg: Config, s: State, n: nat)
    requires Reachable(cfg, s) && n < |s.served| && !cfg.disableExpire
    ensures var sv := s.served[n];
            && sv.origin < |s.stored|
            && var st := s.stored[sv.origin];
               var life := Life(cfg, st.at, st.filing.ttl);
               && st.at <= sv.at && Filed(cfg, sv.key) == Filed(cfg, st.filing.key) && KeyOk(sv.query, sv.key)
               && (st.query.options.rewriteTTL.None? ==> IsTimeToLive(st.filing.raw.sections, st.filing.ttl))
               && (sv.stale ==> Uniform(sv.reply.sections, 1) && !sv.query.options.disableOptimisticCache &&
                                life < sv.at - st.at < life + cfg.optimisticTimeout)
               && (!sv.stale ==> forall i :: 0 <= i < |sv.reply.sections.All()| && !sv.reply.sections.All()[i].Opt? ==>
                     sv.at - st.at + sv.reply.sections.All()[i].ttl * NANO <= life + Slack(st.filing.ttl))
               && st.filing.ttl * NANO - cfg.DeadlineUnit() < life <= st.filing.ttl * NANO
               && Slack(st.filing.ttl) <= 238 && (st.filing.ttl < 0x100_0000 ==> Slack(st.filing.ttl) == 0)
  {
    ReachableInv(cfg, s);
    var sv := s.served[n];
    var st := s.stored[sv.origin];
    assert ServedFrom(cfg, sv, st);
    assert FilingOk(cfg, st.query, st.startEnvironment, st.filing);
    SlackGrows(0, st.filing.ttl);
    if sv.stale {
      NormalizeIsUniform(st.filing.kept.sections, 1);
    } else {
      var left: nat :| FreshFrom(cfg, sv, st, left);
      NormalizeIsUniform(st.filing.kept.sections, left);
    }
  }

  /** An exchange that finishes files its reply exactly when the cache is in use, the reply can be
      cached and is accepted, and the environment is unset at the start or has not changed. */
  lemma FilesExactlyWhen(cfg: Config, environments: Environments, t: Thread)
    requires t.Exchange? && ThreadOk(cfg, t) && t.pc.Finishing?
    ensures FinishThread(cfg, environments, t).pc.Storing? <==>
            && t.query.caches && Cacheable(t.pc.raw) && cfg.Accepts(t.query, t.pc.raw)
            && (t.key.value.environment == 0 || t.key.value.environment == EnvironmentOf(environments, t.query.tag))
  {
    if t.query.caches {
      assert KeyOk(t.query, t.key.value);
    }
  }

  /** What an exchange has just filed is what a load under its key finds, with its whole time to
      live or, where the cache cut too much off its deadline, with a second less. */
  lemma FiledIsServed(cfg: Config, s: State, id: nat)
    requires Reachable(cfg, s) && IsExchangeAt(s, id) && s.threads[id].pc.Storing? && s.threads[id].pc.filing.ttl > 0
    ensures var f := s.threads[id].pc.filing;
            && s.threads[id].key.Some?
            && var s' := ActExchange(cfg, s, id);
               LoadResponse(cfg, s'.now, s'.cache, f.key) == Hit(AtOnce(cfg, s.now, f.kept, f.ttl), false, |s.stored|)
  {
    ReachableInv(cfg, s);
    var t := s.threads[id];
    assert ThreadOk(cfg, t);
    var f := t.pc.filing;
    AppliedIsUniform(t.query.question.qtype, t.query.options, f.raw.sections);
    StoreThenLoad(cfg, s.cache, f.key, f.kept, f.ttl, |s.stored|, s.now);
  }
}
