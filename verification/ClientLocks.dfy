/** Single flight: every event keeps the lock map, the channels and the waiters in step, and the
    background refreshes one per key. */
module ClientLocks {
  import opened Basics
  import opened ResponseTtl
  import opened ClientModel
  import opened ClientMachine
  import opened ClientInvariant

  type Threads = map<nat, Thread>
  type Locks = map<ExchangeKey, nat>

  ghost predicate LocksAgree(locks: Locks, closed: set<nat>, threads: Threads) {
    LocksMatch(locks, threads) && ClosedMatch(closed, threads) && WaitsMatch(threads)
  }

  // ---- steps that leave the locks alone ----

  /** The step neither takes nor gives back a lock, and waits on nothing new. */
  predicate Quiet(t: Thread, t': Thread) {
    && t.Exchange? == t'.Exchange?
    && (t.Exchange? ==> t'.role == t.role && (t.role.Owner? ==> t'.pc.Closing? == t.pc.Closing?))
    && (WaitsOn(t').None? || WaitsOn(t') == WaitsOn(t))
  }

  lemma QuietKeeps(locks: Locks, closed: set<nat>, threads: Threads, id: nat, t': Thread)
    requires LocksAgree(locks, closed, threads) && id in threads && Quiet(threads[id], t')
    ensures LocksAgree(locks, closed, threads[id := t'])
  {
  }

  /** A new thread owns nothing and waits for nobody. */
  predicate IsNewcomer(t: Thread) {
    WaitsOn(t).None? && (t.Exchange? ==> t.role.Free?)
  }

  lemma NewcomerKeeps(locks: Locks, closed: set<nat>, threads: Threads, id: nat, t: Thread)
    requires LocksAgree(locks, closed, threads) && id !in threads && IsNewcomer(t)
    ensures LocksAgree(locks, closed, threads[id := t])
  {
  }

  lemma LookIsQuiet(cfg: Config, t: Thread, l: Loaded)
    requires t.Exchange? && RoleOk(t) && t.pc.Looking?
    ensures Quiet(t, LookThread(cfg, t, l))
  {
  }

  lemma PeekIsQuiet(cfg: Config, t: Thread, key: CacheKey, l: Loaded)
    requires t.Exchange? && RoleOk(t) && t.pc.Peeking?
    ensures Quiet(t, PeekThread(cfg, t, key, l))
  {
  }

  lemma FinishIsQuiet(cfg: Config, environments: Environments, t: Thread)
    requires t.Exchange? && t.pc.Finishing?
    ensures Quiet(t, FinishThread(cfg, environments, t))
  {
  }

  lemma AnswerIsQuiet(t: Thread, reply: Reply)
    requires IsAsking(t)
    ensures Quiet(t, AfterArrival(t, reply)) && Quiet(t, AfterFailure(t))
  {
  }

  // ---- steps that change them ----

  /** LoadOrStore stored: the exchange becomes the owner. */
  lemma AcquireKeeps(locks: Locks, closed: set<nat>, threads: Threads, id: nat, t': Thread, lock: ExchangeKey)
    requires LocksAgree(locks, closed, threads) && id in threads && lock !in locks
    requires threads[id].Exchange? && threads[id].role.Free?
    requires Holds(t', lock) && WaitsOn(t').None?
    ensures LocksAgree(locks[lock := id], closed, threads[id := t'])
  {
  }

  /** LoadOrStore loaded: the exchange will wait on the owner's channel. */
  lemma JoinKeeps(locks: Locks, closed: set<nat>, threads: Threads, id: nat, t': Thread, lock: ExchangeKey)
    requires LocksAgree(locks, closed, threads) && id in threads && lock in locks
    requires threads[id].Exchange? && threads[id].role.Free?
    requires t'.Exchange? && t'.role.Free? && WaitsOn(t') == Some(locks[lock])
    ensures LocksAgree(locks, closed, threads[id := t'])
  {
  }

  /** The owner deletes the entry. */
  lemma DeleteKeeps(locks: Locks, closed: set<nat>, threads: Threads, id: nat, t': Thread, lock: ExchangeKey)
    requires LocksAgree(locks, closed, threads) && id in threads && Holds(threads[id], lock)
    requires t'.Exchange? && t'.role == Owner(lock) && t'.pc.Closing?
    ensures LocksAgree(locks - {lock}, closed, threads[id := t'])
  {
    var threads' := threads[id := t'];
    assert locks[lock] == id;
    forall k | k in locks - {lock} ensures locks[k] in threads' && Holds(threads'[locks[k]], k) {
      assert Holds(threads[locks[k]], k);
    }
    forall i, k | i in threads' && Holds(threads'[i], k) ensures k in locks - {lock} && locks[k] == i {
      assert i != id && Holds(threads[i], k);
    }
    WaitersKept(threads, id, t');
  }

  lemma WaitersKept(threads: Threads, id: nat, t': Thread)
    requires WaitsMatch(threads) && HasChannel(t') && WaitsOn(t').None?
    ensures WaitsMatch(threads[id := t'])
  {
  }

  /** The owner closes its channel. */
  lemma CloseKeeps(locks: Locks, closed: set<nat>, threads: Threads, id: nat, t': Thread)
    requires LocksAgree(locks, closed, threads) && id in threads
    requires threads[id].Exchange? && threads[id].role.Owner? && threads[id].pc.Closing?
    requires t'.Exchange? && t'.role.Released? && WaitsOn(t').None?
    ensures LocksAgree(locks, closed + {id}, threads[id := t'])
  {
  }

  // ---- every event ----

  lemma EnterKeepsLocks(s: State, id: nat)
    requires LockInv(s) && IsExchangeAt(s, id) && RoleOk(s.threads[id]) && s.threads[id].pc.Entering?
    ensures LockInv(Enter(s, id))
  {
    var t := s.threads[id];
    var t' := EnterThread(s.environments, s.locks, t);
    var lock := ExchangeKey(NewKey(s.environments, t.query), t.query.options.timeout);
    if t'.role.Owner? {
      AcquireKeeps(s.locks, s.closed, s.threads, id, t', lock);
    } else if t'.pc.Looking? {
      JoinKeeps(s.locks, s.closed, s.threads, id, t', lock);
    } else {
      QuietKeeps(s.locks, s.closed, s.threads, id, t');
    }
  }

  lemma ReleaseKeepsLocks(s: State, id: nat)
    requires LockInv(s) && IsExchangeAt(s, id) && RoleOk(s.threads[id])
    ensures s.threads[id].pc.Leaving? ==> LockInv(Leave(s, id))
    ensures s.threads[id].pc.Closing? ==> LockInv(Close(s, id))
  {
    var t := s.threads[id];
    if t.pc.Leaving? {
      if t.role.Owner? {
        DeleteKeeps(s.locks, s.closed, s.threads, id, LeaveThread(t), t.role.lock);
      } else {
        QuietKeeps(s.locks, s.closed, s.threads, id, LeaveThread(t));
      }
    } else if t.pc.Closing? {
      CloseKeeps(s.locks, s.closed, s.threads, id, CloseThread(t));
    }
  }

  lemma LoadKeepsLocks(cfg: Config, s: State, id: nat)
    requires LockInv(s) && IsExchangeAt(s, id) && RoleOk(s.threads[id]) && CanAct(s.closed, s.threads[id])
    requires s.threads[id].pc.Peeking? || s.threads[id].pc.Looking?
    ensures LockInv(ActExchange(cfg, s, id))
  {
    var t := s.threads[id];
    if t.pc.Peeking? {
      var key := NewKey(s.environments, t.query);
      var l := LoadResponse(cfg, s.now, s.cache, key);
      PeekIsQuiet(cfg, t, key, l);
      QuietKeeps(s.locks, s.closed, s.threads, id, PeekThread(cfg, t, key, l));
    } else {
      var l := LoadResponse(cfg, s.now, s.cache, t.key.value);
      LookIsQuiet(cfg, t, l);
      QuietKeeps(s.locks, s.closed, s.threads, id, LookThread(cfg, t, l));
    }
  }

  lemma ExchangeKeepsLocks(cfg: Config, s: State, id: nat)
    requires LockInv(s) && IsExchangeAt(s, id) && RoleOk(s.threads[id]) && CanAct(s.closed, s.threads[id])
    ensures LockInv(ActExchange(cfg, s, id))
  {
    var t := s.threads[id];
    match t.pc
    case Peeking => LoadKeepsLocks(cfg, s, id);
    case Entering => EnterKeepsLocks(s, id);
    case Looking(_) => LoadKeepsLocks(cfg, s, id);
    case Waiting(_) => QuietKeeps(s.locks, s.closed, s.threads, id, WakeThread(s.environments, t));
    case Deciding => QuietKeeps(s.locks, s.closed, s.threads, id, t.(pc := Exchanging));
    case Finishing(_) =>
      FinishIsQuiet(cfg, s.environments, t);
      QuietKeeps(s.locks, s.closed, s.threads, id, FinishThread(cfg, s.environments, t));
    case Storing(f) => QuietKeeps(s.locks, s.closed, s.threads, id, t.(pc := Leaving(Answered(f.kept), false)));
    case Leaving(_, _) => ReleaseKeepsLocks(s, id);
    case Closing(_, _) => ReleaseKeepsLocks(s, id);
  }

  lemma RefreshKeepsLocks(cfg: Config, s: State, id: nat)
    requires LockInv(s) && id in s.threads && s.threads[id].Refresh? && CanAct(s.closed, s.threads[id])
    ensures LockInv(ActRefresh(cfg, s, id))
  {
    var t := s.threads[id];
    match t.rpc
    case Judging(_) => QuietKeeps(s.locks, s.closed, s.threads, id, JudgeThread(cfg, s.environments, t));
    case Filling(_) => QuietKeeps(s.locks, s.closed, s.threads, id, t.(rpc := Ending));
    case Ending => QuietKeeps(s.locks, s.closed, s.threads, id, t.(rpc := Gone));
  }

  lemma SpawnKeepsLocks(s: State, id: nat, refresher: nat)
    requires LockInv(s) && Enabled(s, Spawn(id, refresher)) && RoleOk(s.threads[id])
    ensures LockInv(SpawnRefresh(s, id, refresher))
  {
    var t := s.threads[id];
    var t' := t.(pc := Done(t.pc.result));
    QuietKeeps(s.locks, s.closed, s.threads, id, t');
    if t.key.value !in s.refreshing {
      NewcomerKeeps(s.locks, s.closed, s.threads[id := t'], refresher, Refresh(t.query, t.key.value, Fetching));
    }
  }

  lemma LocksKept(cfg: Config, s: State, e: Event)
    requires Enabled(s, e) && LockInv(s) && ThreadsOk(cfg, s.threads)
    ensures LockInv(Next(cfg, s, e))
  {
    match e
    case Act(id) =>
      if s.threads[id].Exchange? {
        ExchangeKeepsLocks(cfg, s, id);
      } else {
        RefreshKeepsLocks(cfg, s, id);
      }
    case Call(id, q, allowWait, lookup) =>
      NewcomerKeeps(s.locks, s.closed, s.threads, id, NewThread(q, allowWait, lookup));
    case Cancel(id) => QuietKeeps(s.locks, s.closed, s.threads, id, s.threads[id].(pc := Done(Failed)));
    case Refuse(id, cached) =>
      QuietKeeps(s.locks, s.closed, s.threads, id,
                 s.threads[id].(pc := Leaving(if cached then CachedRejected else Failed, false)));
    case Arrive(id, reply) =>
      AnswerIsQuiet(s.threads[id], reply);
      QuietKeeps(s.locks, s.closed, s.threads, id, AfterArrival(s.threads[id], reply));
    case Fail(id) =>
      AnswerIsQuiet(s.threads[id], Reply(0, Sections([], [], [])));
      QuietKeeps(s.locks, s.closed, s.threads, id, AfterFailure(s.threads[id]));
    case Spawn(id, refresher) => SpawnKeepsLocks(s, id, refresher);
    case Tick(_) =>
    case SetEnvironment(_, _) =>
    case Evict(_) =>
  }

  // ---- refreshes ----

  /** Whether a thread is a running refresh, and of what, does not change. */
  predicate SameRefresh(t: Thread, t': Thread) {
    t.Exchange? == t'.Exchange? && (t.Refresh? ==> t'.refreshKey == t.refreshKey && t'.rpc.Gone? == t.rpc.Gone?)
  }

  lemma SameRefreshKeeps(refreshing: map<CacheKey, nat>, threads: Threads, id: nat, t': Thread)
    requires RefreshesMatch(refreshing, threads) && id in threads && SameRefresh(threads[id], t')
    ensures RefreshesMatch(refreshing, threads[id := t'])
  {
  }

  lemma StartKeeps(refreshing: map<CacheKey, nat>, threads: Threads, id: nat, t: Thread, key: CacheKey)
    requires RefreshesMatch(refreshing, threads) && id !in threads && key !in refreshing && Refreshes(t, key)
    ensures RefreshesMatch(refreshing[key := id], threads[id := t])
  {
  }

  lemma EndKeeps(refreshing: map<CacheKey, nat>, threads: Threads, id: nat, t': Thread, key: CacheKey)
    requires RefreshesMatch(refreshing, threads) && id in threads && Refreshes(threads[id], key)
    requires t'.Refresh? && t'.rpc.Gone?
    ensures RefreshesMatch(refreshing - {key}, threads[id := t'])
  {
    var threads' := threads[id := t'];
    assert refreshing[key] == id;
    forall k | k in refreshing - {key} ensures refreshing[k] in threads' && Refreshes(threads'[refreshing[k]], k) {
      assert Refreshes(threads[refreshing[k]], k);
    }
    forall i, k | i in threads' && Refreshes(threads'[i], k) ensures k in refreshing - {key} && refreshing[k] == i {
      assert i != id && Refreshes(threads[i], k);
    }
  }

  lemma PeekKeepsRefreshes(cfg: Config, s: State, id: nat)
    requires RefreshesMatch(s.refreshing, s.threads) && IsExchangeAt(s, id) && s.threads[id].pc.Peeking?
    ensures var s' := ActExchange(cfg, s, id); RefreshesMatch(s'.refreshing, s'.threads)
  {
    var t := s.threads[id];
    var key := NewKey(s.environments, t.query);
    var t' := PeekThread(cfg, t, key, LoadResponse(cfg, s.now, s.cache, key));
    SameRefreshKeeps(s.refreshing, s.threads, id, t');
    assert ActExchange(cfg, s, id).threads == s.threads[id := t'];
  }

  lemma LookKeepsRefreshes(cfg: Config, s: State, id: nat)
    requires RefreshesMatch(s.refreshing, s.threads) && IsExchangeAt(s, id)
    requires s.threads[id].pc.Looking? && s.threads[id].key.Some?
    ensures var s' := ActExchange(cfg, s, id); RefreshesMatch(s'.refreshing, s'.threads)
  {
    var t := s.threads[id];
    var t' := LookThread(cfg, t, LoadResponse(cfg, s.now, s.cache, t.key.value));
    SameRefreshKeeps(s.refreshing, s.threads, id, t');
    assert ActExchange(cfg, s, id).threads == s.threads[id := t'];
  }

  lemma ReleaseKeepsRefreshes(s: State, id: nat)
    requires RefreshesMatch(s.refreshing, s.threads) && IsExchangeAt(s, id)
    ensures s.threads[id].pc.Leaving? ==> var s' := Leave(s, id); RefreshesMatch(s'.refreshing, s'.threads)
    ensures s.threads[id].pc.Closing? ==> var s' := Close(s, id); RefreshesMatch(s'.refreshing, s'.threads)
  {
    var t := s.threads[id];
    if t.pc.Leaving? {
      SameRefreshKeeps(s.refreshing, s.threads, id, LeaveThread(t));
    } else if t.pc.Closing? {
      SameRefreshKeeps(s.refreshing, s.threads, id, CloseThread(t));
    }
  }

  lemma EnterKeepsRefreshes(s: State, id: nat)
    requires RefreshesMatch(s.refreshing, s.threads) && IsExchangeAt(s, id)
    ensures var s' := Enter(s, id); RefreshesMatch(s'.refreshing, s'.threads)
  {
    SameRefreshKeeps(s.refreshing, s.threads, id, EnterThread(s.environments, s.locks, s.threads[id]));
  }

  lemma ExchangeKeepsRefreshes(cfg: Config, s: State, id: nat)
    requires RefreshesMatch(s.refreshing, s.threads) && IsExchangeAt(s, id) && CanAct(s.closed, s.threads[id])
    ensures var s' := ActExchange(cfg, s, id); RefreshesMatch(s'.refreshing, s'.threads)
  {
    var t := s.threads[id];
    match t.pc
    case Peeking => PeekKeepsRefreshes(cfg, s, id);
    case Entering => EnterKeepsRefreshes(s, id);
    case Looking(_) => LookKeepsRefreshes(cfg, s, id);
    case Waiting(_) => SameRefreshKeeps(s.refreshing, s.threads, id, WakeThread(s.environments, t));
    case Deciding => SameRefreshKeeps(s.refreshing, s.threads, id, t.(pc := Exchanging));
    case Finishing(_) => SameRefreshKeeps(s.refreshing, s.threads, id, FinishThread(cfg, s.environments, t));
    case Storing(f) => SameRefreshKeeps(s.refreshing, s.threads, id, t.(pc := Leaving(Answered(f.kept), false)));
    case Leaving(_, _) => ReleaseKeepsRefreshes(s, id);
    case Closing(_, _) => ReleaseKeepsRefreshes(s, id);
  }

  lemma RefreshKeepsRefreshes(cfg: Config, s: State, id: nat)
    requires RefreshesMatch(s.refreshing, s.threads)
    requires id in s.threads && s.threads[id].Refresh? && CanAct(s.closed, s.threads[id])
    ensures var s' := ActRefresh(cfg, s, id); RefreshesMatch(s'.refreshing, s'.threads)
  {
    var t := s.threads[id];
    match t.rpc
    case Judging(_) => SameRefreshKeeps(s.refreshing, s.threads, id, JudgeThread(cfg, s.environments, t));
    case Filling(_) => SameRefreshKeeps(s.refreshing, s.threads, id, t.(rpc := Ending));
    case Ending => EndKeeps(s.refreshing, s.threads, id, t.(rpc := Gone), t.refreshKey);
  }

  lemma SpawnKeepsRefreshes(s: State, id: nat, refresher: nat)
    requires RefreshesMatch(s.refreshing, s.threads) && Enabled(s, Spawn(id, refresher))
    ensures var s' := SpawnRefresh(s, id, refresher); RefreshesMatch(s'.refreshing, s'.threads)
  {
    var t := s.threads[id];
    var t' := t.(pc := Done(t.pc.result));
    SameRefreshKeeps(s.refreshing, s.threads, id, t');
    if t.key.value !in s.refreshing {
      StartKeeps(s.refreshing, s.threads[id := t'], refresher, Refresh(t.query, t.key.value, Fetching), t.key.value);
    }
  }

  lemma RefreshesKept(cfg: Config, s: State, e: Event)
    requires Enabled(s, e) && RefreshesMatch(s.refreshing, s.threads)
    ensures var s' := Next(cfg, s, e); RefreshesMatch(s'.refreshing, s'.threads)
  {
    match e
    case Act(id) =>
      if s.threads[id].Exchange? {
        ExchangeKeepsRefreshes(cfg, s, id);
      } else {
        RefreshKeepsRefreshes(cfg, s, id);
      }
    case Spawn(id, refresher) => SpawnKeepsRefreshes(s, id, refresher);
    case Arrive(id, reply) => SameRefreshKeeps(s.refreshing, s.threads, id, AfterArrival(s.threads[id], reply));
    case Fail(id) => SameRefreshKeeps(s.refreshing, s.threads, id, AfterFailure(s.threads[id]));
    case Cancel(id) => SameRefreshKeeps(s.refreshing, s.threads, id, s.threads[id].(pc := Done(Failed)));
    case Refuse(id, cached) =>
      SameRefreshKeeps(s.refreshing, s.threads, id,
                       s.threads[id].(pc := Leaving(if cached then CachedRejected else Failed, false)));
    case Call(id, q, allowWait, lookup) =>
    case Tick(_) =>
    case SetEnvironment(_, _) =>
    case Evict(_) =>
  }
}
