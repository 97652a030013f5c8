/** What every event of the DNS client keeps: who holds which lock, who waits for whom, which
    refreshes run, and where every cached and every served reply comes from. */
module ClientInvariant {
  import opened Basics
  import opened ResponseTtl
  import opened ClientModel
  import opened ClientMachine

  // ---- threads ----

  /** The key is one of the query's: its question, its transport and its subnet. */
  predicate KeyOk(q: Query, key: CacheKey) {
    key.question == q.question && key.tag == q.tag && key.subnet == q.subnet
  }

  /** A reply may be filed: cacheable, accepted by the query's checker, kept as the options ask,
      and under a key of the query whose environment is the one read when it finished, which is the
      one it started under, if that was set. */
  predicate FilingOk(cfg: Config, q: Query, startEnvironment: nat, f: Filing) {
    && Cacheable(f.raw) && cfg.Accepts(q, f.raw)
    && f.kept == Kept(q, f.raw) && f.ttl == GivenTtl(f.raw.sections, q.options)
    && KeyOk(q, f.key) && f.key.environment == f.finishEnvironment
    && (startEnvironment == f.key.environment || startEnvironment == 0)
  }

  predicate MayHold(pc: Pc) {
    match pc
    case Looking(cond) => cond.None?
    case Deciding | Exchanging | Finishing(_) | Storing(_) | Leaving(_, _) | Closing(_, _) => true
    case _ => false
  }

  predicate MustBeFree(pc: Pc) {
    pc.Peeking? || pc.Entering? || pc.Waiting? || (pc.Looking? && pc.cond.Some?)
  }

  predicate NeedsKey(pc: Pc) {
    match pc
    case Looking(_) | Waiting(_) | Storing(_) | Spawning(_) => true
    case Leaving(_, refresh) => refresh
    case Closing(_, refresh) => refresh
    case _ => false
  }

  predicate RoleOk(t: Thread)
    requires t.Exchange?
  {
    && (t.role.Owner? ==> MayHold(t.pc))
    && (MustBeFree(t.pc) ==> t.role.Free?)
    && (t.pc.Closing? ==> t.role.Owner?)
  }

  predicate DataOk(t: Thread)
    requires t.Exchange?
  {
    && (NeedsKey(t.pc) ==> t.key.Some?)
    && (t.pc.Peeking? || t.pc.Looking? || t.pc.Waiting? || t.pc.Storing? ==> t.query.caches)
    && (t.pc.Deciding? || t.pc.Exchanging? || t.pc.Finishing? ==> t.query.caches ==> t.key.Some?)
    && (t.key.Some? ==> KeyOk(t.query, t.key.value))
    && (t.query.caches && t.role.Free? && SendsNext(t.pc) ==> t.waited.Some?)
  }

  /** Past the wait, on the way to the transport or back from it. */
  predicate SendsNext(pc: Pc) {
    (pc.Looking? && pc.cond.None?) || pc.Deciding? || pc.Exchanging? || pc.Finishing? || pc.Storing?
  }

  predicate ThreadOk(cfg: Config, t: Thread) {
    if t.Exchange? then
      RoleOk(t) && DataOk(t) && (t.pc.Storing? ==> FilingOk(cfg, t.query, t.key.value.environment, t.pc.filing))
    else
      && KeyOk(t.query, t.refreshKey)
      && (t.rpc.Filling? ==> FilingOk(cfg, t.query, t.refreshKey.environment, t.rpc.filing))
  }

  ghost predicate ThreadsOk(cfg: Config, threads: map<nat, Thread>) {
    forall id :: id in threads ==> ThreadOk(cfg, threads[id])
  }

  // ---- locks ----

  /** Owns a lock whose map entry it has not deleted. */
  predicate Holds(t: Thread, lock: ExchangeKey) {
    t.Exchange? && t.role == Owner(lock) && !t.pc.Closing?
  }

  predicate HasChannel(t: Thread) {
    t.Exchange? && !t.role.Free?
  }

  /** The channel a thread waits on, or is about to. */
  function WaitsOn(t: Thread): Option<nat> {
    if t.Refresh? then None
    else if t.pc.Looking? then t.pc.cond
    else if t.pc.Waiting? then Some(t.pc.channel)
    else None
  }

  /** An entry exists exactly while its owner has not released it. */
  ghost predicate LocksMatch(locks: map<ExchangeKey, nat>, threads: map<nat, Thread>) {
    && (forall k :: k in locks ==> locks[k] in threads && Holds(threads[locks[k]], k))
    && (forall id, k :: id in threads && Holds(threads[id], k) ==> k in locks && locks[k] == id)
  }

  /** A channel is closed exactly when its maker has released. */
  ghost predicate ClosedMatch(closed: set<nat>, threads: map<nat, Thread>) {
    forall id :: id in closed <==> id in threads && threads[id].Exchange? && threads[id].role.Released?
  }

  /** A waiter waits on a channel somebody made. */
  ghost predicate WaitsMatch(threads: map<nat, Thread>) {
    forall id :: id in threads && WaitsOn(threads[id]).Some? ==>
                   WaitsOn(threads[id]).value in threads && HasChannel(threads[WaitsOn(threads[id]).value])
  }

  /** What woke an exchange has been closed. */
  ghost predicate WaitedClosed(closed: set<nat>, threads: map<nat, Thread>) {
    forall id :: id in threads && threads[id].Exchange? && threads[id].waited.Some? ==>
      threads[id].waited.value in closed
  }

  // ---- refreshes ----

  predicate Refreshes(t: Thread, key: CacheKey) {
    t.Refresh? && t.refreshKey == key && !t.rpc.Gone?
  }

  ghost predicate RefreshesMatch(refreshing: map<CacheKey, nat>, threads: map<nat, Thread>) {
    && (forall k :: k in refreshing ==> refreshing[k] in threads && Refreshes(threads[refreshing[k]], k))
    && (forall id, k :: id in threads && Refreshes(threads[id], k) ==> k in refreshing && refreshing[k] == id)
  }

  // ---- the cache ----

  ghost predicate StoredOk(cfg: Config, stored: seq<Stored>, now: nat) {
    forall n :: 0 <= n < |stored| ==>
                  && FilingOk(cfg, stored[n].query, stored[n].startEnvironment, stored[n].filing)
                  && stored[n].filing.ttl > 0 && stored[n].at <= now
  }

  /** The entry is what a store filed in its place. */
  predicate EntryOk(cfg: Config, stored: seq<Stored>, place: CacheKey, e: Entry) {
    && e.origin < |stored|
    && place == Filed(cfg, stored[e.origin].filing.key)
    && e.reply == stored[e.origin].filing.kept
    && e.expireAt == stored[e.origin].at + Life(cfg, stored[e.origin].at, stored[e.origin].filing.ttl)
  }

  ghost predicate CacheOk(cfg: Config, stored: seq<Stored>, cache: Cache) {
    forall k :: k in cache ==> EntryOk(cfg, stored, k, cache[k])
  }

  /** A served answer: from a store in the same place; not stale, with the time to live cut to
      what is left of the stored one; stale, inside the optimistic window and with 1. */
  ghost predicate ServedFrom(cfg: Config, sv: Served, st: Stored) {
    && Filed(cfg, sv.key) == Filed(cfg, st.filing.key)
    && st.at <= sv.at
    && sv.reply.rcode == st.filing.kept.rcode
    && (!cfg.disableExpire ==>
          if sv.stale then StaleFrom(cfg, sv, st) else exists left: nat :: FreshFrom(cfg, sv, st, left))
    && (cfg.disableExpire ==> !sv.stale && sv.reply == st.filing.kept)
  }

  ghost predicate FreshFrom(cfg: Config, sv: Served, st: Stored, left: nat) {
    && sv.reply.sections == Normalize(st.filing.kept.sections, left)
    && sv.at - st.at + left * NANO <= Life(cfg, st.at, st.filing.ttl) + Slack(st.filing.ttl)
  }

  ghost predicate StaleFrom(cfg: Config, sv: Served, st: Stored) {
    && sv.reply.sections == Normalize(st.filing.kept.sections, 1)
    && Life(cfg, st.at, st.filing.ttl) < sv.at - st.at < Life(cfg, st.at, st.filing.ttl) + cfg.optimisticTimeout
  }

  ghost predicate ServedOk(cfg: Config, served: seq<Served>, stored: seq<Stored>) {
    forall n :: 0 <= n < |served| ==>
                  && KeyOk(served[n].query, served[n].key)
                  && (served[n].stale ==> !served[n].query.options.disableOptimisticCache)
                  && served[n].origin < |stored|
                  && ServedFrom(cfg, served[n], stored[served[n].origin])
  }

  ghost predicate LockInv(s: State) {
    LocksMatch(s.locks, s.threads) && ClosedMatch(s.closed, s.threads) && WaitsMatch(s.threads)
  }

  ghost predicate CacheInv(cfg: Config, s: State) {
    StoredOk(cfg, s.stored, s.now) && CacheOk(cfg, s.stored, s.cache) && ServedOk(cfg, s.served, s.stored)
  }

  ghost predicate Inv(cfg: Config, s: State) {
    && ThreadsOk(cfg, s.threads) && LockInv(s) && WaitedClosed(s.closed, s.threads)
    && RefreshesMatch(s.refreshing, s.threads) && CacheInv(cfg, s)
  }

  // ---- threads: every step ----

  lemma FilingOfOk(cfg: Config, environments: Environments, q: Query, raw: Reply, key: CacheKey)
    requires KeyOk(q, key) && cfg.Passes(q, raw) && Cacheable(raw)
    ensures var f := FilingOf(environments, q, raw, key);
            f.Some? ==> FilingOk(cfg, q, key.environment, f.value)
  {
  }

  lemma FinishOk(cfg: Config, environments: Environments, t: Thread)
    requires t.Exchange? && ThreadOk(cfg, t) && t.pc.Finishing?
    ensures ThreadOk(cfg, FinishThread(cfg, environments, t))
  {
    if t.query.caches && cfg.Passes(t.query, t.pc.raw) && Cacheable(t.pc.raw) {
      FilingOfOk(cfg, environments, t.query, t.pc.raw, t.key.value);
    }
  }

  lemma JudgeOk(cfg: Config, environments: Environments, t: Thread)
    requires t.Refresh? && ThreadOk(cfg, t) && t.rpc.Judging?
    ensures ThreadOk(cfg, JudgeThread(cfg, environments, t))
  {
    if cfg.Passes(t.query, t.rpc.raw) && Cacheable(t.rpc.raw) {
      FilingOfOk(cfg, environments, t.query, t.rpc.raw, t.refreshKey);
    }
  }

  lemma EnterOk(cfg: Config, environments: Environments, locks: map<ExchangeKey, nat>, t: Thread)
    requires t.Exchange? && ThreadOk(cfg, t) && t.pc.Entering?
    ensures ThreadOk(cfg, EnterThread(environments, locks, t))
  {
  }

  lemma LookOk(cfg: Config, t: Thread, l: Loaded)
    requires t.Exchange? && ThreadOk(cfg, t) && t.pc.Looking?
    ensures ThreadOk(cfg, LookThread(cfg, t, l))
  {
  }

  lemma PeekOk(cfg: Config, t: Thread, key: CacheKey, l: Loaded)
    requires t.Exchange? && ThreadOk(cfg, t) && t.pc.Peeking? && KeyOk(t.query, key)
    ensures ThreadOk(cfg, PeekThread(cfg, t, key, l))
  {
  }

  ghost predicate ChangesOnly(cfg: Config, threads: map<nat, Thread>, threads': map<nat, Thread>, id: nat) {
    id in threads' && threads' == threads[id := threads'[id]] && ThreadOk(cfg, threads'[id])
  }

  lemma LoadingOk(cfg: Config, s: State, id: nat)
    requires IsExchangeAt(s, id) && CanAct(s.closed, s.threads[id]) && ThreadOk(cfg, s.threads[id])
    requires s.threads[id].pc.Peeking? || s.threads[id].pc.Looking?
    ensures ChangesOnly(cfg, s.threads, ActExchange(cfg, s, id).threads, id)
  {
    var t := s.threads[id];
    if t.pc.Peeking? {
      var key := NewKey(s.environments, t.query);
      PeekOk(cfg, t, key, LoadResponse(cfg, s.now, s.cache, key));
    } else {
      LookOk(cfg, t, LoadResponse(cfg, s.now, s.cache, t.key.value));
    }
  }

  lemma ReleasingOk(cfg: Config, t: Thread)
    requires t.Exchange? && ThreadOk(cfg, t)
    ensures t.pc.Leaving? ==> ThreadOk(cfg, LeaveThread(t))
    ensures t.pc.Closing? ==> ThreadOk(cfg, CloseThread(t))
  {
  }

  lemma ActExchangeOk(cfg: Config, s: State, id: nat)
    requires IsExchangeAt(s, id) && CanAct(s.closed, s.threads[id]) && ThreadOk(cfg, s.threads[id])
    ensures ChangesOnly(cfg, s.threads, ActExchange(cfg, s, id).threads, id)
  {
    var t := s.threads[id];
    match t.pc
    case Peeking => LoadingOk(cfg, s, id);
    case Entering => EnterOk(cfg, s.environments, s.locks, t);
    case Looking(_) => LoadingOk(cfg, s, id);
    case Finishing(_) => FinishOk(cfg, s.environments, t);
    case _ => OtherActsOk(cfg, s, id);
  }

  lemma OtherActsOk(cfg: Config, s: State, id: nat)
    requires IsExchangeAt(s, id) && CanAct(s.closed, s.threads[id]) && ThreadOk(cfg, s.threads[id])
    requires var pc := s.threads[id].pc; !pc.Peeking? && !pc.Entering? && !pc.Looking? && !pc.Finishing?
    ensures ChangesOnly(cfg, s.threads, ActExchange(cfg, s, id).threads, id)
  {
    var t := s.threads[id];
    if t.pc.Leaving? || t.pc.Closing? {
      ReleasingOk(cfg, t);
    }
  }

  lemma ActRefreshOk(cfg: Config, s: State, id: nat)
    requires id in s.threads && s.threads[id].Refresh? && CanAct(s.closed, s.threads[id]) &&
             ThreadOk(cfg, s.threads[id])
    ensures ChangesOnly(cfg, s.threads, ActRefresh(cfg, s, id).threads, id)
  {
    if s.threads[id].rpc.Judging? {
      JudgeOk(cfg, s.environments, s.threads[id]);
    }
  }

  lemma AnswerOk(cfg: Config, t: Thread, reply: Reply)
    requires ThreadOk(cfg, t) && IsAsking(t)
    ensures ThreadOk(cfg, AfterArrival(t, reply)) && ThreadOk(cfg, AfterFailure(t))
  {
  }

  lemma SpawnOk(cfg: Config, s: State, id: nat, refresher: nat)
    requires Enabled(s, Spawn(id, refresher)) && ThreadsOk(cfg, s.threads)
    ensures ThreadsOk(cfg, SpawnRefresh(s, id, refresher).threads)
  {
    var t := s.threads[id];
    SpawnedOk(cfg, t);
    OneMoreOk(cfg, s.threads, id, t.(pc := Done(t.pc.result)));
    OneMoreOk(cfg, s.threads[id := t.(pc := Done(t.pc.result))], refresher, Refresh(t.query, t.key.value, Fetching));
  }

  lemma SpawnedOk(cfg: Config, t: Thread)
    requires t.Exchange? && t.pc.Spawning? && t.key.Some? && ThreadOk(cfg, t)
    ensures ThreadOk(cfg, t.(pc := Done(t.pc.result))) && ThreadOk(cfg, Refresh(t.query, t.key.value, Fetching))
  {
  }

  lemma OneMoreOk(cfg: Config, threads: map<nat, Thread>, id: nat, t: Thread)
    requires ThreadsOk(cfg, threads) && ThreadOk(cfg, t)
    ensures ThreadsOk(cfg, threads[id := t])
  {
  }

  lemma ThreadsKept(cfg: Config, s: State, e: Event)
    requires Enabled(s, e) && ThreadsOk(cfg, s.threads)
    ensures ThreadsOk(cfg, Next(cfg, s, e).threads)
  {
    match e
    case Act(id) =>
      if s.threads[id].Exchange? {
        ActExchangeOk(cfg, s, id);
      } else {
        ActRefreshOk(cfg, s, id);
      }
    case Arrive(id, reply) => AnswerOk(cfg, s.threads[id], reply);
    case Fail(id) => AnswerOk(cfg, s.threads[id], Reply(0, Sections([], [], [])));
    case Spawn(id, refresher) => SpawnOk(cfg, s, id, refresher);
    case Call(id, q, allowWait, lookup) => OneMoreOk(cfg, s.threads, id, NewThread(q, allowWait, lookup));
    case Tick(_) =>
    case SetEnvironment(_, _) =>
    case Evict(_) =>
    case Cancel(_) =>
    case Refuse(_, _) =>
  }
}
