/** The DNS client as a state machine: exchanges that share one lock per key, the cache they
    load from and store to, and the background refreshes that stale answers start. Each event
    is one atomic access to shared state, so runs include every interleaving of them. */
module ClientMachine {
  import opened Basics
  import opened ResponseTtl
  import opened ClientModel

  /** The release of a lock: not taken, taken under a key, or given back. */
  datatype Role = Free | Owner(lock: ExchangeKey) | Released

  datatype Result =
    | Early(rcode: nat)
    | Cached(reply: Reply)
    | CachedRejected
    | Answered(reply: Reply)
    | Rejected(reply: Reply)
    | Failed

  /** A reply that is to be filed: the reply as it came, as it is kept, and under which key; and
      as history the environment read when the exchange finished. */
  datatype Filing = Filing(raw: Reply, kept: Reply, ttl: nat, key: CacheKey, finishEnvironment: nat)

  /** Where an exchange is. A channel is named by the exchange that made it. */
  datatype Pc =
    | Peeking
    | Entering
    | Looking(cond: Option<nat>)
    | Waiting(channel: nat)
    | Deciding
    | Exchanging
    | Finishing(raw: Reply)
    | Storing(filing: Filing)
    | Leaving(result: Result, refresh: bool)
    | Closing(result: Result, refresh: bool)
    | Spawning(result: Result)
    | Done(result: Result)

  /** Where a background refresh is. */
  datatype RefreshPc = Fetching | Judging(raw: Reply) | Filling(filing: Filing) | Ending | Gone

  /** `waited` is history: the channel whose closing woke the exchange. */
  datatype Thread =
    | Exchange(query: Query, allowWait: bool, key: Option<CacheKey>, role: Role, pc: Pc, waited: Option<nat>)
    | Refresh(query: Query, refreshKey: CacheKey, rpc: RefreshPc)

  /** History: a reply that was filed, by a query that had started under startEnvironment. */
  datatype Stored = Stored(query: Query, filing: Filing, startEnvironment: nat, at: nat)

  /** History: an answer taken from the cache, from the store with number origin. */
  datatype Served = Served(query: Query, key: CacheKey, reply: Reply, stale: bool, at: nat, origin: nat)

  datatype State = State(
    now: nat,
    environments: Environments,
    cache: Cache,
    locks: map<ExchangeKey, nat>,
    closed: set<nat>,
    refreshing: map<CacheKey, nat>,
    threads: map<nat, Thread>,
    stored: seq<Stored>,
    served: seq<Served>)

  function Init(environments: Environments): State {
    State(0, environments, map[], map[], {}, map[], map[], [], [])
  }

  datatype Event =
    | Tick(elapsed: nat)
    | SetEnvironment(tag: string, environment: nat)
    | Evict(place: CacheKey)
    | Call(id: nat, query: Query, allowWait: bool, lookup: bool)
    | Act(id: nat)
    | Cancel(id: nat)
    | Refuse(id: nat, cached: bool)
    | Arrive(id: nat, reply: Reply)
    | Fail(id: nat)
    | Spawn(id: nat, refresher: nat)

  // ---- the steps of an exchange ----

  predicate IsExchangeAt(s: State, id: nat) {
    id in s.threads && s.threads[id].Exchange?
  }

  function SetThread(s: State, id: nat, t: Thread): State {
    s.(threads := s.threads[id := t])
  }

  /** The result of an answer from the cache: the checker judges it again. */
  function CachedResult(cfg: Config, q: Query, reply: Reply): Result {
    if cfg.Accepts(q, reply) then Cached(reply) else CachedRejected
  }

  predicate Usable(q: Query, l: Loaded) {
    l.Hit? && (!l.stale || !q.options.disableOptimisticCache)
  }

  /** A load: an answer that is used is noted, a dead entry is gone. */
  function AfterLoad(s: State, q: Query, key: CacheKey, l: Loaded): State {
    if Usable(q, l) then s.(served := s.served + [Served(q, key, l.reply, l.stale, s.now, l.origin)])
    else if l.Miss? then s.(cache := l.cache)
    else s
  }

  /** questionCache: a lookup looks in the cache before it exchanges. */
  function PeekThread(cfg: Config, t: Thread, key: CacheKey, l: Loaded): Thread
    requires t.Exchange?
  {
    if Usable(t.query, l) then
      t.(key := Some(key), pc := AfterRelease(CachedResult(cfg, t.query, l.reply), l.stale))
    else t.(pc := Entering)
  }

  /** The front of beginExchange, up to its LoadOrStore. */
  function EnterThread(environments: Environments, locks: map<ExchangeKey, nat>, t: Thread): Thread
    requires t.Exchange?
  {
    var key := NewKey(environments, t.query);
    var lock := ExchangeKey(key, t.query.options.timeout);
    if t.query.early.Some? then t.(pc := Done(Early(t.query.early.value)))
    else if !t.query.caches then t.(pc := Deciding)
    else if lock in locks then t.(key := Some(key), pc := Looking(Some(locks[lock])))
    else t.(key := Some(key), role := Owner(lock), pc := Looking(None))
  }

  function Enter(s: State, id: nat): State
    requires IsExchangeAt(s, id)
  {
    var t := EnterThread(s.environments, s.locks, s.threads[id]);
    SetThread(if t.role.Owner? then s.(locks := s.locks[t.role.lock := id]) else s, id, t)
  }

  /** One round of beginExchange's loop, up to its wait. An exchange that may not wait begins
      again as one that may. */
  function LookThread(cfg: Config, t: Thread, l: Loaded): Thread
    requires t.Exchange? && t.pc.Looking?
  {
    if Usable(t.query, l) then t.(pc := Leaving(CachedResult(cfg, t.query, l.reply), l.stale))
    else if t.pc.cond.None? then t.(pc := Deciding)
    else if t.allowWait then t.(pc := Waiting(t.pc.cond.value))
    else t.(allowWait := true, key := None, pc := Entering)
  }

  /** The channel was closed: the key is made again, and the exchange looks once more. */
  function WakeThread(environments: Environments, t: Thread): Thread
    requires t.Exchange? && t.pc.Waiting?
  {
    t.(key := Some(NewKey(environments, t.query)), pc := Looking(None), waited := Some(t.pc.channel))
  }

  /** A reply as the query's options leave it. */
  function Kept(q: Query, raw: Reply): Reply {
    raw.(sections := Applied(q.question.qtype, q.options, raw.sections))
  }

  /** The reply to file, if the environment still is the one of the key. */
  function FilingOf(environments: Environments, q: Query, raw: Reply, key: CacheKey): Option<Filing> {
    var k := FinishKey(environments, key);
    if k.None? then None else
      Some(Filing(raw, Kept(q, raw), GivenTtl(raw.sections, q.options), k.value, EnvironmentOf(environments, q.tag)))
  }

  /** finishExchange, up to storeCache. */
  function FinishThread(cfg: Config, environments: Environments, t: Thread): Thread
    requires t.Exchange? && t.pc.Finishing?
  {
    var raw := t.pc.raw;
    if !cfg.Passes(t.query, raw) then t.(pc := Leaving(Rejected(raw), false))
    else if !t.query.caches || !Cacheable(raw) || t.key.None? then
      t.(pc := Leaving(Answered(Kept(t.query, raw)), false))
    else
      var f := FilingOf(environments, t.query, raw, t.key.value);
      t.(pc := if f.Some? then Storing(f.value) else Leaving(Answered(Kept(t.query, raw)), false))
  }

  /** storeCache */
  function File(cfg: Config, s: State, q: Query, startEnvironment: nat, filing: Filing): State {
    if filing.ttl == 0 then s
    else
      s.(cache := StoreCache(cfg, s.now, s.cache, filing.key, filing.kept, filing.ttl, |s.stored|),
         stored := s.stored + [Stored(q, filing, startEnvironment, s.now)])
  }

  function AfterRelease(result: Result, refresh: bool): Pc {
    if refresh then Spawning(result) else Done(result)
  }

  /** release: first the entry is deleted; an exchange that is no owner has nothing to release. */
  function LeaveThread(t: Thread): Thread
    requires t.Exchange? && t.pc.Leaving?
  {
    t.(pc := if t.role.Owner? then Closing(t.pc.result, t.pc.refresh) else AfterRelease(t.pc.result, t.pc.refresh))
  }

  function Leave(s: State, id: nat): State
    requires IsExchangeAt(s, id) && s.threads[id].pc.Leaving?
  {
    var t := s.threads[id];
    SetThread(if t.role.Owner? then s.(locks := s.locks - {t.role.lock}) else s, id, LeaveThread(t))
  }

  /** release: then the channel is closed. */
  function CloseThread(t: Thread): Thread
    requires t.Exchange? && t.pc.Closing?
  {
    t.(role := Released, pc := AfterRelease(t.pc.result, t.pc.refresh))
  }

  function Close(s: State, id: nat): State
    requires IsExchangeAt(s, id) && s.threads[id].pc.Closing?
  {
    SetThread(s.(closed := s.closed + {id}), id, CloseThread(s.threads[id]))
  }

  /** backgroundRefreshDNS: starts a refresh unless one runs under the key. */
  function SpawnRefresh(s: State, id: nat, refresher: nat): State
    requires IsExchangeAt(s, id) && s.threads[id].pc.Spawning? && s.threads[id].key.Some?
  {
    var t := s.threads[id];
    var key := t.key.value;
    var after := SetThread(s, id, t.(pc := Done(t.pc.result)));
    if key in s.refreshing then after
    else SetThread(after.(refreshing := s.refreshing[key := refresher]), refresher, Refresh(t.query, key, Fetching))
  }

  /** One step of an exchange that waits for nobody. */
  function ActExchange(cfg: Config, s: State, id: nat): State
    requires IsExchangeAt(s, id) && CanAct(s.closed, s.threads[id])
  {
    var t := s.threads[id];
    match t.pc
    case Peeking =>
      var key := NewKey(s.environments, t.query);
      var l := LoadResponse(cfg, s.now, s.cache, key);
      SetThread(AfterLoad(s, t.query, key, l), id, PeekThread(cfg, t, key, l))
    case Entering => Enter(s, id)
    case Looking(_) =>
      var l := LoadResponse(cfg, s.now, s.cache, t.key.value);
      SetThread(AfterLoad(s, t.query, t.key.value, l), id, LookThread(cfg, t, l))
    case Waiting(_) => SetThread(s, id, WakeThread(s.environments, t))
    case Deciding => SetThread(s, id, t.(pc := Exchanging))
    case Finishing(_) => SetThread(s, id, FinishThread(cfg, s.environments, t))
    case Storing(f) =>
      SetThread(File(cfg, s, t.query, t.key.value.environment, f), id, t.(pc := Leaving(Answered(f.kept), false)))
    case Leaving(_, _) => Leave(s, id)
    case Closing(_, _) => Close(s, id)
  }

  // ---- the steps of a refresh ----

  /** The refresh's own version of finishExchange. */
  function JudgeThread(cfg: Config, environments: Environments, t: Thread): Thread
    requires t.Refresh? && t.rpc.Judging?
  {
    var raw := t.rpc.raw;
    if !cfg.Passes(t.query, raw) || !Cacheable(raw) then t.(rpc := Ending)
    else
      var f := FilingOf(environments, t.query, raw, t.refreshKey);
      t.(rpc := if f.Some? then Filling(f.value) else Ending)
  }

  function ActRefresh(cfg: Config, s: State, id: nat): State
    requires id in s.threads && s.threads[id].Refresh? && CanAct(s.closed, s.threads[id])
  {
    var t := s.threads[id];
    match t.rpc
    case Judging(_) => SetThread(s, id, JudgeThread(cfg, s.environments, t))
    case Filling(f) => SetThread(File(cfg, s, t.query, t.refreshKey.environment, f), id, t.(rpc := Ending))
    case Ending => SetThread(s.(refreshing := s.refreshing - {t.refreshKey}), id, t.(rpc := Gone))
  }

  // ---- runs ----

  predicate CanAct(closed: set<nat>, t: Thread) {
    if t.Refresh? then t.rpc.Judging? || t.rpc.Filling? || t.rpc.Ending?
    else
      match t.pc
      case Looking(_) => t.key.Some?
      case Waiting(cond) => cond in closed
      case Storing(_) => t.key.Some?
      case Exchanging | Spawning(_) | Done(_) => false
      case _ => true
  }

  predicate IsAsking(t: Thread) {
    if t.Exchange? then t.pc.Exchanging? else t.rpc.Fetching?
  }

  predicate Enabled(s: State, e: Event) {
    match e
    case Tick(_) => true
    case SetEnvironment(_, _) => true
    case Evict(_) => true
    case Call(id, q, allowWait, lookup) => id !in s.threads && (lookup ==> allowWait)
    case Act(id) => id in s.threads && CanAct(s.closed, s.threads[id])
    case Cancel(id) => IsExchangeAt(s, id) && s.threads[id].pc.Waiting?
    case Refuse(id, _) => IsExchangeAt(s, id) && s.threads[id].pc.Deciding?
    case Arrive(id, _) => id in s.threads && IsAsking(s.threads[id])
    case Fail(id) => id in s.threads && IsAsking(s.threads[id])
    case Spawn(id, refresher) =>
      IsExchangeAt(s, id) && s.threads[id].pc.Spawning? && s.threads[id].key.Some? && refresher !in s.threads
  }

  /** The thread once the transport has answered. */
  function AfterArrival(t: Thread, reply: Reply): Thread {
    if t.Exchange? then t.(pc := Finishing(reply)) else t.(rpc := Judging(reply))
  }

  function AfterFailure(t: Thread): Thread {
    if t.Exchange? then t.(pc := Leaving(Failed, false)) else t.(rpc := Ending)
  }

  /** A lookup goes to the cache first, where one is in use. */
  function NewThread(q: Query, allowWait: bool, lookup: bool): Thread {
    Exchange(q, allowWait, None, Free, if lookup && q.caches then Peeking else Entering, None)
  }

  function Next(cfg: Config, s: State, e: Event): State
    requires Enabled(s, e)
  {
    match e
    case Tick(elapsed) => s.(now := s.now + elapsed)
    case SetEnvironment(tag, environment) => s.(environments := s.environments[tag := environment])
    case Evict(place) => s.(cache := s.cache - {place})
    case Call(id, q, allowWait, lookup) => SetThread(s, id, NewThread(q, allowWait, lookup))
    case Act(id) => if s.threads[id].Exchange? then ActExchange(cfg, s, id) else ActRefresh(cfg, s, id)
    case Cancel(id) => SetThread(s, id, s.threads[id].(pc := Done(Failed)))
    case Refuse(id, cached) =>
      SetThread(s, id, s.threads[id].(pc := Leaving(if cached then CachedRejected else Failed, false)))
    case Arrive(id, reply) => SetThread(s, id, AfterArrival(s.threads[id], reply))
    case Fail(id) => SetThread(s, id, AfterFailure(s.threads[id]))
    case Spawn(id, refresher) => SpawnRefresh(s, id, refresher)
  }

  /** s and every state the events lead to, each event enabled where it happens. */
  ghost predicate IsRun(cfg: Config, s: State, events: seq<Event>, last: State)
    decreases |events|
  {
    if events == [] then s == last
    else Enabled(s, events[0]) && IsRun(cfg, Next(cfg, s, events[0]), events[1..], last)
  }
}
