/** The DNS client's cache: keys, entries with deadlines, loading and storing. */
module ClientModel {
  import opened Basics
  import opened EdnsSubnet
  import opened ResponseTtl

  const NANO: nat := 1_000_000_000
  const TYPE_A := 1
  const TYPE_AAAA := 28
  const RCODE_SUCCESS := 0
  const RCODE_FORMAT_ERROR := 1
  const RCODE_NAME_ERROR := 3

  datatype Question = Question(name: string, qtype: nat, qclass: nat)

  datatype Reply = Reply(rcode: nat, sections: Sections)

  predicate Cacheable(r: Reply) {
    r.rcode == RCODE_SUCCESS || r.rcode == RCODE_NAME_ERROR
  }

  /** A request: the message's parts the client looks at, the transport it goes to, its options
      and the response checker it came with, if any. */
  datatype Request = Request(
    tag: string,
    questions: seq<Question>,
    nsCount: nat,
    extra: seq<RecordValue>,
    options: QueryOptions,
    checker: Option<nat>)

  /** What the client takes from a request before it exchanges it: the rcode of an answer it
      gives at once, if any; whether the cache is used; and the subnet the cache key names. */
  datatype Query = Query(
    tag: string,
    question: Question,
    subnet: Option<Prefix>,
    early: Option<nat>,
    caches: bool,
    options: QueryOptions,
    checker: Option<nat>)

  /** The client. Durations and instants are in nanoseconds; a checker is a pure function. */
  /** The unit a cache keeps deadlines in, in nanoseconds. */
  type Unit = u: nat | 0 < u <= NANO witness 1

  datatype Config = Config(
    disableCache: bool,
    disableExpire: bool,
    optimisticTimeout: nat,
    persistent: bool,
    memoryUnit: Unit,
    clientSubnet: Option<Prefix>,
    timeout: nat,
    accepts: (nat, Reply) -> bool)
  {
    /** The persistent store keeps whole seconds; the memory cache keeps a unit of its own. */
    function DeadlineUnit(): Unit {
      if persistent then NANO else memoryUnit
    }

    predicate Accepts(q: Query, r: Reply) {
      q.checker.None? || accepts(q.checker.value, r)
    }

    /** A reply passes when no checker is given, or its rcode can be cached and the checker takes it. */
    predicate Passes(q: Query, r: Reply) {
      q.checker.None? || (Cacheable(r) && accepts(q.checker.value, r))
    }
  }

  // ---- the front of beginExchange ----

  function EarlyAnswer(r: Request): Option<nat> {
    if r.questions == [] then Some(RCODE_FORMAT_ERROR)
    else
      var qtype := r.questions[0].qtype;
      if (qtype == TYPE_A && r.options.strategy == IPv6Only) || (qtype == TYPE_AAAA && r.options.strategy == IPv4Only)
      then Some(RCODE_SUCCESS) else None
  }

  predicate IsSimple(r: Request) {
    && |r.questions| == 1 && r.nsCount == 0
    && (|r.extra| == 0 || (|r.extra| == 1 && r.extra[0].OptValue? && r.extra[0].udpSize > 0 && r.extra[0].ttl == 0 &&
                           forall k :: 0 <= k < |r.extra[0].options| ==> HasSubnetCode(r.extra[0].options[k])))
  }

  /** The extra records of the message sent. */
  function Sent(cfg: Config, r: Request): seq<RecordValue> {
    PrepareExtra(r.options, cfg.clientSubnet, r.extra)
  }

  function QueryOf(cfg: Config, r: Request): Query {
    Query(r.tag,
          if r.questions == [] then Question("", 0, 0) else r.questions[0],
          KeySubnet(r.options, cfg.clientSubnet, Sent(cfg, r)),
          EarlyAnswer(r),
          IsSimple(r) && !cfg.disableCache && !r.options.disableCache,
          if r.options.timeout == 0 then r.options.(timeout := cfg.timeout) else r.options,
          r.checker)
  }

  /** Outside IPv4-mapped prefixes, the subnet a query is filed under is the one its message is
      sent with; and the key is the same before the message is prepared. */
  lemma QuerySubnetIsSent(cfg: Config, r: Request)
    requires ValidOption(r.options.clientSubnet) && ValidOption(cfg.clientSubnet)
    ensures QueryOf(cfg, r).subnet == KeySubnet(r.options, cfg.clientSubnet, r.extra)
    ensures QueryOf(cfg, r).subnet == ReadSubnet(Sent(cfg, r)) <==>
            var p := Chosen(r.options, cfg.clientSubnet); p.None? || !Is4In6(p.value.address)
  {
    KeyMatchesWire(r.options, cfg.clientSubnet, r.extra);
  }

  // ---- keys ----

  datatype CacheKey = CacheKey(question: Question, tag: string, subnet: Option<Prefix>, environment: nat)

  datatype ExchangeKey = ExchangeKey(key: CacheKey, timeout: nat)

  /** The hash of each transport's environment; a transport without one has 0. */
  type Environments = map<string, nat>

  function EnvironmentOf(environments: Environments, tag: string): nat {
    if tag in environments then environments[tag] else 0
  }

  /** newCacheKey */
  function NewKey(environments: Environments, q: Query): CacheKey {
    CacheKey(q.question, q.tag, q.subnet, EnvironmentOf(environments, q.tag))
  }

  /** finishCacheKey */
  function FinishKey(environments: Environments, key: CacheKey): Option<CacheKey> {
    var environment := EnvironmentOf(environments, key.tag);
    if environment == key.environment || key.environment == 0 then Some(key.(environment := environment)) else None
  }

  // ---- the cache ----

  /** A cached reply and its deadline. `origin` is history: which store filed it. */
  datatype Entry = Entry(reply: Reply, expireAt: nat, origin: nat)

  type Cache = map<CacheKey, Entry>

  /** The part of a key the cache tells apart: the persistent store leaves out the query class. */
  function Filed(cfg: Config, key: CacheKey): CacheKey {
    if cfg.persistent then key.(question := key.question.(qclass := 0)) else key
  }

  /** By how many nanoseconds a count of seconds, as the 53-bit fraction of a double, is rounded up
      to the next whole one: none below 2^24 seconds, more with every power of two up to the 2^32
      a time to live can have. */
  function Slack(seconds: nat): nat {
    if seconds < 0x100_0000 then 0
    else if seconds < 0x200_0000 then 1
    else if seconds < 0x400_0000 then 3
    else if seconds < 0x800_0000 then 7
    else if seconds < 0x1000_0000 then 14
    else if seconds < 0x2000_0000 then 29
    else if seconds < 0x4000_0000 then 59
    else if seconds < 0x8000_0000 then 119
    else 238
  }

  /** The whole seconds of a duration, by way of Duration.Seconds, a double that is then cut off. */
  function SecondsLeft(d: nat): nat {
    if RoundsUp(d) then d / NANO + 1 else d / NANO
  }

  predicate RoundsUp(d: nat) {
    NANO - d % NANO <= Slack(d / NANO)
  }

  datatype Loaded = Miss(cache: Cache) | Hit(reply: Reply, stale: bool, origin: nat)

  /** loadResponse: an answer from the cache, or the cache without an entry found to be dead. */
  function LoadResponse(cfg: Config, now: nat, cache: Cache, key: CacheKey): Loaded {
    var f := Filed(cfg, key);
    if f !in cache then Miss(cache)
    else
      var e := cache[f];
      if cfg.disableExpire then Hit(e.reply, false, e.origin)
      else if now > e.expireAt then
        if cfg.optimisticTimeout > 0 && now < e.expireAt + cfg.optimisticTimeout
        then Hit(e.reply.(sections := Normalize(e.reply.sections, 1)), true, e.origin)
        else Miss(if cfg.persistent then cache else cache - {f})
      else Hit(e.reply.(sections := Normalize(e.reply.sections, SecondsLeft(e.expireAt - now))), false, e.origin)
  }

  /** What is cut off a deadline that is kept in whole units. */
  function Cut(cfg: Config, stored: nat, ttl: nat): (cut: nat)
    ensures cut < cfg.DeadlineUnit() && cut <= stored + ttl * NANO
  {
    CutIsLess(stored + ttl * NANO, cfg.DeadlineUnit());
    (stored + ttl * NANO) % cfg.DeadlineUnit()
  }

  lemma CutIsLess(t: nat, unit: Unit)
    ensures t % unit <= t
  {
    if t < unit {
      assert t / unit == 0;
    }
  }

  /** How long an entry lives: its time to live but for what is cut off, which is less than a unit. */
  function Life(cfg: Config, stored: nat, ttl: nat): (life: int)
    ensures ttl * NANO - cfg.DeadlineUnit() < life <= ttl * NANO
    ensures ttl > 0 ==> life > 0
  {
    ttl * NANO - Cut(cfg, stored, ttl)
  }

  /** storeCache, for the store with the given number. */
  function StoreCache(cfg: Config, now: nat, cache: Cache, key: CacheKey, reply: Reply, ttl: nat, origin: nat): Cache {
    if ttl == 0 then cache else cache[Filed(cfg, key) := Entry(reply, now + Life(cfg, now, ttl), origin)]
  }

  // ---- freshness of one load ----

  /** The seconds said to be left are never a whole second short. They are more than what is left
      exactly when they were rounded up, and then by less than the slack. */
  lemma SecondsLeftAreRight(d: nat)
    ensures d < (SecondsLeft(d) + 1) * NANO
    ensures SecondsLeft(d) * NANO <= d <==> !RoundsUp(d)
    ensures SecondsLeft(d) * NANO <= d + Slack(d / NANO)
  {
    assert d == d / NANO * NANO + d % NANO;
  }

  lemma SlackGrows(a: nat, b: nat)
    requires a <= b
    ensures Slack(a) <= Slack(b) <= 238
    ensures b < 0x100_0000 ==> Slack(b) == 0
  {
  }

  /** The bound is tight: with 2^24 seconds and all but a nanosecond left, one second too many is served. */
  lemma RoundingUpHappens()
    ensures var ttl, age := 0x100_0001, 1;
            RoundsUp(ttl * NANO - age) && age + SecondsLeft(ttl * NANO - age) * NANO > ttl * NANO
  {
    var d := 0x100_0001 * NANO - 1;
    assert d == 0x100_0000 * NANO + 999_999_999;
    assert d / NANO == 0x100_0000 && d % NANO == 999_999_999;
  }

  lemma WholeSeconds(n: nat)
    ensures SecondsLeft(n * NANO) == n
  {
    assert n * NANO / NANO == n && n * NANO % NANO == 0;
  }

  /** What one load after one store serves, with no other store to the same place in between. All
      is as the entry's life says, which is less than a unit short of the time to live. */
  lemma LoadAfterStore(cfg: Config, cache: Cache, key: CacheKey, reply: Reply, ttl: nat, origin: nat, stored: nat,
                       now: nat)
    requires ttl > 0 && stored <= now && !cfg.disableExpire
    ensures var r := LoadResponse(cfg, now, StoreCache(cfg, stored, cache, key, reply, ttl, origin), key);
            var age, life := now - stored, Life(cfg, stored, ttl);
            && (r.Hit? && !r.stale <==> age <= life)
            && (r.Hit? && r.stale <==> life < age < life + cfg.optimisticTimeout)
            && ttl * NANO - cfg.DeadlineUnit() < life <= ttl * NANO
            && (r.Hit? ==> r.reply.rcode == reply.rcode && r.origin == origin)
            && (r.Hit? && r.stale ==> r.reply.sections == Normalize(reply.sections, 1))
            && (r.Hit? && !r.stale ==>
                  var served := SecondsLeft(life - age);
                  && r.reply.sections == Normalize(reply.sections, served)
                  && life < age + (served + 1) * NANO <= life + Slack(ttl) + NANO
                  && (age + served * NANO <= life <==> !RoundsUp(life - age)))
  {
    var r := LoadResponse(cfg, now, StoreCache(cfg, stored, cache, key, reply, ttl, origin), key);
    if r.Hit? && !r.stale {
      var left := Life(cfg, stored, ttl) - (now - stored);
      SecondsLeftAreRight(left);
      LeftIsWithin(ttl, left);
    }
  }

  /** The slack of what is left is within the slack of the whole. */
  lemma LeftIsWithin(ttl: nat, left: nat)
    requires left <= ttl * NANO
    ensures Slack(left / NANO) <= Slack(ttl)
  {
    assert left / NANO <= ttl by {
      assert left / NANO * NANO <= left <= ttl * NANO;
    }
    SlackGrows(left / NANO, ttl);
  }

  // ---- a load right after a store ----

  /** Nothing is missing right after a store: without expiry, or if no more is cut off the
      deadline than a double rounds away. */
  predicate ServedWhole(cfg: Config, now: nat, ttl: nat)
    requires ttl > 0
  {
    cfg.disableExpire || Cut(cfg, now, ttl) <= Slack(ttl - 1)
  }

  /** What is served right after a store. */
  function AtOnce(cfg: Config, now: nat, reply: Reply, ttl: nat): Reply
    requires ttl > 0
  {
    if ServedWhole(cfg, now, ttl) then reply else reply.(sections := Normalize(reply.sections, ttl - 1))
  }

  lemma LeftAtOnce(cut: nat, ttl: nat)
    requires ttl > 0 && cut < NANO
    ensures SecondsLeft(ttl * NANO - cut) == if cut <= Slack(ttl - 1) then ttl else ttl - 1
  {
    if cut == 0 {
      WholeSeconds(ttl);
    } else {
      var d := ttl * NANO - cut;
      assert d == (ttl - 1) * NANO + (NANO - cut);
      assert d / NANO == ttl - 1 && d % NANO == NANO - cut;
    }
  }

  /** A load right after a store finds the reply, with its whole time to live if nothing is missing
      and otherwise with one second less. */
  lemma StoreThenLoad(cfg: Config, cache: Cache, key: CacheKey, reply: Reply, ttl: nat, origin: nat, now: nat)
    requires ttl > 0 && Uniform(reply.sections, ttl)
    ensures LoadResponse(cfg, now, StoreCache(cfg, now, cache, key, reply, ttl, origin), key) ==
            Hit(AtOnce(cfg, now, reply, ttl), false, origin)
  {
    LeftAtOnce(Cut(cfg, now, ttl), ttl);
    UniformIsNormalized(reply.sections, ttl);
  }

  /** So the reply comes back as it was stored exactly when nothing is missing or it holds nothing
      that has a time to live. */
  lemma StoredComesBack(cfg: Config, now: nat, reply: Reply, ttl: nat)
    requires ttl > 0 && Uniform(reply.sections, ttl)
    ensures AtOnce(cfg, now, reply, ttl) == reply <==>
            ServedWhole(cfg, now, ttl) || forall i :: 0 <= i < |reply.sections.All()| ==> reply.sections.All()[i].Opt?
  {
    if forall i :: 0 <= i < |reply.sections.All()| ==> reply.sections.All()[i].Opt? {
      UniformIsNormalized(reply.sections, ttl - 1);
    } else {
      NormalizeIsUniform(reply.sections, ttl - 1);
    }
  }

  /** The persistent store cuts off the fraction of the second the reply came in. */
  lemma PersistentCut(cfg: Config, now: nat, ttl: nat)
    requires cfg.persistent
    ensures Cut(cfg, now, ttl) == now % NANO
  {
    assert (now + ttl * NANO) % NANO == now % NANO;
  }

  /** Half a second past a full one, a reply for 60 seconds is filed in the persistent store: it
      is served with 59 at once. */
  lemma SecondIsMissing(cfg: Config, cache: Cache, key: CacheKey, origin: nat)
    requires cfg.persistent && !cfg.disableExpire
    ensures var reply, now := Reply(0, Sections([ResponseTtl.Plain(1, 60, [])], [], [])), NANO / 2;
            LoadResponse(cfg, now, StoreCache(cfg, now, cache, key, reply, 60, origin), key) ==
            Hit(Reply(0, Sections([ResponseTtl.Plain(1, 59, [])], [], [])), false, origin)
  {
    PersistentCut(cfg, NANO / 2, 60);
    LeftAtOnce(NANO / 2, 60);
  }

  /** A reply for one second, filed half a second past a full one in the persistent store, is stale
      at an age of 0.7 seconds, within its time to live. */
  lemma StaleTooSoon(cfg: Config, cache: Cache, key: CacheKey, reply: Reply, origin: nat)
    requires cfg.persistent && !cfg.disableExpire && cfg.optimisticTimeout > NANO
    ensures var stored, now := NANO / 2, NANO / 2 + 700_000_000;
            && var r := LoadResponse(cfg, now, StoreCache(cfg, stored, cache, key, reply, 1, origin), key);
               r.Hit? && r.stale && now - stored < 1 * NANO
  {
    PersistentCut(cfg, NANO / 2, 1);
  }

  lemma UniformIsNormalized(s: Sections, t: nat)
    requires Uniform(s, t)
    ensures Normalize(s, t) == s
  {
    var all := s.All();
    assert all[..|s.answer|] == s.answer;
    assert all[|s.answer|..|s.answer| + |s.ns|] == s.ns;
    assert all[|s.answer| + |s.ns|..] == s.extra;
    assert NormalizeRecords(s.answer, t) == s.answer;
    assert NormalizeRecords(s.ns, t) == s.ns;
    assert NormalizeRecords(s.extra, t) == s.extra;
  }
}
