/** One exchange from end to end while no other runs: the client in its own form, and what asking
    the same question twice comes to. */
module ClientExchange {
  import opened Basics
  import opened ResponseTtl
  import opened ClientModel
  import opened ClientMachine

  /** What an exchange comes to: its result, the cache it leaves, and whether the transport was asked. */
  datatype Outcome = Outcome(result: Result, cache: Cache, asked: bool)

  /** finishExchange: the cache after a reply has come. */
  function Finished(cfg: Config, now: nat, environments: Environments, cache: Cache, q: Query, key: CacheKey,
                    raw: Reply, origin: nat): Cache {
    var filing := FilingOf(environments, q, raw, key);
    if q.caches && Cacheable(raw) && filing.Some?
    then StoreCache(cfg, now, cache, filing.value.key, filing.value.kept, filing.value.ttl, origin) else cache
  }

  /** An exchange nobody else interferes with; `answer` is what the transport says if it is asked. */
  function Alone(cfg: Config, now: nat, environments: Environments, cache: Cache, q: Query, answer: Option<Reply>,
                 origin: nat): Outcome {
    var key := NewKey(environments, q);
    var l := if q.caches then LoadResponse(cfg, now, cache, key) else Miss(cache);
    if q.early.Some? then Outcome(Early(q.early.value), cache, false)
    else if Usable(q, l) then Outcome(CachedResult(cfg, q, l.reply), cache, false)
    else
      var missed := if l.Miss? then l.cache else cache;
      if answer.None? then Outcome(Failed, missed, true)
      else if !cfg.Passes(q, answer.value) then Outcome(Rejected(answer.value), missed, true)
      else Outcome(Answered(Kept(q, answer.value)),
                   Finished(cfg, now, environments, missed, q, key, answer.value, origin), true)
  }

  /** A reply the transport gave and the client filed answers the same question asked again at the
      same instant: the transport is not asked, and the reply is the one given the first time, but
      for a second where the cache cut too much off its deadline. */
  lemma AskedOnce(cfg: Config, now: nat, environments: Environments, cache: Cache, q: Query,
                  answer: Reply, second: Option<Reply>, origin: nat)
    requires var first := Alone(cfg, now, environments, cache, q, Some(answer), origin);
             first.asked && first.result.Answered?
    requires q.caches && Cacheable(answer) && GivenTtl(answer.sections, q.options) > 0
    ensures var first := Alone(cfg, now, environments, cache, q, Some(answer), origin);
            Alone(cfg, now, environments, first.cache, q, second, origin + 1) ==
            Outcome(CachedResult(cfg, q, AtOnce(cfg, now, Kept(q, answer), GivenTtl(answer.sections, q.options))),
                    first.cache, false)
  {
    var key := NewKey(environments, q);
    var l := LoadResponse(cfg, now, cache, key);
    var missed := if l.Miss? then l.cache else cache;
    AppliedIsUniform(q.question.qtype, q.options, answer.sections);
    StoreThenLoad(cfg, missed, key, Kept(q, answer), GivenTtl(answer.sections, q.options), origin, now);
  }

  /** The client, updated in place. */
  class Client {
    const cfg: Config
    var environments: Environments
    var cache: Cache
    var stores: nat

    constructor (cfg: Config, environments: Environments)
      ensures this.cfg == cfg && this.environments == environments && cache == map[] && stores == 0
    {
      this.cfg, this.environments, cache, stores := cfg, environments, map[], 0;
    }

    /** loadResponse, with the time read from the clock. */
    method Load(now: nat, key: CacheKey) returns (found: Option<Reply>, stale: bool)
      modifies `cache
      ensures match LoadResponse(cfg, now, old(cache), key)
              case Miss(c) => found == None && cache == c
              case Hit(reply, s, _) => found == Some(reply) && stale == s && cache == old(cache)
    {
      var f := Filed(cfg, key);
      if f !in cache {
        return None, false;
      }
      var entry := cache[f];
      if cfg.disableExpire {
        return Some(entry.reply), false;
      }
      var response := new Response(entry.reply.sections);
      if now > entry.expireAt {
        if cfg.optimisticTimeout > 0 && now < entry.expireAt + cfg.optimisticTimeout {
          response.NormalizeTtl(1);
          return Some(Reply(entry.reply.rcode, response.Value())), true;
        }
        if !cfg.persistent {
          cache := cache - {f};
        }
        return None, false;
      }
      response.NormalizeTtl(SecondsLeft(entry.expireAt - now));
      return Some(Reply(entry.reply.rcode, response.Value())), false;
    }

    /** storeCache */
    method Save(now: nat, key: CacheKey, reply: Reply, ttl: nat)
      modifies `cache, `stores
      ensures cache == StoreCache(cfg, now, old(cache), key, reply, ttl, old(stores))
      ensures stores == old(stores) + if ttl == 0 then 0 else 1
    {
      if ttl == 0 {
        return;
      }
      var expireAt := now + ttl * NANO;
      CutIsLess(expireAt, cfg.DeadlineUnit());
      cache := cache[Filed(cfg, key) := Entry(reply, expireAt - expireAt % cfg.DeadlineUnit(), stores)];
      stores := stores + 1;
    }

    /** Exchange, with nobody else at work: what beginExchange and finishExchange do between them. */
    method Exchange(now: nat, q: Query, answer: Option<Reply>) returns (result: Result, asked: bool)
      modifies `cache, `stores
      ensures Outcome(result, cache, asked) == Alone(cfg, now, environments, old(cache), q, answer, old(stores))
    {
      if q.early.Some? {
        return Early(q.early.value), false;
      }
      var key := NewKey(environments, q);
      if q.caches {
        var found, stale := Load(now, key);
        if found.Some? && (!stale || !q.options.disableOptimisticCache) {
          return CachedResult(cfg, q, found.value), false;
        }
      }
      asked := true;
      if answer.None? {
        return Failed, true;
      }
      result := Finish(now, q, key, answer.value);
    }

    /** finishExchange */
    method Finish(now: nat, q: Query, key: CacheKey, raw: Reply) returns (result: Result)
      modifies `cache, `stores
      ensures cfg.Passes(q, raw) ==>
                && result == Answered(Kept(q, raw))
                && cache == Finished(cfg, now, environments, old(cache), q, key, raw, old(stores))
      ensures !cfg.Passes(q, raw) ==> result == Rejected(raw) && cache == old(cache)
    {
      if !cfg.Passes(q, raw) {
        return Rejected(raw);
      }
      var response := new Response(raw.sections);
      var ttl := response.ApplyResponseOptions(q.question.qtype, q.options);
      var kept := Reply(raw.rcode, response.Value());
      if q.caches && Cacheable(raw) {
        var finished := FinishKey(environments, key);
        if finished.Some? {
          Save(now, finished.value, kept, ttl);
        }
      }
      return Answered(kept);
    }
  }
}
