/** The time to live of a response: how it is computed, and how it is written to the records. */
module ResponseTtl {
  import opened Basics

  const TYPE_HTTPS := 65
  const IPV4_HINT := 4
  const IPV6_HINT := 6

  datatype Record =
    | Opt(ttl: nat, data: seq<int>)
    | Soa(ttl: nat, minimum: nat, data: seq<int>)
    | Https(ttl: nat, keys: seq<nat>, data: seq<int>)
    | Plain(rrtype: nat, ttl: nat, data: seq<int>)

  /** The three record lists of a response, by value. */
  datatype Sections = Sections(answer: seq<Record>, ns: seq<Record>, extra: seq<Record>) {
    function All(): seq<Record> {
      answer + ns + extra
    }
  }

  // ---- what the time to live is ----

  /** The minimum positive time to live of the records that are not OPT, or 0 if none is positive. */
  ghost predicate IsLeastPositive(records: seq<Record>, t: nat) {
    && (t > 0 ==> exists i :: 0 <= i < |records| && !records[i].Opt? && records[i].ttl == t)
    && (forall i :: 0 <= i < |records| && !records[i].Opt? && records[i].ttl > 0 ==> 0 < t <= records[i].ttl)
  }

  /** The position of the first SOA record of a list, or its length. */
  function FirstSoa(records: seq<Record>): (i: nat)
    ensures i <= |records|
    ensures i < |records| ==> records[i].Soa?
    ensures forall k :: 0 <= k < i ==> !records[k].Soa?
  {
    if records == [] || records[0].Soa? then 0 else 1 + FirstSoa(records[1..])
  }

  predicate IsNegative(s: Sections) {
    s.answer == [] && FirstSoa(s.ns) < |s.ns|
  }

  /** Section 5 of RFC 2308: the lesser of the SOA record's own time to live and its minimum field. */
  function NegativeTtl(ns: seq<Record>): nat
    requires FirstSoa(ns) < |ns|
  {
    var soa := ns[FirstSoa(ns)];
    if soa.ttl < soa.minimum then soa.ttl else soa.minimum
  }

  ghost predicate IsTimeToLive(s: Sections, t: nat) {
    if IsNegative(s) then t == NegativeTtl(s.ns) else IsLeastPositive(s.All(), t)
  }

  /** A response has one time to live. */
  lemma TimeToLiveIsUnique(s: Sections, t: nat, u: nat)
    requires IsTimeToLive(s, t) && IsTimeToLive(s, u)
    ensures t == u
  {
  }

  function LeastPositive(records: seq<Record>): (t: nat)
    ensures IsLeastPositive(records, t)
  {
    if records == [] then 0
    else
      var last, init := records[|records| - 1], records[..|records| - 1];
      var t := LeastPositive(init);
      LeastPositiveStep(init, t, last);
      assert init + [last] == records;
      if !last.Opt? && (t == 0 || (last.ttl > 0 && last.ttl < t)) then last.ttl else t
  }

  function TimeToLive(s: Sections): (t: nat)
    ensures IsTimeToLive(s, t)
  {
    if IsNegative(s) then NegativeTtl(s.ns) else LeastPositive(s.All())
  }

  // ---- writing it ----

  function WithTtl(r: Record, t: nat): Record {
    if r.Opt? then r else r.(ttl := t)
  }

  function NormalizeRecords(records: seq<Record>, t: nat): (r: seq<Record>)
    ensures |r| == |records| && forall i :: 0 <= i < |r| ==> r[i] == WithTtl(records[i], t)
  {
    seq(|records|, i requires 0 <= i < |records| => WithTtl(records[i], t))
  }

  function Normalize(s: Sections, t: nat): Sections {
    Sections(NormalizeRecords(s.answer, t), NormalizeRecords(s.ns, t), NormalizeRecords(s.extra, t))
  }

  /** Every record that is not OPT carries t. */
  ghost predicate Uniform(s: Sections, t: nat) {
    forall i :: 0 <= i < |s.All()| && !s.All()[i].Opt? ==> s.All()[i].ttl == t
  }

  lemma NormalizeAll(s: Sections, t: nat)
    ensures Normalize(s, t).All() == NormalizeRecords(s.All(), t)
  {
  }

  lemma NormalizeIsUniform(s: Sections, t: nat)
    ensures Uniform(Normalize(s, t), t)
  {
    NormalizeAll(s, t);
  }

  /** A normalized response with an answer has the time to live it was normalized to. */
  lemma NormalizeThenCompute(s: Sections, t: nat)
    requires exists i :: 0 <= i < |s.answer| && !s.answer[i].Opt?
    ensures IsTimeToLive(Normalize(s, t), t)
  {
    NormalizeAll(s, t);
    var i :| 0 <= i < |s.answer| && !s.answer[i].Opt?;
    assert s.All()[i] == s.answer[i];
    assert Normalize(s, t).All()[i].ttl == t;
  }

  /** No record lives longer than it said. */
  ghost predicate NeverRaised(before: seq<Record>, after: seq<Record>) {
    |before| == |after| && forall i :: 0 <= i < |before| ==> after[i].ttl <= before[i].ttl
  }

  /** Writing the computed time to live raises no record's own one exactly when no record has
      less: outside a negative answer, when either no record or every record has 0. */
  lemma ComputedNeverRaises(s: Sections, t: nat)
    requires IsTimeToLive(s, t)
    ensures NeverRaised(s.All(), Normalize(s, t).All()) <==>
            forall i :: 0 <= i < |s.All()| && !s.All()[i].Opt? ==> t <= s.All()[i].ttl
    ensures !IsNegative(s) ==>
              (NeverRaised(s.All(), Normalize(s, t).All()) <==>
               forall i, j ::
                 0 <= i < |s.All()| && 0 <= j < |s.All()| && !s.All()[i].Opt? && !s.All()[j].Opt? && s.All()[i].ttl == 0
                 ==> s.All()[j].ttl == 0)
  {
    NormalizeAll(s, t);
    var all, after := s.All(), Normalize(s, t).All();
    assert forall i :: 0 <= i < |all| ==> after[i] == WithTtl(all[i], t);
    if !IsNegative(s) && t > 0 {
      var j :| 0 <= j < |all| && !all[j].Opt? && all[j].ttl == t;
    }
  }

  /** With times to live of 0 and 60, the first record is given 60. */
  lemma ZeroIsRaised()
    ensures var s := Sections([Plain(1, 0, []), Plain(1, 60, [])], [], []);
            IsTimeToLive(s, 60) && !NeverRaised(s.All(), Normalize(s, 60).All())
  {
    var s := Sections([Plain(1, 0, []), Plain(1, 60, [])], [], []);
    assert s.All()[0].ttl == 0 && s.All()[1].ttl == 60;
    ComputedNeverRaises(s, 60);
  }

  // ---- filtering address hints ----

  function DropKey(keys: seq<nat>, key: nat): (r: seq<nat>)
    ensures forall k :: k in r <==> k in keys && k != key
  {
    if keys == [] then []
    else
      assert forall k :: k in keys <==> k == keys[0] || k in keys[1..];
      (if keys[0] == key then [] else [keys[0]]) + DropKey(keys[1..], key)
  }

  predicate FiltersHints(qtype: nat, strategy: Strategy) {
    qtype == TYPE_HTTPS && (strategy == IPv4Only || strategy == IPv6Only)
  }

  function FilterRecord(strategy: Strategy, r: Record): Record {
    if r.Https? then r.(keys := DropKey(r.keys, if strategy == IPv4Only then IPV6_HINT else IPV4_HINT)) else r
  }

  function FilterHints(qtype: nat, strategy: Strategy, answer: seq<Record>): (r: seq<Record>)
    ensures |r| == |answer|
    ensures forall i :: 0 <= i < |r| ==>
              r[i] == if FiltersHints(qtype, strategy) then FilterRecord(strategy, answer[i]) else answer[i]
  {
    seq(|answer|, i requires 0 <= i < |answer| =>
      if FiltersHints(qtype, strategy) then FilterRecord(strategy, answer[i]) else answer[i])
  }

  /** The time to live a response is given under the query's options. */
  function GivenTtl(s: Sections, o: QueryOptions): nat {
    if o.rewriteTTL.Some? then o.rewriteTTL.value else TimeToLive(s)
  }

  /** The response after the query's options are applied. */
  function Applied(qtype: nat, o: QueryOptions, s: Sections): Sections {
    Normalize(s.(answer := FilterHints(qtype, o.strategy, s.answer)), GivenTtl(s, o))
  }

  lemma AppliedIsUniform(qtype: nat, o: QueryOptions, s: Sections)
    ensures Uniform(Applied(qtype, o, s), GivenTtl(s, o))
  {
    NormalizeIsUniform(s.(answer := FilterHints(qtype, o.strategy, s.answer)), GivenTtl(s, o));
  }

  // ---- the response, edited in place ----

  class Response {
    var answer: seq<Record>
    var ns: seq<Record>
    var extra: seq<Record>

    function Value(): Sections
      reads this
    {
      Sections(answer, ns, extra)
    }

    constructor (s: Sections)
      ensures Value() == s
    {
      answer, ns, extra := s.answer, s.ns, s.extra;
    }

    /** extractNegativeTTL */
    method ExtractNegativeTtl() returns (t: nat, found: bool)
      ensures found <==> FirstSoa(ns) < |ns|
      ensures if found then t == NegativeTtl(ns) else t == 0
    {
      var i := 0;
      while i < |ns|
        invariant i <= |ns| && forall k :: 0 <= k < i ==> !ns[k].Soa?
      {
        if ns[i].Soa? {
          return if ns[i].ttl < ns[i].minimum then ns[i].ttl else ns[i].minimum, true;
        }
        i := i + 1;
      }
      return 0, false;
    }

    /** computeTimeToLive */
    method ComputeTimeToLive() returns (t: nat)
      ensures IsTimeToLive(Value(), t)
    {
      if |answer| == 0 {
        var soa, found := ExtractNegativeTtl();
        if found {
          return soa;
        }
      }
      t := ScanList(answer, 0, []);
      assert [] + answer == answer;
      t := ScanList(ns, t, answer);
      t := ScanList(extra, t, answer + ns);
    }

    /** The inner loop of computeTimeToLive, over one record list after those seen. */
    static method ScanList(list: seq<Record>, least: nat, ghost seen: seq<Record>) returns (t: nat)
      requires IsLeastPositive(seen, least)
      ensures IsLeastPositive(seen + list, t)
    {
      t := least;
      assert seen + list[..0] == seen;
      var k := 0;
      while k < |list|
        invariant k <= |list| && IsLeastPositive(seen + list[..k], t)
      {
        var r := list[k];
        LeastPositiveStep(seen + list[..k], t, r);
        assert seen + list[..k] + [r] == seen + list[..k + 1];
        if !r.Opt? && (t == 0 || (r.ttl > 0 && r.ttl < t)) {
          t := r.ttl;
        }
        k := k + 1;
      }
      assert list[..k] == list;
    }

    /** normalizeTTL */
    method NormalizeTtl(t: nat)
      modifies this
      ensures Value() == Normalize(old(Value()), t)
    {
      answer := NormalizeList(answer, t);
      ns := NormalizeList(ns, t);
      extra := NormalizeList(extra, t);
    }

    static method NormalizeList(records: seq<Record>, t: nat) returns (r: seq<Record>)
      ensures r == NormalizeRecords(records, t)
    {
      r := records;
      var i := 0;
      while i < |r|
        invariant i <= |r| == |records|
        invariant forall k :: 0 <= k < i ==> r[k] == WithTtl(records[k], t)
        invariant forall k :: i <= k < |r| ==> r[k] == records[k]
      {
        if !r[i].Opt? {
          r := r[i := r[i].(ttl := t)];
        }
        i := i + 1;
      }
    }

    /** applyResponseOptions */
    method ApplyResponseOptions(qtype: nat, o: QueryOptions) returns (t: nat)
      modifies this
      ensures t == GivenTtl(old(Value()), o) && Value() == Applied(qtype, o, old(Value()))
    {
      if FiltersHints(qtype, o.strategy) {
        var i := 0;
        while i < |answer|
          invariant i <= |answer| == |old(answer)| && ns == old(ns) && extra == old(extra)
          invariant forall k :: 0 <= k < i ==> answer[k] == FilterRecord(o.strategy, old(answer)[k])
          invariant forall k :: i <= k < |answer| ==> answer[k] == old(answer)[k]
        {
          answer := answer[i := FilterRecord(o.strategy, answer[i])];
          i := i + 1;
        }
      }
      assert answer == FilterHints(qtype, o.strategy, old(answer));
      t := ComputeTimeToLive();
      FilterKeepsTtl(old(Value()), qtype, o.strategy, t);
      TimeToLiveIsUnique(old(Value()), t, TimeToLive(old(Value())));
      if o.rewriteTTL.Some? {
        t := o.rewriteTTL.value;
      }
      NormalizeTtl(t);
    }
  }

  lemma LeastPositiveStep(seen: seq<Record>, t: nat, r: Record)
    requires IsLeastPositive(seen, t)
    ensures IsLeastPositive(seen + [r], if !r.Opt? && (t == 0 || (r.ttl > 0 && r.ttl < t)) then r.ttl else t)
  {
    var next := seen + [r];
    assert next[|seen|] == r;
    assert forall i :: 0 <= i < |seen| ==> next[i] == seen[i];
    if t > 0 {
      var i :| 0 <= i < |seen| && !seen[i].Opt? && seen[i].ttl == t;
      assert next[i].ttl == t;
    }
  }

  /** Filtering hints does not change the time to live. */
  lemma FilterKeepsTtl(s: Sections, qtype: nat, strategy: Strategy, t: nat)
    ensures IsTimeToLive(s.(answer := FilterHints(qtype, strategy, s.answer)), t) <==> IsTimeToLive(s, t)
  {
    var f := s.(answer := FilterHints(qtype, strategy, s.answer));
    assert |f.All()| == |s.All()|;
    assert forall i :: 0 <= i < |s.All()| ==> f.All()[i].Opt? == s.All()[i].Opt? && f.All()[i].ttl == s.All()[i].ttl;
  }
}
