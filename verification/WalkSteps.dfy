/** Each step of the walker keeps the invariant. */
module WalkSteps {
  import opened Basics
  import opened WalkModel
  import opened WalkSpec
  import opened WalkMachine
  import opened WalkInvariant

  // ---- flags: completions, signals, settling ----

  /** The same futures, some of them further on. */
  ghost predicate SameFutures(fs: seq<Future>, gs: seq<Future>) {
    && |gs| == |fs|
    && forall i :: 0 <= i < |fs| ==> SameFuture(fs[i], gs[i])
  }

  ghost predicate SameFuture(f: Future, g: Future) {
    g == f.(done := g.done, signalled := g.signalled, settled := g.settled) && (f.settled ==> g.settled)
  }

  ghost predicate SameShape(s: State, t: State) {
    && SameFutures(s.futures, t.futures)
    && t == s.(futures := t.futures, namedResponses := t.namedResponses, namedTransports := t.namedTransports,
               wake := t.wake)
  }

  lemma FuturesKeepSpine(cfg: Config, s: State, t: State, spine: Spine)
    requires OnSpine(cfg, s, spine) && SameShape(s, t)
    ensures OnSpine(cfg, t, spine)
  {
  }

  lemma FuturesKeepTags(fs: seq<Future>, gs: seq<Future>, named: map<string, nat>)
    requires TagsAgree(fs, named) && SameFutures(fs, gs)
    ensures TagsAgree(gs, named)
  {
  }

  lemma FuturesKeepArmed(cfg: Config, o: QueryOptions, fs: seq<Future>, gs: seq<Future>,
                         named: map<string, nat>, anonymous: Option<nat>, a: Armed)
    requires ArmedRight(cfg, o, fs, named, anonymous, a) && SameFutures(fs, gs)
    ensures ArmedRight(cfg, o, gs, named, anonymous, a)
  {
  }

  lemma FuturesKeepLaunches(fs: seq<Future>, gs: seq<Future>, ruleIndex: nat, terminal: Option<nat>)
    requires LaunchedOnce(fs, ruleIndex, terminal) && SameFutures(fs, gs)
    ensures LaunchedOnce(gs, ruleIndex, terminal)
  {
  }

  lemma ShapeKeepsInv(cfg: Config, o: QueryOptions, s: State, t: State)
    requires StateInv(cfg, o, s) && SameShape(s, t) && FlagsAgree(t.futures)
    requires FilesAgree(cfg, t.futures, t.namedResponses, t.namedTransports)
    ensures StateInv(cfg, o, t)
  {
    FuturesKeepSpine(cfg, s, t, SpineAt(cfg, o, s.ruleIndex));
    FuturesKeepTags(s.futures, t.futures, s.named);
    FuturesKeepLaunches(s.futures, t.futures, s.ruleIndex, s.terminal);
    forall i | 0 <= i < |t.armed| ensures ArmedRight(cfg, o, t.futures, t.named, t.anonymous, t.armed[i]) {
      FuturesKeepArmed(cfg, o, s.futures, t.futures, s.named, s.anonymous, s.armed[i]);
    }
  }

  /** Filing the response of a tagged future that has just settled. */
  lemma FileOne(cfg: Config, fs: seq<Future>, i: nat, responses: map<string, Option<Message>>,
                transports: map<string, Transport>)
    requires FilesAgree(cfg, fs, responses, transports) && i < |fs| && fs[i].done
    requires forall k :: 0 <= k < |fs| && fs[k].tag == fs[i].tag != "" ==> k == i
    ensures var f := fs[i];
            FilesAgree(cfg, fs[i := f.(settled := true)],
                       if f.tag == "" then responses else responses[f.tag := View(cfg, f)],
                       if f.tag == "" then transports else transports[f.tag := f.transport])
  {
    var f := fs[i];
    var gs := fs[i := f.(settled := true)];
    assert gs[i].settled && gs[i].tag == f.tag;
    forall tag | tag in responses
      ensures exists k :: 0 <= k < |gs| && gs[k].settled && gs[k].tag == tag
    {
      var k :| 0 <= k < |fs| && fs[k].settled && fs[k].tag == tag;
      assert gs[k].settled && gs[k].tag == tag;
    }
  }

  lemma SettleOneKeepsFiles(cfg: Config, s: State, i: nat)
    requires FilesAgree(cfg, s.futures, s.namedResponses, s.namedTransports) && TagsAgree(s.futures, s.named)
    requires FlagsAgree(s.futures) && i < |s.futures|
    ensures var t := SettleOne(cfg, s, i);
            && FilesAgree(cfg, t.futures, t.namedResponses, t.namedTransports)
            && FlagsAgree(t.futures) && TagsAgree(t.futures, s.named)
  {
    if s.futures[i].done && !s.futures[i].settled {
      SettleFlagKeeps(s.futures, i, s.named);
      TagIsItsOwn(s.futures, s.named, i);
      FileOne(cfg, s.futures, i, s.namedResponses, s.namedTransports);
    }
  }

  lemma SettleFlagKeeps(fs: seq<Future>, i: nat, named: map<string, nat>)
    requires FlagsAgree(fs) && TagsAgree(fs, named) && i < |fs| && fs[i].done
    ensures var gs := fs[i := fs[i].(settled := true)]; FlagsAgree(gs) && TagsAgree(gs, named)
  {
    FuturesKeepTags(fs, fs[i := fs[i].(settled := true)], named);
  }

  lemma TagIsItsOwn(fs: seq<Future>, named: map<string, nat>, i: nat)
    requires TagsAgree(fs, named) && i < |fs|
    ensures forall k :: 0 <= k < |fs| && fs[k].tag == fs[i].tag != "" ==> k == i
  {
  }

  lemma {:induction false} SettleKeepsFiles(cfg: Config, s: State, i: nat)
    requires FilesAgree(cfg, s.futures, s.namedResponses, s.namedTransports) && TagsAgree(s.futures, s.named)
    requires FlagsAgree(s.futures) && i <= |s.futures|
    ensures var t := SettleFrom(cfg, s, i);
            FilesAgree(cfg, t.futures, t.namedResponses, t.namedTransports) && FlagsAgree(t.futures)
    decreases |s.futures| - i
  {
    if i < |s.futures| {
      SettleOneKeepsFiles(cfg, s, i);
      SettleKeepsFiles(cfg, SettleOne(cfg, s, i), i + 1);
    }
  }

  lemma SettleKeepsInv(cfg: Config, o: QueryOptions, s: State)
    requires StateInv(cfg, o, s)
    ensures StateInv(cfg, o, Settle(cfg, s)) && AllSettled(Settle(cfg, s).futures) && SameShape(s, Settle(cfg, s))
  {
    SettleFrame(cfg, s, 0);
    SettleKeepsFiles(cfg, s, 0);
    ShapeKeepsInv(cfg, o, s, Settle(cfg, s));
  }

  // ---- reading bound responses ----

  /** A tag's filed response is the reference one, once its future (if any) has settled. */
  lemma NamedReads(cfg: Config, s: State, spine: Spine, tag: string)
    requires OnSpine(cfg, s, spine) && TagsAgree(s.futures, s.named) && FlagsAgree(s.futures)
    requires FilesAgree(cfg, s.futures, s.namedResponses, s.namedTransports)
    requires tag != "" && (tag in s.named ==> s.futures[s.named[tag]].settled)
    ensures NamedResponse(s, tag) == EvaluatedAnswer(Named(spine, tag))
    ensures NamedTransport(s, tag) == (var e := Named(spine, tag); if e.Some? then Some(e.value.transport) else None)
  {
    if tag in s.named {
      assert FiledAs(cfg, s.futures[s.named[tag]], s.namedResponses, s.namedTransports);
      assert Realizes(cfg, s.futures, Some(s.named[tag]), Some(spine.named[tag]));
    }
  }

  lemma AnonymousReads(cfg: Config, s: State, f: Option<nat>, e: Option<Evaluated>)
    requires Realizes(cfg, s.futures, f, e)
    requires f.Some? ==> Resolved(s, f.value)
    ensures ViewAt(cfg, s, f) == EvaluatedAnswer(e)
    ensures TransportAt(s, f) == (if e.Some? then Some(e.value.transport) else None)
  {
  }

  ghost predicate TagsSettled(s: State, tags: seq<string>)
    requires TagsAgree(s.futures, s.named)
  {
    forall tag :: tag in tags && tag in s.named ==> s.futures[s.named[tag]].settled
  }

  /** A rule reads exactly the reference responses, now or after having waited armed. */
  lemma BoundReads(cfg: Config, o: QueryOptions, s: State, j: nat)
    requires WellFormed(cfg) && StateInv(cfg, o, s) && j < |cfg.rules| && j <= s.ruleIndex
    requires TagsSettled(s, cfg.rules[j].tags)
    ensures BoundResponses(s, cfg.rules[j].tags) == NamedAnswers(SpineAt(cfg, o, j), cfg.rules[j].tags)
  {
    var tags := cfg.rules[j].tags;
    assert WellFormedRule(cfg.rules[j]);
    forall i | 0 <= i < |tags|
      ensures NamedResponse(s, tags[i]) == EvaluatedAnswer(Named(SpineAt(cfg, o, j), tags[i]))
    {
      assert tags[i] in tags;
      NamedReads(cfg, s, SpineAt(cfg, o, s.ruleIndex), tags[i]);
      BoundTagIsFixed(cfg, o, j, s.ruleIndex, tags[i]);
    }
  }

  lemma RespondReads(cfg: Config, o: QueryOptions, s: State, j: nat)
    requires WellFormed(cfg) && StateInv(cfg, o, s) && j < |cfg.rules| && j <= s.ruleIndex
    requires TagsSettled(s, cfg.rules[j].tags) && cfg.rules[j].respondTag != ""
    ensures var e := Named(SpineAt(cfg, o, j), cfg.rules[j].respondTag);
            && NamedResponse(s, cfg.rules[j].respondTag) == EvaluatedAnswer(e)
            && NamedTransport(s, cfg.rules[j].respondTag) == (if e.Some? then Some(e.value.transport) else None)
  {
    var tag := cfg.rules[j].respondTag;
    assert WellFormedRule(cfg.rules[j]);
    assert tag in cfg.rules[j].tags;
    NamedReads(cfg, s, SpineAt(cfg, o, s.ruleIndex), tag);
    BoundTagIsFixed(cfg, o, j, s.ruleIndex, tag);
  }

  // ---- the sweep ----

  lemma ReadyIsSettled(cfg: Config, o: QueryOptions, s: State, a: Armed)
    requires TagsAgree(s.futures, s.named) && AllSettled(s.futures) && FlagsAgree(s.futures)
    requires ArmedRight(cfg, o, s.futures, s.named, s.anonymous, a) && Ready(s, a)
    ensures TagsSettled(s, cfg.rules[a.ruleIndex].tags)
    ensures cfg.rules[a.ruleIndex].bindsAnonymous && a.anonymous.Some? ==> Resolved(s, a.anonymous.value)
  {
    forall x | x in a.futures ensures Resolved(s, x) {
    }
  }

  /** A ready armed rule decides what its verdict says. */
  lemma ReadyDecides(cfg: Config, o: QueryOptions, s: State, a: Armed)
    requires WellFormed(cfg) && StateInv(cfg, o, s) && AllSettled(s.futures) && a.ruleIndex <= s.ruleIndex
    requires ArmedRight(cfg, o, s.futures, s.named, s.anonymous, a) && Ready(s, a)
    ensures Verdict(cfg, o, a.ruleIndex) ==
            if RuleMatches(cfg, s, cfg.rules[a.ruleIndex], a.anonymous) then ArmedCommitment(cfg, s, a) else None
  {
    var j := a.ruleIndex;
    var rule := cfg.rules[j];
    var spine := SpineAt(cfg, o, j);
    assert WellFormedRule(rule);
    ReadyIsSettled(cfg, o, s, a);
    BoundReads(cfg, o, s, j);
    if rule.bindsAnonymous {
      AnonymousReads(cfg, s, a.anonymous, spine.anonymous);
    }
    if rule.action.Respond? {
      ReadyResponds(cfg, o, s, a);
    }
  }

  /** What a ready armed rule responds with is what it would on the reference path. */
  lemma ReadyResponds(cfg: Config, o: QueryOptions, s: State, a: Armed)
    requires WellFormed(cfg) && StateInv(cfg, o, s) && a.ruleIndex <= s.ruleIndex
    requires ArmedRight(cfg, o, s.futures, s.named, s.anonymous, a) && cfg.rules[a.ruleIndex].action.Respond?
    requires TagsSettled(s, cfg.rules[a.ruleIndex].tags)
    requires cfg.rules[a.ruleIndex].bindsAnonymous && a.anonymous.Some? ==> Resolved(s, a.anonymous.value)
    ensures ArmedCommitment(cfg, s, a) == Decide(cfg, a.ruleIndex, SpineAt(cfg, o, a.ruleIndex))
  {
    var rule := cfg.rules[a.ruleIndex];
    assert WellFormedRule(rule);
    if rule.respondTag != "" {
      RespondReads(cfg, o, s, a.ruleIndex);
    } else {
      AnonymousReads(cfg, s, a.anonymous, SpineAt(cfg, o, a.ruleIndex).anonymous);
    }
  }

  lemma DisarmKeepsInv(cfg: Config, o: QueryOptions, s: State, i: nat)
    requires StateInv(cfg, o, s) && i < |s.armed| && s.armed[i].ruleIndex <= |cfg.rules|
    requires Verdict(cfg, o, s.armed[i].ruleIndex).None?
    ensures StateInv(cfg, o, Disarm(s, i))
  {
    DisarmKeepsPassed(cfg, o, s, i);
  }

  lemma DisarmKeepsPassed(cfg: Config, o: QueryOptions, s: State, i: nat)
    requires Passed(cfg, o, s.ruleIndex, s.armed) && i < |s.armed| && s.armed[i].ruleIndex <= |cfg.rules|
    requires Verdict(cfg, o, s.armed[i].ruleIndex).None?
    ensures Passed(cfg, o, s.ruleIndex, Disarm(s, i).armed)
  {
    var t := Disarm(s, i);
    forall k: nat | k < s.ruleIndex && Verdict(cfg, o, k).Some? ensures cfg.RacesAt(k) && IsArmed(t.armed, k) {
      OthersStayArmed(s.armed, i, k);
    }
  }

  lemma OthersStayArmed(armed: seq<Armed>, i: nat, k: nat)
    requires i < |armed| && armed[i].ruleIndex != k && IsArmed(armed, k)
    ensures IsArmed(armed[..i] + armed[i + 1..], k)
  {
    var x :| 0 <= x < |armed| && armed[x].ruleIndex == k;
    assert (armed[..i] + armed[i + 1..])[if x < i then x else x - 1] == armed[x];
  }

  ghost predicate SweptRight(cfg: Config, o: QueryOptions, s: State, r: SweepOutcome) {
    match r.committed
    case Some((j, c)) => MayCommit(cfg, o, j) && cfg.RacesAt(j) && Verdict(cfg, o, j) == Some(c)
    case None =>
      && StateInv(cfg, o, r.state)
      && (forall k :: 0 <= k < |r.state.armed| ==> !Ready(r.state, r.state.armed[k]))
  }

  /** A sweep touches nothing but the list of armed rules, and takes one off it when it commits. */
  lemma {:induction false} SweepFrame(cfg: Config, s: State, i: nat)
    requires i <= |s.armed| && ArmedInRange(cfg, s)
    ensures var t := SweepFrom(cfg, s, i).state; t == s.(armed := t.armed) && |t.armed| <= |s.armed|
    ensures SweepFrom(cfg, s, i).committed.Some? ==> |SweepFrom(cfg, s, i).state.armed| < |s.armed|
    decreases |s.armed| - i
  {
    if i < |s.armed| {
      if !Ready(s, s.armed[i]) {
        SweepFrame(cfg, s, i + 1);
      } else {
        SweepFrame(cfg, Disarm(s, i), i);
      }
    }
  }

  /** Sweeping commits only a race rule that may commit, and otherwise leaves only rules that
      still wait. */
  lemma {:induction false} SweepKeepsInv(cfg: Config, o: QueryOptions, s: State, i: nat)
    requires WellFormed(cfg) && StateInv(cfg, o, s) && AllSettled(s.futures) && i <= |s.armed| && ArmedInRange(cfg, s)
    requires forall k :: 0 <= k < i ==> !Ready(s, s.armed[k])
    ensures SweptRight(cfg, o, s, SweepFrom(cfg, s, i))
    decreases |s.armed| - i, 1
  {
    if i == |s.armed| {
      NothingSwept(cfg, o, s);
    } else if Ready(s, s.armed[i]) {
      SweepReadyKeepsInv(cfg, o, s, i);
    } else {
      SweepKeepsInv(cfg, o, s, i + 1);
    }
  }

  lemma NothingSwept(cfg: Config, o: QueryOptions, s: State)
    requires StateInv(cfg, o, s) && ArmedInRange(cfg, s) && forall k :: 0 <= k < |s.armed| ==> !Ready(s, s.armed[k])
    ensures SweptRight(cfg, o, s, SweepFrom(cfg, s, |s.armed|))
  {
  }

  lemma {:induction false} SweepReadyKeepsInv(cfg: Config, o: QueryOptions, s: State, i: nat)
    requires WellFormed(cfg) && StateInv(cfg, o, s) && AllSettled(s.futures) && i < |s.armed| && ArmedInRange(cfg, s)
    requires Ready(s, s.armed[i]) && forall k :: 0 <= k < i ==> !Ready(s, s.armed[k])
    ensures SweptRight(cfg, o, s, SweepFrom(cfg, s, i))
    decreases |s.armed| - i, 0
  {
    var a := s.armed[i];
    ReadyDecides(cfg, o, s, a);
    DisarmReadsSame(cfg, s, i);
    if Verdict(cfg, o, a.ruleIndex).Some? {
      assert MayCommit(cfg, o, a.ruleIndex);
    } else {
      DisarmKeepsInv(cfg, o, s, i);
      SweepKeepsInv(cfg, o, Disarm(s, i), i);
    }
  }

  lemma DisarmReadsSame(cfg: Config, s: State, i: nat)
    requires i < |s.armed| && ArmedInRange(cfg, s)
    ensures var t := Disarm(s, i);
            && ArmedInRange(cfg, t)
            && RuleMatches(cfg, t, cfg.rules[s.armed[i].ruleIndex], s.armed[i].anonymous)
               == RuleMatches(cfg, s, cfg.rules[s.armed[i].ruleIndex], s.armed[i].anonymous)
            && ArmedCommitment(cfg, t, s.armed[i]) == ArmedCommitment(cfg, s, s.armed[i])
            && forall a: Armed :: Ready(t, a) == Ready(s, a)
  {
    var t := Disarm(s, i);
    var tags := cfg.rules[s.armed[i].ruleIndex].tags;
    assert BoundResponses(t, tags) == BoundResponses(s, tags);
  }
}
