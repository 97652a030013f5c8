/** One rule of the walk keeps the invariant, whatever the rule's action. */
module WalkRuleSteps {
  import opened Basics
  import opened WalkModel
  import opened WalkSpec
  import opened WalkMachine
  import opened WalkInvariant
  import opened WalkSteps

  ghost predicate WalkedRight(cfg: Config, o: QueryOptions, s: State, outcome: WalkOutcome) {
    match outcome
    case Continue => StateInv(cfg, o, s) && NoIdleArms(s.armed)
    case Stop(origin, result) => Sound(cfg, o, origin, result)
    case Suspend(suspension) => SuspensionRight(cfg, o, s, suspension)
  }

  lemma WalkedOn(cfg: Config, o: QueryOptions, s: State)
    requires StateInv(cfg, o, s) && NoIdleArms(s.armed)
    ensures WalkedRight(cfg, o, s, Continue) && WalkedRight(cfg, o, s, Suspend(Drain))
  {
  }

  // ---- committing the rule under the walk ----

  lemma FrontMayCommit(cfg: Config, o: QueryOptions, s: State)
    requires Passed(cfg, o, s.ruleIndex, s.armed) && s.armed == []
    requires Verdict(cfg, o, s.ruleIndex).Some?
    ensures MayCommit(cfg, o, s.ruleIndex)
  {
    assert forall k :: !IsArmed(s.armed, k);
  }

  lemma FrontStops(cfg: Config, o: QueryOptions, s: State, result: Result)
    requires Passed(cfg, o, s.ruleIndex, s.armed) && s.armed == []
    requires Verdict(cfg, o, s.ruleIndex) == Some(Final(result))
    ensures WalkedRight(cfg, o, s, Stop(s.ruleIndex, result))
  {
    FrontMayCommit(cfg, o, s);
  }

  lemma FrontAsks(cfg: Config, o: QueryOptions, s: State, transport: Transport, options: QueryOptions)
    requires StateInv(cfg, o, s) && s.armed == []
    requires Verdict(cfg, o, s.ruleIndex) == Some(Query(transport, options))
    ensures WalkedRight(cfg, o, s, Suspend(Exchange(Pending(s.ruleIndex, transport, options, None))))
  {
    FrontMayCommit(cfg, o, s);
  }

  // ---- going past a rule ----

  lemma OtherAnonymous(cfg: Config, o: QueryOptions, s: State, anonymous: Option<nat>)
    requires AllArmedRight(cfg, o, s.futures, s.named, s.anonymous, s.armed) && NoIdleArms(s.armed)
    ensures AllArmedRight(cfg, o, s.futures, s.named, anonymous, s.armed)
  {
    forall i | 0 <= i < |s.armed| ensures ArmedRight(cfg, o, s.futures, s.named, anonymous, s.armed[i]) {
      assert ArmedRight(cfg, o, s.futures, s.named, s.anonymous, s.armed[i]);
    }
  }

  lemma PassedOne(cfg: Config, o: QueryOptions, i: nat, armed: seq<Armed>)
    requires Passed(cfg, o, i, armed) && i < |cfg.rules| && Verdict(cfg, o, i).None?
    ensures Passed(cfg, o, i + 1, armed)
  {
  }

  /** A rule without a verdict is passed; it may have changed the options or dropped the anonymous future. */
  lemma PassKeepsInv(cfg: Config, o: QueryOptions, s: State, t: State)
    requires StateInv(cfg, o, s) && NoIdleArms(s.armed) && s.ruleIndex < |cfg.rules|
    requires Verdict(cfg, o, s.ruleIndex).None?
    requires t == s.(ruleIndex := s.ruleIndex + 1, options := t.options, anonymous := t.anonymous)
    requires OnSpine(cfg, t, SpineAt(cfg, o, t.ruleIndex))
    ensures WalkedRight(cfg, o, t, Continue)
  {
    OtherAnonymous(cfg, o, s, t.anonymous);
    PassedOne(cfg, o, s.ruleIndex, s.armed);
  }

  // ---- launching ----

  lemma AppendKeepsSpine(cfg: Config, fs: seq<Future>, f: Future, anonymous: Option<nat>, named: map<string, nat>,
                         spine: Spine)
    requires Realizes(cfg, fs, anonymous, spine.anonymous) && NamedRealize(cfg, fs, named, spine.named)
    ensures Realizes(cfg, fs + [f], anonymous, spine.anonymous) && NamedRealize(cfg, fs + [f], named, spine.named)
  {
  }

  lemma AppendKeepsArmed(cfg: Config, o: QueryOptions, s: State, f: Future, i: nat)
    requires AllArmedRight(cfg, o, s.futures, s.named, s.anonymous, s.armed) && i < |s.armed|
    ensures ArmedRight(cfg, o, s.futures + [f], s.named, s.anonymous, s.armed[i])
  {
    assert ArmedRight(cfg, o, s.futures, s.named, s.anonymous, s.armed[i]);
  }

  lemma AppendKeepsFiles(cfg: Config, fs: seq<Future>, f: Future, responses: map<string, Option<Message>>,
                         transports: map<string, Transport>)
    requires FilesAgree(cfg, fs, responses, transports) && !f.settled
    ensures FilesAgree(cfg, fs + [f], responses, transports)
  {
    var gs := fs + [f];
    forall tag | tag in responses ensures exists i :: 0 <= i < |gs| && gs[i].settled && gs[i].tag == tag {
      var i :| 0 <= i < |fs| && fs[i].settled && fs[i].tag == tag;
      assert gs[i].settled && gs[i].tag == tag;
    }
  }

  lemma FreshTag(cfg: Config, o: QueryOptions, s: State, tag: string)
    requires WellFormed(cfg) && DefinesTag(cfg, s.ruleIndex, tag) && s.ruleIndex <= |cfg.rules|
    requires OnSpine(cfg, s, SpineAt(cfg, o, s.ruleIndex))
    ensures tag !in s.named
    ensures forall j: nat :: j < s.ruleIndex ==> tag !in cfg.rules[j].tags
  {
    if tag in s.named {
      NamedWasDefined(cfg, o, s.ruleIndex, tag);
      assert false;
    }
  }

  /** An evaluate rule launches its query and the walk goes on. */
  lemma LaunchKeepsInv(cfg: Config, o: QueryOptions, s: State, f: Future, t: State)
    requires WellFormed(cfg) && StateInv(cfg, o, s) && NoIdleArms(s.armed) && s.ruleIndex < |cfg.rules|
    requires Verdict(cfg, o, s.ruleIndex).None?
    requires f.origin == s.ruleIndex && !f.terminal && !f.done && !f.signalled && !f.settled
    requires f.tag != "" ==> DefinesTag(cfg, s.ruleIndex, f.tag)
    requires t == s.(ruleIndex := s.ruleIndex + 1, futures := s.futures + [f],
                     anonymous := if f.tag == "" then Some(|s.futures|) else s.anonymous,
                     named := if f.tag == "" then s.named else s.named[f.tag := |s.futures|])
    requires OnSpine(cfg, t, SpineAt(cfg, o, t.ruleIndex))
    ensures WalkedRight(cfg, o, t, Continue)
  {
    if f.tag != "" {
      FreshTag(cfg, o, s, f.tag);
    }
    AppendKeepsFiles(cfg, s.futures, f, s.namedResponses, s.namedTransports);
    PassedOne(cfg, o, s.ruleIndex, s.armed);
    LaunchKeepsArmed(cfg, o, s, f, t);
    LaunchKeepsTags(s.futures, f, s.named);
    LaunchKeepsOrder(s.futures, f, s.ruleIndex);
  }

  lemma LaunchKeepsArmed(cfg: Config, o: QueryOptions, s: State, f: Future, t: State)
    requires AllArmedRight(cfg, o, s.futures, s.named, s.anonymous, s.armed) && NoIdleArms(s.armed)
    requires ArmedSorted(s.armed, s.ruleIndex) && s.ruleIndex <= |cfg.rules|
    requires forall j: nat :: j < s.ruleIndex ==> f.tag == "" || f.tag !in cfg.rules[j].tags
    requires t.armed == s.armed && t.futures == s.futures + [f]
    requires t.named == if f.tag == "" then s.named else s.named[f.tag := |s.futures|]
    ensures AllArmedRight(cfg, o, t.futures, t.named, t.anonymous, t.armed)
  {
    forall i | 0 <= i < |t.armed| ensures ArmedRight(cfg, o, t.futures, t.named, t.anonymous, t.armed[i]) {
      AppendKeepsArmed(cfg, o, s, f, i);
    }
  }

  lemma LaunchKeepsOrder(fs: seq<Future>, f: Future, ruleIndex: nat)
    requires LaunchedOnce(fs, ruleIndex, None) && FlagsAgree(fs) && f.origin == ruleIndex
    requires !f.terminal && !f.settled && !f.signalled
    ensures LaunchedOnce(fs + [f], ruleIndex + 1, None) && FlagsAgree(fs + [f])
  {
  }

  lemma LaunchKeepsTags(fs: seq<Future>, f: Future, named: map<string, nat>)
    requires TagsAgree(fs, named) && f.tag !in named
    ensures TagsAgree(fs + [f], if f.tag == "" then named else named[f.tag := |fs|])
  {
  }

  /** A speculative route launches its query behind the armed rules and waits. */
  lemma SpeculateKeepsInv(cfg: Config, o: QueryOptions, s: State, f: Future, t: State)
    requires StateInv(cfg, o, s) && NoIdleArms(s.armed) && s.ruleIndex < |cfg.rules| && !cfg.RacesAt(s.ruleIndex)
    requires s.terminal.None? && f.origin == s.ruleIndex && f.tag == "" && f.terminal && !f.done && !f.signalled &&
             !f.settled
    requires Verdict(cfg, o, s.ruleIndex) == Some(Query(f.transport, f.options))
    requires t == s.(futures := s.futures + [f], terminal := Some(|s.futures|), terminalIndex := s.ruleIndex)
    ensures WalkedRight(cfg, o, t, Suspend(Drain))
  {
    AppendKeepsSpine(cfg, s.futures, f, s.anonymous, s.named, SpineAt(cfg, o, s.ruleIndex));
    AppendKeepsFiles(cfg, s.futures, f, s.namedResponses, s.namedTransports);
    LaunchKeepsTags(s.futures, f, s.named);
    SpeculateKeepsOrder(s.futures, f, s.ruleIndex);
    assert FlagsAgree(t.futures);
    forall i | 0 <= i < |t.armed| ensures ArmedRight(cfg, o, t.futures, t.named, t.anonymous, t.armed[i]) {
      AppendKeepsArmed(cfg, o, s, f, i);
    }
  }

  lemma SpeculateKeepsOrder(fs: seq<Future>, f: Future, ruleIndex: nat)
    requires LaunchedOnce(fs, ruleIndex, None) && f.origin == ruleIndex && f.terminal
    ensures LaunchedOnce(fs + [f], ruleIndex, Some(|fs|))
  {
  }

  // ---- an ordinary rule ----

  /** Everything an ordinary rule binds has settled. */
  ghost predicate Bound(s: State, rule: Rule) {
    && TagsAgree(s.futures, s.named)
    && TagsSettled(s, rule.tags)
    && (rule.bindsAnonymous && s.anonymous.Some? ==> Resolved(s, s.anonymous.value))
  }

  lemma {:induction false} UnresolvedHas(s: State, tags: seq<string>, tag: string)
    requires tag in tags && tag in s.named && !Resolved(s, s.named[tag])
    ensures s.named[tag] in UnresolvedTags(s, tags)
  {
    if tags[0] != tag {
      UnresolvedHas(s, tags[1..], tag);
    }
  }

  lemma {:induction false} UnresolvedInRange(s: State, tags: seq<string>)
    requires TagsAgree(s.futures, s.named)
    ensures forall x :: x in UnresolvedTags(s, tags) ==> x < |s.futures|
  {
    if tags != [] {
      UnresolvedInRange(s, tags[1..]);
    }
  }

  lemma NothingUnresolved(s: State, rule: Rule)
    requires TagsAgree(s.futures, s.named) && Unresolved(s, rule) == []
    requires rule.HasBindings() ==> AllSettled(s.futures)
    ensures Bound(s, rule)
  {
    forall tag | tag in rule.tags && tag in s.named ensures s.futures[s.named[tag]].settled {
      if !Resolved(s, s.named[tag]) {
        UnresolvedHas(s, rule.tags, tag);
      }
    }
  }

  lemma ReachedMatches(cfg: Config, o: QueryOptions, s: State)
    requires WellFormed(cfg) && StateInv(cfg, o, s) && s.ruleIndex < |cfg.rules| && Bound(s, cfg.rules[s.ruleIndex])
    ensures RuleMatches(cfg, s, cfg.rules[s.ruleIndex], s.anonymous) ==
            Hits(cfg, s.ruleIndex, SpineAt(cfg, o, s.ruleIndex))
  {
    BoundReads(cfg, o, s, s.ruleIndex);
    if cfg.rules[s.ruleIndex].bindsAnonymous {
      AnonymousReads(cfg, s, s.anonymous, SpineAt(cfg, o, s.ruleIndex).anonymous);
    }
  }

  /** The rule under the walk matches, is no race rule, and its responses have settled. */
  ghost predicate Matched(cfg: Config, o: QueryOptions, s: State) {
    && WellFormed(cfg) && StateInv(cfg, o, s) && NoIdleArms(s.armed)
    && s.ruleIndex < |cfg.rules| && !cfg.RacesAt(s.ruleIndex) && Bound(s, cfg.rules[s.ruleIndex])
    && Hits(cfg, s.ruleIndex, SpineAt(cfg, o, s.ruleIndex))
  }

  lemma SpineSteps(cfg: Config, o: QueryOptions, i: nat)
    requires i < |cfg.rules| && !cfg.RacesAt(i)
    ensures SpineAt(cfg, o, i + 1) == Advance(cfg, i, SpineAt(cfg, o, i))
  {
  }

  /** What the walk's own variables become when it passes a rule by. */
  lemma SkippedSpine(cfg: Config, o: QueryOptions, s: State, t: State)
    requires s.ruleIndex < |cfg.rules| && !cfg.RacesAt(s.ruleIndex)
    requires var spine := SpineAt(cfg, o, s.ruleIndex);
             && OnSpine(cfg, s, spine)
             && var action := cfg.rules[s.ruleIndex].action;
             if !Hits(cfg, s.ruleIndex, spine) then t == Next(s)
             else match action
               case SetOptions(route) => t == Next(s.(options := ApplyRouteOptions(s.options, route)))
               case Evaluate(server, tag, _, _) =>
                 server !in cfg.transports && t == Next(if tag == "" then s.(anonymous := None) else s)
               case Route(server, _, route) =>
                 !ResolveRoute(cfg, server, route, s.options).RouteResolved? && t == Next(s)
               case _ => false
    ensures OnSpine(cfg, t, SpineAt(cfg, o, t.ruleIndex))
    ensures Verdict(cfg, o, s.ruleIndex).None?
  {
    SpineSteps(cfg, o, s.ruleIndex);
  }

  lemma EvaluateSkips(cfg: Config, o: QueryOptions, s: State)
    requires Matched(cfg, o, s) && cfg.rules[s.ruleIndex].action.Evaluate?
    requires cfg.rules[s.ruleIndex].action.server !in cfg.transports
    ensures var r := WalkEvaluate(cfg, s); WalkedRight(cfg, o, r.0, r.1)
  {
    var t := WalkEvaluate(cfg, s).0;
    SkippedSpine(cfg, o, s, t);
    PassKeepsInv(cfg, o, s, t);
  }

  lemma LaunchedSpine(cfg: Config, o: QueryOptions, s: State, f: Future, t: State)
    requires s.ruleIndex < |cfg.rules| && !cfg.RacesAt(s.ruleIndex) && cfg.rules[s.ruleIndex].action.Evaluate?
    requires OnSpine(cfg, s, SpineAt(cfg, o, s.ruleIndex)) && Hits(cfg, s.ruleIndex, SpineAt(cfg, o, s.ruleIndex))
    requires var action := cfg.rules[s.ruleIndex].action;
             && action.server in cfg.transports
             && f == Future(s.ruleIndex, action.tag, false, cfg.transports[action.server],
                            ApplyRouteOptions(s.options, action.route), false, false, false)
             && t == s.(ruleIndex := s.ruleIndex + 1, futures := s.futures + [f],
                        anonymous := if f.tag == "" then Some(|s.futures|) else s.anonymous,
                        named := if f.tag == "" then s.named else s.named[f.tag := |s.futures|])
    ensures OnSpine(cfg, t, SpineAt(cfg, o, t.ruleIndex))
    ensures Verdict(cfg, o, s.ruleIndex).None?
  {
    SpineSteps(cfg, o, s.ruleIndex);
    AppendKeepsSpine(cfg, s.futures, f, s.anonymous, s.named, SpineAt(cfg, o, s.ruleIndex));
  }

  lemma EvaluateLaunches(cfg: Config, o: QueryOptions, s: State, t: State)
    requires Matched(cfg, o, s) && cfg.rules[s.ruleIndex].action.Evaluate?
    requires cfg.rules[s.ruleIndex].action.server in cfg.transports && WalkEvaluate(cfg, s) == (t, Continue)
    ensures WalkedRight(cfg, o, t, Continue)
  {
    var action := cfg.rules[s.ruleIndex].action;
    var f := Future(s.ruleIndex, action.tag, false, cfg.transports[action.server],
                    ApplyRouteOptions(s.options, action.route), false, false, false);
    LaunchedState(cfg, s, f, t);
    LaunchedSpine(cfg, o, s, f, t);
    LaunchKeepsInv(cfg, o, s, f, t);
  }

  lemma LaunchedState(cfg: Config, s: State, f: Future, t: State)
    requires s.ruleIndex < |cfg.rules| && cfg.rules[s.ruleIndex].action.Evaluate?
    requires var action := cfg.rules[s.ruleIndex].action;
             && action.server in cfg.transports && WalkEvaluate(cfg, s) == (t, Continue)
             && f == Future(s.ruleIndex, action.tag, false, cfg.transports[action.server],
                            ApplyRouteOptions(s.options, action.route), false, false, false)
    ensures t == s.(ruleIndex := s.ruleIndex + 1, futures := s.futures + [f],
                    anonymous := if f.tag == "" then Some(|s.futures|) else s.anonymous,
                    named := if f.tag == "" then s.named else s.named[f.tag := |s.futures|])
  {
  }

  lemma MatchedEvaluate(cfg: Config, o: QueryOptions, s: State)
    requires Matched(cfg, o, s) && cfg.rules[s.ruleIndex].action.Evaluate?
    ensures var r := WalkEvaluate(cfg, s); WalkedRight(cfg, o, r.0, r.1)
  {
    var (t, outcome) := WalkEvaluate(cfg, s);
    if cfg.rules[s.ruleIndex].action.server !in cfg.transports {
      EvaluateSkips(cfg, o, s);
    } else if outcome.Continue? {
      EvaluateLaunches(cfg, o, s, t);
    } else {
      WalkedOn(cfg, o, s);
    }
  }

  lemma RespondRight(cfg: Config, o: QueryOptions, s: State)
    requires Matched(cfg, o, s) && cfg.rules[s.ruleIndex].action.Respond?
    ensures var r := WalkRespond(cfg, s); WalkedRight(cfg, o, r.0, r.1)
  {
    var rule := cfg.rules[s.ruleIndex];
    var spine := SpineAt(cfg, o, s.ruleIndex);
    var (_, outcome) := WalkRespond(cfg, s);
    assert WellFormedRule(rule);
    if outcome.Stop? {
      if rule.respondTag != "" {
        RespondReads(cfg, o, s, s.ruleIndex);
      } else {
        AnonymousReads(cfg, s, s.anonymous, spine.anonymous);
      }
      FrontStops(cfg, o, s, outcome.result);
    }
  }

  lemma RouteSkips(cfg: Config, o: QueryOptions, s: State)
    requires Matched(cfg, o, s) && cfg.rules[s.ruleIndex].action.Route?
    requires var action := cfg.rules[s.ruleIndex].action;
             !ResolveRoute(cfg, action.server, action.route, s.options).RouteResolved?
    ensures var r := WalkRoute(cfg, s); WalkedRight(cfg, o, r.0, r.1)
  {
    SkippedSpine(cfg, o, s, Next(s));
    PassKeepsInv(cfg, o, s, Next(s));
  }

  lemma RouteWaits(cfg: Config, o: QueryOptions, s: State)
    requires Matched(cfg, o, s) && cfg.rules[s.ruleIndex].action.Route? && s.armed != []
    requires var action := cfg.rules[s.ruleIndex].action;
             ResolveRoute(cfg, action.server, action.route, s.options).RouteResolved?
    ensures var r := WalkRoute(cfg, s); WalkedRight(cfg, o, r.0, r.1)
  {
    var t := WalkRoute(cfg, s).0;
    if t != s {
      SpeculateKeepsInv(cfg, o, s, t.futures[|s.futures|], t);
    }
  }

  lemma RouteCommits(cfg: Config, o: QueryOptions, s: State)
    requires Matched(cfg, o, s) && cfg.rules[s.ruleIndex].action.Route? && s.armed == []
    requires var action := cfg.rules[s.ruleIndex].action;
             ResolveRoute(cfg, action.server, action.route, s.options).RouteResolved?
    ensures var r := WalkRoute(cfg, s); WalkedRight(cfg, o, r.0, r.1)
  {
    var action := cfg.rules[s.ruleIndex].action;
    var status := ResolveRoute(cfg, action.server, action.route, s.options);
    FrontAsks(cfg, o, s, status.transport, status.options);
  }

  lemma MatchedRoute(cfg: Config, o: QueryOptions, s: State)
    requires Matched(cfg, o, s) && cfg.rules[s.ruleIndex].action.Route?
    ensures var r := WalkRoute(cfg, s); WalkedRight(cfg, o, r.0, r.1)
  {
    var action := cfg.rules[s.ruleIndex].action;
    if !ResolveRoute(cfg, action.server, action.route, s.options).RouteResolved? {
      RouteSkips(cfg, o, s);
    } else if s.armed != [] {
      RouteWaits(cfg, o, s);
    } else {
      RouteCommits(cfg, o, s);
    }
  }

  lemma MatchedOptions(cfg: Config, o: QueryOptions, s: State)
    requires Matched(cfg, o, s) && cfg.rules[s.ruleIndex].action.SetOptions?
    ensures var r := WalkMatched(cfg, s); WalkedRight(cfg, o, r.0, r.1)
  {
    SkippedSpine(cfg, o, s, WalkMatched(cfg, s).0);
    PassKeepsInv(cfg, o, s, WalkMatched(cfg, s).0);
  }

  lemma MatchedAnswer(cfg: Config, o: QueryOptions, s: State)
    requires Matched(cfg, o, s)
    requires cfg.rules[s.ruleIndex].action.Reject? || cfg.rules[s.ruleIndex].action.Predefined?
    ensures var r := WalkMatched(cfg, s); WalkedRight(cfg, o, r.0, r.1)
  {
    if s.armed == [] {
      FrontStops(cfg, o, s, WalkMatched(cfg, s).1.result);
    }
  }

  lemma MatchedRight(cfg: Config, o: QueryOptions, s: State)
    requires Matched(cfg, o, s)
    ensures var r := WalkMatched(cfg, s); WalkedRight(cfg, o, r.0, r.1)
  {
    match cfg.rules[s.ruleIndex].action
    case SetOptions(_) => MatchedOptions(cfg, o, s);
    case Evaluate(_, _, _, _) => MatchedEvaluate(cfg, o, s);
    case Respond => RespondRight(cfg, o, s);
    case Route(_, _, _) => MatchedRoute(cfg, o, s);
    case Reject(_) => MatchedAnswer(cfg, o, s);
    case Predefined(_) => MatchedAnswer(cfg, o, s);
  }

  // ---- a race rule ----

  lemma NextReadsSame(cfg: Config, s: State, a: Armed)
    requires a.ruleIndex < |cfg.rules|
    ensures RuleMatches(cfg, Next(s), cfg.rules[a.ruleIndex], a.anonymous) ==
            RuleMatches(cfg, s, cfg.rules[a.ruleIndex], a.anonymous)
    ensures ArmedCommitment(cfg, Next(s), a) == ArmedCommitment(cfg, s, a)
  {
    var tags := cfg.rules[a.ruleIndex].tags;
    assert BoundResponses(Next(s), tags) == BoundResponses(s, tags);
  }

  /** A sweep does not look at the walk's index. */
  lemma {:induction false} SweepIgnoresIndex(cfg: Config, s: State, i: nat)
    requires i <= |s.armed| && ArmedInRange(cfg, s)
    ensures var r := SweepFrom(cfg, s, i);
            SweepFrom(cfg, Next(s), i) == SweepOutcome(Next(r.state), r.committed)
    decreases |s.armed| - i
  {
    if i < |s.armed| {
      var a := s.armed[i];
      if !Ready(s, a) {
        SweepIgnoresIndex(cfg, s, i + 1);
      } else {
        assert Disarm(Next(s), i) == Next(Disarm(s, i));
        NextReadsSame(cfg, Disarm(s, i), a);
        SweepIgnoresIndex(cfg, Disarm(s, i), i);
      }
    }
  }

  function NewArm(cfg: Config, s: State): Armed
    requires s.ruleIndex < |cfg.rules|
  {
    var rule := cfg.rules[s.ruleIndex];
    Armed(s.ruleIndex, Unresolved(s, rule), if rule.bindsAnonymous then s.anonymous else None, s.options)
  }

  lemma NewArmRight(cfg: Config, o: QueryOptions, s: State)
    requires WellFormed(cfg) && StateInv(cfg, o, s) && AllSettled(s.futures) && cfg.RacesAt(s.ruleIndex)
    ensures ArmedRight(cfg, o, s.futures, s.named, s.anonymous, NewArm(cfg, s))
  {
    var rule := cfg.rules[s.ruleIndex];
    var a := NewArm(cfg, s);
    assert WellFormedRule(rule);
    UnresolvedInRange(s, rule.tags);
    forall tag | tag in rule.tags && tag in s.named ensures Covered(s.futures, a, s.named[tag]) {
      if !Resolved(s, s.named[tag]) {
        UnresolvedHas(s, rule.tags, tag);
      }
    }
    if rule.tags == [] {
      assert UnresolvedTags(s, rule.tags) == [];
    }
  }

  lemma ArmKeepsInv(cfg: Config, o: QueryOptions, s: State)
    requires WellFormed(cfg) && StateInv(cfg, o, s) && AllSettled(s.futures) && cfg.RacesAt(s.ruleIndex)
    ensures StateInv(cfg, o, Next(s.(armed := s.armed + [NewArm(cfg, s)])))
  {
    NewArmRight(cfg, o, s);
    PassRace(cfg, o, s, NewArm(cfg, s));
  }

  lemma PassRace(cfg: Config, o: QueryOptions, s: State, a: Armed)
    requires StateInv(cfg, o, s) && cfg.RacesAt(s.ruleIndex) && a.ruleIndex == s.ruleIndex
    requires ArmedRight(cfg, o, s.futures, s.named, s.anonymous, a)
    ensures StateInv(cfg, o, Next(s.(armed := s.armed + [a])))
  {
    OneMoreArmed(cfg, o, s, a);
    ArmKeepsPassed(cfg, o, s.ruleIndex, s.armed, a);
    RaceKeepsRest(cfg, o, s);
  }

  lemma OneMoreArmed(cfg: Config, o: QueryOptions, s: State, a: Armed)
    requires AllArmedRight(cfg, o, s.futures, s.named, s.anonymous, s.armed) && ArmedSorted(s.armed, s.ruleIndex)
    requires ArmedRight(cfg, o, s.futures, s.named, s.anonymous, a) && a.ruleIndex == s.ruleIndex
    ensures AllArmedRight(cfg, o, s.futures, s.named, s.anonymous, s.armed + [a])
    ensures ArmedSorted(s.armed + [a], s.ruleIndex + 1)
  {
  }

  /** What walking past a race rule leaves alone. */
  lemma RaceKeepsRest(cfg: Config, o: QueryOptions, s: State)
    requires cfg.RacesAt(s.ruleIndex) && OnSpine(cfg, s, SpineAt(cfg, o, s.ruleIndex))
    requires LaunchedOnce(s.futures, s.ruleIndex, s.terminal)
    requires TerminalRight(cfg, o, s.futures, s.ruleIndex, s.terminal, s.terminalIndex)
    ensures s.ruleIndex < |cfg.rules| && SpineAt(cfg, o, s.ruleIndex + 1) == SpineAt(cfg, o, s.ruleIndex)
    ensures s.terminal.None? && LaunchedOnce(s.futures, s.ruleIndex + 1, s.terminal)
  {
  }

  lemma ArmKeepsPassed(cfg: Config, o: QueryOptions, ruleIndex: nat, armed: seq<Armed>, a: Armed)
    requires Passed(cfg, o, ruleIndex, armed) && cfg.RacesAt(ruleIndex) && a.ruleIndex == ruleIndex
    ensures Passed(cfg, o, ruleIndex + 1, armed + [a])
  {
    forall k: nat | k < ruleIndex + 1 && Verdict(cfg, o, k).Some? ensures cfg.RacesAt(k) && IsArmed(armed + [a], k) {
      MoreStayArmed(armed, a, k);
    }
  }

  lemma MoreStayArmed(armed: seq<Armed>, a: Armed, k: nat)
    ensures IsArmed(armed + [a], k) <==> IsArmed(armed, k) || a.ruleIndex == k
  {
    assert (armed + [a])[|armed|] == a;
    if IsArmed(armed, k) {
      var x :| 0 <= x < |armed| && armed[x].ruleIndex == k;
      assert (armed + [a])[x].ruleIndex == k;
    }
  }

  lemma SweptCommits(cfg: Config, o: QueryOptions, s: State, origin: nat, c: Commitment)
    requires MayCommit(cfg, o, origin) && Verdict(cfg, o, origin) == Some(c) && FlagsAgree(s.futures)
    ensures var r := Committed(s, origin, c); WalkedRight(cfg, o, r.0, r.1)
  {
  }

  lemma NotReadyWaits(s: State, a: Armed)
    requires !Ready(s, a)
    ensures a.futures != []
  {
  }

  lemma ArmRuleRight(cfg: Config, o: QueryOptions, s: State)
    requires WellFormed(cfg) && StateInv(cfg, o, s) && NoIdleArms(s.armed) && AllSettled(s.futures)
    requires cfg.RacesAt(s.ruleIndex) && ArmedInRange(cfg, s)
    ensures var r := ArmRule(cfg, s); WalkedRight(cfg, o, r.0, r.1)
  {
    var s1 := s.(armed := s.armed + [NewArm(cfg, s)]);
    ArmKeepsInv(cfg, o, s);
    if NewArm(cfg, s).futures == [] {
      SweepIgnoresIndex(cfg, s1, 0);
      SweepKeepsInv(cfg, o, Next(s1), 0);
      SweepFrame(cfg, Next(s1), 0);
      var swept := Sweep(cfg, s1);
      if swept.committed.Some? {
        SweptCommits(cfg, o, swept.state, swept.committed.value.0, swept.committed.value.1);
      } else {
        forall i | 0 <= i < |swept.state.armed| ensures swept.state.armed[i].futures != [] {
          NotReadyWaits(Next(swept.state), swept.state.armed[i]);
        }
      }
    }
  }

  // ---- the walk ----

  lemma ArmedAreInRange(cfg: Config, o: QueryOptions, s: State)
    requires StateInv(cfg, o, s)
    ensures ArmedInRange(cfg, s)
  {
  }

  lemma OrdinaryRight(cfg: Config, o: QueryOptions, s: State)
    requires WellFormed(cfg) && StateInv(cfg, o, s) && NoIdleArms(s.armed) && s.ruleIndex < |cfg.rules|
    requires !cfg.RacesAt(s.ruleIndex) && Bound(s, cfg.rules[s.ruleIndex])
    ensures var r :=
              if RuleMatches(cfg, s, cfg.rules[s.ruleIndex], s.anonymous) then WalkMatched(cfg, s)
              else (Next(s), Continue);
            WalkedRight(cfg, o, r.0, r.1)
  {
    ReachedMatches(cfg, o, s);
    if Hits(cfg, s.ruleIndex, SpineAt(cfg, o, s.ruleIndex)) {
      MatchedRight(cfg, o, s);
    } else {
      SkippedSpine(cfg, o, s, Next(s));
      PassKeepsInv(cfg, o, s, Next(s));
    }
  }

  lemma AwaitRight(cfg: Config, o: QueryOptions, s: State, rule: Rule)
    requires StateInv(cfg, o, s) && NoIdleArms(s.armed) && Unresolved(s, rule) != []
    ensures WalkedRight(cfg, o, s, Suspend(Await(Unresolved(s, rule)[0])))
  {
    UnresolvedInRange(s, rule.tags);
    assert Unresolved(s, rule)[0] in Unresolved(s, rule);
  }

  lemma WalkRuleRight(cfg: Config, o: QueryOptions, s: State)
    requires WellFormed(cfg) && StateInv(cfg, o, s) && NoIdleArms(s.armed) && s.ruleIndex < |cfg.rules|
    requires ArmedInRange(cfg, s)
    ensures var r := WalkRule(cfg, s); WalkedRight(cfg, o, r.0, r.1)
  {
    var rule := cfg.rules[s.ruleIndex];
    var s1 := if rule.HasBindings() then Settle(cfg, s) else s;
    if rule.HasBindings() {
      SettleKeepsInv(cfg, o, s);
    }
    if rule.Races() {
      ArmRuleRight(cfg, o, s1);
    } else if Unresolved(s1, rule) != [] {
      AwaitRight(cfg, o, s1, rule);
    } else {
      NothingUnresolved(s1, rule);
      OrdinaryRight(cfg, o, s1);
    }
  }

  lemma WalkRight(cfg: Config, o: QueryOptions, s: State)
    requires WellFormed(cfg) && StateInv(cfg, o, s) && NoIdleArms(s.armed) && ArmedInRange(cfg, s)
    ensures var r := Walk(cfg, s); WalkedRight(cfg, o, r.0, r.1)
  {
    if s.ruleIndex < |cfg.rules| {
      WalkRuleRight(cfg, o, s);
    } else if s.armed == [] {
      FrontAsks(cfg, o, s, cfg.defaultTransport, s.options);
    }
  }
}
