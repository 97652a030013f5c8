/** The reference semantics: a walker that blocks at every evaluate, and what each rule would
    decide along its path. Neither knows about futures, suspensions or completion order. */
module WalkSpec {
  import opened Basics
  import opened WalkModel

  /** A finished evaluate: where it was sent and what came back. */
  datatype Evaluated = Evaluated(transport: Transport, outcome: Outcome)

  datatype Spine = Spine(options: QueryOptions, anonymous: Option<Evaluated>, named: map<string, Evaluated>)

  function EvaluatedAnswer(e: Option<Evaluated>): Option<Message> {
    if e.Some? then Answer(e.value.outcome) else None
  }

  function Named(spine: Spine, tag: string): Option<Evaluated> {
    if tag in spine.named then Some(spine.named[tag]) else None
  }

  function NamedAnswers(spine: Spine, tags: seq<string>): (r: seq<Option<Message>>)
    ensures |r| == |tags|
    ensures forall i :: 0 <= i < |tags| ==> r[i] == EvaluatedAnswer(Named(spine, tags[i]))
  {
    seq(|tags|, i requires 0 <= i < |tags| => EvaluatedAnswer(Named(spine, tags[i])))
  }

  predicate Hits(cfg: Config, i: nat, spine: Spine)
    requires i < |cfg.rules|
  {
    var rule := cfg.rules[i];
    rule.matches(NamedAnswers(spine, rule.tags),
                 if rule.bindsAnonymous then EvaluatedAnswer(spine.anonymous) else None)
  }

  /** What a matching rule commits to, or None when the walk goes on past it. */
  function Decide(cfg: Config, i: nat, spine: Spine): Option<Commitment>
    requires i < |cfg.rules|
  {
    var rule := cfg.rules[i];
    match rule.action
    case SetOptions(_) => None
    case Evaluate(_, _, _, _) => None
    case Respond =>
      var source := if rule.respondTag != "" then Named(spine, rule.respondTag) else spine.anonymous;
      Some(Final(RespondWith(EvaluatedAnswer(source), if source.Some? then Some(source.value.transport) else None)))
    case Route(server, _, route) =>
      var status := ResolveRoute(cfg, server, route, spine.options);
      if status.RouteResolved? then Some(Query(status.transport, status.options)) else None
    case Reject(how) => Some(Final(RejectResult(cfg, how)))
    case Predefined(response) => Some(Final(Result(Some(response), None, None, None)))
  }

  /** The effect of walking past rule `i`. */
  function Advance(cfg: Config, i: nat, spine: Spine): Spine
    requires i < |cfg.rules|
  {
    if !Hits(cfg, i, spine) then spine
    else
      match cfg.rules[i].action
      case SetOptions(route) => spine.(options := ApplyRouteOptions(spine.options, route))
      case Evaluate(server, tag, _, route) =>
        if server !in cfg.transports then
          if tag == "" then spine.(anonymous := None) else spine
        else
          var transport := cfg.transports[server];
          var e := Evaluated(transport, cfg.Ask(i, transport, ApplyRouteOptions(spine.options, route)));
          if tag == "" then spine.(anonymous := Some(e)) else spine.(named := spine.named[tag := e])
      case _ => spine
  }

  function ResultOf(cfg: Config, origin: nat, c: Commitment): Result {
    match c
    case Final(result) => result
    case Query(transport, options) => ExchangeResult(transport, cfg.Ask(origin, transport, options))
  }

  /** The sequential walker: rule by rule, blocking at each evaluate, blind to `race` and `speculative`. */
  function Sequential(cfg: Config, i: nat, spine: Spine): Result
    requires i <= |cfg.rules|
    decreases |cfg.rules| - i
  {
    if i == |cfg.rules| then ResultOf(cfg, i, Query(cfg.defaultTransport, spine.options))
    else
      var decision := if Hits(cfg, i, spine) then Decide(cfg, i, spine) else None;
      match decision
      case Some(c) => ResultOf(cfg, i, c)
      case None => Sequential(cfg, i + 1, Advance(cfg, i, spine))
  }

  function Start(options: QueryOptions): Spine {
    Spine(options, None, map[])
  }

  /** The walk's state on reaching rule `i`: a race rule leaves no trace on it. */
  function SpineAt(cfg: Config, options: QueryOptions, i: nat): Spine
    requires i <= |cfg.rules|
  {
    if i == 0 then Start(options)
    else if cfg.RacesAt(i - 1) then SpineAt(cfg, options, i - 1)
    else Advance(cfg, i - 1, SpineAt(cfg, options, i - 1))
  }

  /** What rule `i` decides once every response it binds has arrived; |rules| is the default route. */
  function Verdict(cfg: Config, options: QueryOptions, i: nat): Option<Commitment>
    requires i <= |cfg.rules|
  {
    var spine := SpineAt(cfg, options, i);
    if i == |cfg.rules| then Some(Query(cfg.defaultTransport, spine.options))
    else if Hits(cfg, i, spine) then Decide(cfg, i, spine)
    else None
  }

  /** Rule `c` is allowed to end the walk: it has a verdict, no ordinary rule before it has one,
      and unless it races no race rule before it has one either. */
  ghost predicate MayCommit(cfg: Config, options: QueryOptions, c: nat) {
    && c <= |cfg.rules|
    && Verdict(cfg, options, c).Some?
    && forall k :: 0 <= k < c && Verdict(cfg, options, k).Some? ==> cfg.RacesAt(k) && cfg.RacesAt(c)
  }

  /** Rule `origin` may end the walk, and `result` is what its verdict comes to. */
  ghost predicate Sound(cfg: Config, options: QueryOptions, origin: nat, result: Result) {
    MayCommit(cfg, options, origin) && result == ResultOf(cfg, origin, Verdict(cfg, options, origin).value)
  }

  ghost predicate DefinesTag(cfg: Config, i: nat, tag: string) {
    i < |cfg.rules| && cfg.rules[i].action.Evaluate? && cfg.rules[i].action.tag == tag && tag != ""
  }

  /** What rule validation guarantees: every tag is defined by one rule, before any rule that
      binds it; a respond rule answers with a response it binds. */
  ghost predicate WellFormed(cfg: Config) {
    && (forall i, j, tag :: DefinesTag(cfg, i, tag) && DefinesTag(cfg, j, tag) ==> i == j)
    && (forall i: nat, j: nat, tag :: DefinesTag(cfg, i, tag) && j < |cfg.rules| && tag in cfg.rules[j].tags ==> i < j)
    && (forall j: nat :: j < |cfg.rules| ==> WellFormedRule(cfg.rules[j]))
  }

  predicate WellFormedRule(rule: Rule) {
    && "" !in rule.tags
    && (rule.respondTag != "" ==> rule.tags == [rule.respondTag] && !rule.bindsAnonymous)
    && (rule.action.Respond? && rule.respondTag == "" ==> rule.tags == [])
  }
}
