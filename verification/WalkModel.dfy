/** The rule list the DNS walker interprets, and the world it runs in. */
module WalkModel {
  import opened Basics

  /** A DNS message; the walker hands messages on and never looks inside one. */
  datatype Message = Message(wire: seq<int>)

  datatype Outcome = Reply(message: Message) | Failed(code: int)

  datatype RejectMethod = RejectDefault | RejectDrop

  datatype Action =
    | SetOptions(route: RouteOptions)
    | Evaluate(server: string, tag: string, speculative: bool, route: RouteOptions)
    | Respond
    | Route(server: string, speculative: bool, route: RouteOptions)
    | Reject(rejectMethod: RejectMethod)
    | Predefined(response: Message)

  /** A top-level rule. `matches` sees the query (fixed for a walk) and only the responses
      the rule binds: one per tag, and the anonymous one when it binds that. */
  datatype Rule = Rule(
    tags: seq<string>,
    bindsAnonymous: bool,
    respondTag: string,
    race: bool,
    action: Action,
    matches: (seq<Option<Message>>, Option<Message>) -> bool)
  {
    predicate HasBindings() { |tags| > 0 || bindsAnonymous }

    predicate Races() { race && HasBindings() }
  }

  datatype Error = MissingResponse | Dropped | ExchangeFailed(code: int)

  datatype Result = Result(
    response: Option<Message>,
    transport: Option<Transport>,
    reject: Option<RejectMethod>,
    error: Option<Error>)

  /** Everything a walk reads and never writes. `exchange(i, t, o)` is the outcome of the query
      that rule `i` sends to `t` with options `o`; index |rules| stands for the default route. */
  datatype Config = Config(
    rules: seq<Rule>,
    transports: map<string, Transport>,
    defaultTransport: Transport,
    defaultStrategy: Strategy,
    allowFakeIP: bool,
    refused: Message,
    exchange: (nat, Transport, QueryOptions) -> Outcome)
  {
    predicate RacesAt(i: nat) { i < |rules| && rules[i].Races() }

    function Finalize(options: QueryOptions): QueryOptions {
      if options.strategy == AsIs then options.(strategy := defaultStrategy) else options
    }

    function Ask(origin: nat, transport: Transport, options: QueryOptions): Outcome {
      exchange(origin, transport, Finalize(options))
    }
  }

  function Answer(outcome: Outcome): Option<Message> {
    if outcome.Reply? then Some(outcome.message) else None
  }

  datatype RouteStatus = RouteMissing | RouteSkipped | RouteResolved(transport: Transport, options: QueryOptions)

  function ResolveRoute(cfg: Config, server: string, route: RouteOptions, options: QueryOptions): RouteStatus {
    if server !in cfg.transports then RouteMissing
    else
      var transport := cfg.transports[server];
      if transport.fakeIP && !cfg.allowFakeIP then RouteSkipped
      else
        var applied := ApplyRouteOptions(options, route);
        RouteResolved(transport, if transport.fakeIP then applied.(disableCache := true) else applied)
  }

  /** What a rule that ends the walk asks for: an answer at hand, or one more exchange. */
  datatype Commitment = Final(result: Result) | Query(transport: Transport, options: QueryOptions)

  function RespondWith(response: Option<Message>, transport: Option<Transport>): Result {
    if response.None? then Result(None, None, None, Some(MissingResponse))
    else Result(response, transport, None, None)
  }

  function RejectResult(cfg: Config, how: RejectMethod): Result {
    match how
    case RejectDefault => Result(Some(cfg.refused), None, Some(how), None)
    case RejectDrop => Result(None, None, Some(how), Some(Dropped))
  }

  function ExchangeResult(transport: Transport, outcome: Outcome): Result {
    Result(Answer(outcome), Some(transport), None,
           if outcome.Failed? then Some(ExchangeFailed(outcome.code)) else None)
  }
}
