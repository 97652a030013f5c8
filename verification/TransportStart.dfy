/** The DNS transport manager: registering transports, and starting each after its dependencies. */
module TransportStart {
  import opened Basics

  datatype Server = Server(tag: string, dependencies: seq<string>, isFakeIP: bool)

  // ---- dependency graphs ----

  function Tags(servers: seq<Server>): set<string> {
    set i | 0 <= i < |servers| :: servers[i].tag
  }

  ghost predicate DistinctTags(servers: seq<Server>) {
    forall i, j :: 0 <= i < j < |servers| ==> servers[i].tag != servers[j].tag
  }

  /** Some server with the first tag depends on the second. */
  ghost predicate Edge(servers: seq<Server>, a: string, b: string) {
    exists i :: 0 <= i < |servers| && servers[i].tag == a && b in servers[i].dependencies
  }

  /** Every dependency is a server. */
  ghost predicate Closed(servers: seq<Server>) {
    forall a, b :: Edge(servers, a, b) ==> b in Tags(servers)
  }

  /** Each tag depends on the next. */
  ghost predicate IsPath(servers: seq<Server>, path: seq<string>) {
    forall i :: 0 <= i < |path| - 1 ==> Edge(servers, path[i], path[i + 1])
  }

  /** A path of at least one edge that ends where it began. */
  ghost predicate IsCycle(servers: seq<Server>, path: seq<string>) {
    |path| >= 2 && IsPath(servers, path) && path[0] == path[|path| - 1]
  }

  ghost predicate Acyclic(servers: seq<Server>) {
    forall path :: !IsCycle(servers, path)
  }

  // ---- start orders ----

  /** Servers in an order where each comes once, after all of its dependencies. */
  ghost predicate IsStartOrder(servers: seq<Server>, order: seq<string>) {
    && NoRepeats(order)
    && (forall i :: 0 <= i < |order| ==> order[i] in Tags(servers))
    && (forall i, d :: 0 <= i < |order| && Edge(servers, order[i], d) ==> d in order[..i])
  }

  lemma NextInOrder(servers: seq<Server>, order: seq<string>, k: nat)
    requires IsStartOrder(servers, order) && DistinctTags(servers) && k < |servers| && servers[k].tag !in order
    requires forall d :: d in servers[k].dependencies ==> d in order
    ensures IsStartOrder(servers, order + [servers[k].tag])
  {
    var next := order + [servers[k].tag];
    forall i, d | 0 <= i < |next| && Edge(servers, next[i], d) ensures d in next[..i] {
      if i < |order| {
        assert next[..i] == order[..i];
      } else {
        assert next[..i] == order;
      }
    }
  }

  lemma {:induction false} CycleGoesDown(servers: seq<Server>, order: seq<string>, path: seq<string>, at: nat)
    requires IsStartOrder(servers, order) && |path| >= 1 && IsPath(servers, path)
    requires at < |order| && order[at] == path[0]
    ensures exists k :: 0 <= k <= at && order[k] == path[|path| - 1] && (|path| >= 2 ==> k < at)
  {
    if |path| >= 2 {
      assert Edge(servers, path[0], path[1]);
      var k :| 0 <= k < at && order[k] == path[1];
      forall i | 0 <= i < |path[1..]| - 1 ensures Edge(servers, path[1..][i], path[1..][i + 1]) {
        assert Edge(servers, path[i + 1], path[i + 2]);
      }
      CycleGoesDown(servers, order, path[1..], k);
    }
  }

  /** A start order of all servers shows the graph closed and without cycles. */
  lemma FullOrderIsSound(servers: seq<Server>, order: seq<string>)
    requires IsStartOrder(servers, order) && forall t :: t in Tags(servers) ==> t in order
    ensures Closed(servers) && Acyclic(servers)
  {
    forall a, b | Edge(servers, a, b) ensures b in Tags(servers) {
      assert a in Tags(servers);
      var i :| 0 <= i < |order| && order[i] == a;
      assert b in order[..i];
    }
    forall path | IsCycle(servers, path) ensures false {
      assert Edge(servers, path[0], path[1]);
      assert path[0] in Tags(servers);
      var at :| 0 <= at < |order| && order[at] == path[0];
      CycleGoesDown(servers, order, path, at);
    }
  }

  // ---- one pass over the servers ----

  ghost predicate Ready(s: Server, started: set<string>) {
    forall d :: d in s.dependencies ==> d in started
  }

  /** Nothing is left that can start. */
  ghost predicate Stuck(servers: seq<Server>, started: set<string>) {
    forall i :: 0 <= i < |servers| ==> servers[i].tag in started || !Ready(servers[i], started)
  }

  datatype Outcome =
    | AllStarted
    | StartFailed(tag: string)
    | Missing(tag: string, server: string)
    | Circular(path: seq<string>)

  function ToSet(tags: seq<string>): set<string> {
    set t | t in tags
  }

  method IsReady(s: Server, started: set<string>) returns (ready: bool)
    ensures ready <==> Ready(s, started)
  {
    var i := 0;
    while i < |s.dependencies|
      invariant i <= |s.dependencies| && forall k :: 0 <= k < i ==> s.dependencies[k] in started
    {
      if s.dependencies[i] !in started {
        return false;
      }
      i := i + 1;
    }
    return true;
  }

  lemma OneMoreBegan(began: seq<string>, order: seq<string>, tag: string)
    requires began <= order
    ensures began <= order + [tag] && ToSet(order + [tag]) == ToSet(order) + {tag}
    ensures forall t :: t in order + [tag] <==> t in order || t == tag
  {
  }

  /** The inner loop: starts whatever can start, in list order, and stops at a start that fails. */
  method StartPass(servers: seq<Server>, fails: set<string>, began: seq<string>)
    returns (started: set<string>, order: seq<string>, canContinue: bool, failed: bool)
    requires DistinctTags(servers) && IsStartOrder(servers, began)
    ensures IsStartOrder(servers, order) && started == ToSet(order) && began <= order
    ensures canContinue <==> |began| < |order|
    ensures !canContinue ==> Stuck(servers, started)
    ensures failed ==> |order| > 0 && order[|order| - 1] in fails
    ensures !failed ==> forall t :: t in order && t !in began ==> t !in fails
  {
    started, order, canContinue, failed := ToSet(began), began, false, false;
    var i := 0;
    while i < |servers|
      invariant i <= |servers| && IsStartOrder(servers, order) && started == ToSet(order) && began <= order
      invariant canContinue <==> |began| < |order|
      invariant !canContinue ==> forall k :: 0 <= k < i ==> servers[k].tag in started || !Ready(servers[k], started)
      invariant forall t :: t in order && t !in began ==> t !in fails
    {
      var s := servers[i];
      i := i + 1;
      if s.tag in started {
        continue;
      }
      var ready := IsReady(s, started);
      if !ready {
        continue;
      }
      NextInOrder(servers, order, i - 1);
      OneMoreBegan(began, order, s.tag);
      order := order + [s.tag];
      started := started + {s.tag};
      canContinue := true;
      if s.tag in fails {
        failed := true;
        return;
      }
    }
  }

  // ---- the diagnosis ----

  /** What a diagnosis says is true of the servers. */
  ghost predicate IsTrueOf(servers: seq<Server>, r: Outcome) {
    match r
    case Missing(tag, server) => tag !in Tags(servers) && Edge(servers, server, tag)
    case Circular(path) =>
      |path| >= 2 && IsPath(servers, path) && exists k :: 0 <= k < |path| - 1 && IsCycle(servers, path[k..])
    case _ => false
  }

  lemma DiagnosisRefutes(servers: seq<Server>, r: Outcome)
    requires IsTrueOf(servers, r)
    ensures !(Closed(servers) && Acyclic(servers))
  {
    if r.Circular? {
      var k :| 0 <= k < |r.path| - 1 && IsCycle(servers, r.path[k..]);
    }
  }

  lemma {:induction false} NoRepeatsSize(tags: seq<string>)
    requires NoRepeats(tags)
    ensures |ToSet(tags)| == |tags|
  {
    if tags != [] {
      var init, last := tags[..|tags| - 1], tags[|tags| - 1];
      NoRepeatsSize(init);
      assert last !in init;
      assert ToSet(tags) == ToSet(init) + {last};
    }
  }

  lemma SubsetSize(a: set<string>, b: set<string>)
    requires a <= b
    ensures |a| <= |b|
    ensures |a| == |b| ==> a == b
  {
    assert b == a + (b - a);
  }

  function TagList(servers: seq<Server>): (r: seq<string>)
    ensures |r| == |servers| && forall i :: 0 <= i < |r| ==> r[i] == servers[i].tag
  {
    seq(|servers|, i requires 0 <= i < |servers| => servers[i].tag)
  }

  lemma ServerCount(servers: seq<Server>)
    requires DistinctTags(servers)
    ensures |Tags(servers)| == |servers|
  {
    NoRepeatsSize(TagList(servers));
    assert ToSet(TagList(servers)) == Tags(servers) by {
      forall t | t in Tags(servers) ensures t in TagList(servers) {
        var i :| 0 <= i < |servers| && servers[i].tag == t;
        assert TagList(servers)[i] == t;
      }
    }
  }

  /** A path without repeats through the servers is no longer than there are servers. */
  lemma PathIsShort(servers: seq<Server>, tree: seq<string>)
    requires DistinctTags(servers) && NoRepeats(tree) && forall i :: 0 <= i < |tree| ==> tree[i] in Tags(servers)
    ensures |tree| <= |servers|
  {
    NoRepeatsSize(tree);
    ServerCount(servers);
    SubsetSize(ToSet(tree), Tags(servers));
  }

  /** The first element not yet started. */
  function FirstUnstarted(tags: seq<string>, started: set<string>): (r: Option<string>)
    ensures r.None? ==> forall t :: t in tags ==> t in started
    ensures r.Some? ==> r.value in tags && r.value !in started
  {
    if tags == [] then None
    else if tags[0] !in started then Some(tags[0])
    else FirstUnstarted(tags[1..], started)
  }

  ghost predicate ByTagMatches(servers: seq<Server>, byTag: map<string, Server>) {
    && (forall t :: t in byTag <==> t in Tags(servers))
    && (forall t :: t in byTag ==> byTag[t] in servers && byTag[t].tag == t)
  }

  /** The path so far: through servers that have not started, without repeats, to the current one. */
  ghost predicate IsTree(servers: seq<Server>, started: set<string>, tree: seq<string>, current: Server) {
    && |tree| >= 1 && tree[|tree| - 1] == current.tag && current in servers
    && NoRepeats(tree) && IsPath(servers, tree)
    && forall i :: 0 <= i < |tree| ==> tree[i] in Tags(servers) && tree[i] !in started
  }

  lemma ExtendTree(servers: seq<Server>, tree: seq<string>, current: Server, next: string)
    requires |tree| >= 1 && tree[|tree| - 1] == current.tag && current in servers && next in current.dependencies
    requires IsPath(servers, tree)
    ensures IsPath(servers, tree + [next])
    ensures Edge(servers, current.tag, next)
  {
    var i :| 0 <= i < |servers| && servers[i] == current;
    var path := tree + [next];
    forall k | 0 <= k < |path| - 1 ensures Edge(servers, path[k], path[k + 1]) {
      if k < |tree| - 1 {
        assert Edge(servers, tree[k], tree[k + 1]);
      }
    }
  }

  lemma ClosingIsCircular(servers: seq<Server>, tree: seq<string>, next: string)
    requires |tree| >= 1 && IsPath(servers, tree + [next]) && next in tree
    ensures IsTrueOf(servers, Circular(tree + [next]))
  {
    var path := tree + [next];
    var k :| 0 <= k < |tree| && tree[k] == next;
    var cycle := path[k..];
    forall i | 0 <= i < |cycle| - 1 ensures Edge(servers, cycle[i], cycle[i + 1]) {
      assert Edge(servers, path[k + i], path[k + i + 1]);
    }
    assert IsCycle(servers, path[k..]);
  }

  /** lintTransport: follows dependencies that have not started until one is missing or comes again. */
  method Lint(servers: seq<Server>, byTag: map<string, Server>, started: set<string>, tree: seq<string>,
              current: Server)
    returns (r: Outcome)
    requires DistinctTags(servers) && ByTagMatches(servers, byTag) && Stuck(servers, started)
    requires IsTree(servers, started, tree, current)
    ensures IsTrueOf(servers, r)
    decreases |servers| - |tree|
  {
    assert !Ready(current, started);
    var problem := FirstUnstarted(current.dependencies, started);
    var tag := problem.value;
    ExtendTree(servers, tree, current, tag);
    if tag in tree {
      ClosingIsCircular(servers, tree, tag);
      return Circular(tree + [tag]);
    }
    if tag !in byTag {
      return Missing(tag, current.tag);
    }
    PathIsShort(servers, tree + [tag]);
    r := Lint(servers, byTag, started, tree + [tag], byTag[tag]);
  }

  /** startTransports */
  method StartTransports(servers: seq<Server>, byTag: map<string, Server>, fails: set<string>)
    returns (r: Outcome, order: seq<string>)
    requires DistinctTags(servers) && ByTagMatches(servers, byTag)
    ensures IsStartOrder(servers, order)
    ensures r.AllStarted? <==> Closed(servers) && Acyclic(servers) && Tags(servers) !! fails
    ensures r.AllStarted? ==> ToSet(order) == Tags(servers) && |order| == |servers|
    ensures r.StartFailed? ==> |order| > 0 && r.tag == order[|order| - 1] && r.tag in fails
    ensures r.Missing? || r.Circular? ==> IsTrueOf(servers, r)
  {
    order := [];
    var started: set<string> := {};
    ServerCount(servers);
    while true
      invariant IsStartOrder(servers, order) && |order| <= |servers|
      invariant forall t :: t in order ==> t !in fails
      decreases |servers| - |order|
    {
      ghost var began := order;
      var canContinue, failed;
      started, order, canContinue, failed := StartPass(servers, fails, order);
      PathIsShort(servers, order);
      if failed {
        assert order[|order| - 1] in Tags(servers);
        return StartFailed(order[|order| - 1]), order;
      }
      NoRepeatsSize(order);
      SubsetSize(started, Tags(servers));
      if |started| == |servers| {
        FullOrderIsSound(servers, order);
        return AllStarted, order;
      }
      if canContinue {
        continue;
      }
      SomethingLeft(started, Tags(servers));
      var current := FirstUnstarted(TagList(servers), started);
      UnstartedServer(servers, started);
      r := Lint(servers, byTag, started, [current.value], byTag[current.value]);
      DiagnosisRefutes(servers, r);
      return;
    }
  }

  lemma SomethingLeft(a: set<string>, b: set<string>)
    requires a <= b && a != b
    ensures exists t :: t in b && t !in a
  {
    var rest := b - a;
    assert rest == {} ==> b == a + rest;
    var t :| t in rest;
  }

  lemma UnstartedServer(servers: seq<Server>, started: set<string>)
    requires exists t :: t in Tags(servers) && t !in started
    ensures FirstUnstarted(TagList(servers), started).Some?
    ensures FirstUnstarted(TagList(servers), started).value in Tags(servers)
  {
    var t :| t in Tags(servers) && t !in started;
    var i :| 0 <= i < |servers| && servers[i].tag == t;
    assert TagList(servers)[i] == t;
    var r := FirstUnstarted(TagList(servers), started);
    var k :| 0 <= k < |servers| && TagList(servers)[k] == r.value;
    assert servers[k].tag == r.value;
  }

  // ---- the manager ----

  lemma RegisterKeeps(servers: seq<Server>, byTag: map<string, Server>, server: Server)
    requires DistinctTags(servers) && ByTagMatches(servers, byTag) && server.tag !in byTag
    ensures var more := servers + [server];
            && DistinctTags(more) && ByTagMatches(more, byTag[server.tag := server])
            && Tags(more) == Tags(servers) + {server.tag}
  {
    var more := servers + [server];
    assert more[|servers|] == server;
    assert forall i :: 0 <= i < |servers| ==> more[i] == servers[i] && servers[i].tag in Tags(servers);
    assert Tags(more) == Tags(servers) + {server.tag};
  }

  /** Without a configured default, the first server is the default; so no default means no server.
      The one fakeip server is known. */
  ghost predicate Settled(defaultTag: string, servers: seq<Server>, defaultServer: Option<Server>,
                          fakeIP: Option<Server>) {
    && (defaultTag == "" && defaultServer.None? ==> servers == [])
    && (defaultTag != "" ==> (defaultServer.Some? <==> defaultTag in Tags(servers)))
    && forall i :: 0 <= i < |servers| && servers[i].isFakeIP ==> fakeIP == Some(servers[i])
  }

  /** A server can be added to settled ones: a new tag; and if it is fakeip, not the default and the only one. */
  ghost predicate CanAdd(defaultTag: string, servers: seq<Server>, server: Server) {
    && server.tag != "" && server.tag !in Tags(servers)
    && (server.isFakeIP ==>
          && server.tag != defaultTag && (defaultTag == "" ==> servers != [])
          && forall i :: 0 <= i < |servers| ==> !servers[i].isFakeIP)
  }

  /** The registered servers, in order and by tag, the default one and the fakeip one. */
  class Manager {
    const defaultTag: string
    var servers: seq<Server>
    var byTag: map<string, Server>
    var defaultServer: Option<Server>
    var fakeIP: Option<Server>

    ghost predicate Valid()
      reads this
    {
      && DistinctTags(servers) && ByTagMatches(servers, byTag)
      && (defaultServer.Some? ==> defaultServer.value in servers && !defaultServer.value.isFakeIP)
      && (fakeIP.Some? ==> fakeIP.value in servers && fakeIP.value.isFakeIP)
    }

    ghost predicate DefaultSettled()
      reads this
    {
      Settled(defaultTag, servers, defaultServer, fakeIP)
    }

    constructor (defaultTag: string)
      ensures this.defaultTag == defaultTag && servers == [] && Valid() && DefaultSettled()
    {
      this.defaultTag, servers, byTag, defaultServer, fakeIP := defaultTag, [], map[], None, None;
    }

    /** Create, for the server the registry has built. The server is registered on every path that
        gets past the duplicate check, also the two that then fail. */
    method Create(server: Server) returns (ok: bool)
      requires Valid()
      modifies this
      ensures Valid()
      ensures old(DefaultSettled()) && ok ==> DefaultSettled()
      ensures ok ==> server.tag != "" && server.tag !in Tags(old(servers)) && servers == old(servers) + [server]
      ensures server.tag == "" || server.tag in Tags(old(servers)) ==> !ok && servers == old(servers)
      ensures server.tag != "" && server.tag !in Tags(old(servers)) ==> servers == old(servers) + [server]
      ensures !ok ==> fakeIP == old(fakeIP) && (defaultServer == old(defaultServer) || defaultServer == Some(server))
      ensures old(DefaultSettled()) ==> (ok <==> CanAdd(defaultTag, old(servers), server))
    {
      if server.tag == "" {
        return false;
      }
      if server.tag in byTag {
        return false;
      }
      RegisterKeeps(servers, byTag, server);
      servers := servers + [server];
      byTag := byTag[server.tag := server];
      assert servers[|servers| - 1] == server && forall i :: 0 <= i < |old(servers)| ==> servers[i] == old(servers)[i];
      if server.tag == defaultTag || (defaultTag == "" && defaultServer.None?) {
        if server.isFakeIP {
          return false;
        }
        defaultServer := Some(server);
      }
      if server.isFakeIP {
        if fakeIP.Some? {
          return false;
        }
        fakeIP := Some(server);
      }
      return true;
    }

    /** The Initialize stage: the fallback server stands in where no default is configured or created. */
    method Initialize(fallback: Option<Server>) returns (ok: bool)
      requires Valid() && DefaultSettled()
      requires fallback.Some? ==> !fallback.value.isFakeIP
      modifies this
      ensures Valid()
      ensures ok <==>
              if defaultTag != "" then defaultTag in Tags(old(servers)) else old(servers) != [] || fallback.Some?
      ensures ok ==> defaultServer.Some?
      ensures servers ==
              if defaultTag == "" && old(servers) == [] && fallback.Some? then [fallback.value] else old(servers)
    {
      if defaultTag != "" && defaultServer.None? {
        return false;
      }
      if defaultServer.None? {
        if fallback.None? {
          return false;
        }
        servers := servers + [fallback.value];
        byTag := byTag[fallback.value.tag := fallback.value];
        defaultServer := fallback;
        assert servers[0] == fallback.value && Tags(servers) == {fallback.value.tag};
      }
      return true;
    }

    /** The Start stage. */
    method Start(fails: set<string>) returns (r: Outcome, order: seq<string>)
      requires Valid()
      ensures IsStartOrder(servers, order)
      ensures r.AllStarted? <==> Closed(servers) && Acyclic(servers) && Tags(servers) !! fails
      ensures r.AllStarted? ==> ToSet(order) == Tags(servers) && |order| == |servers|
      ensures r.StartFailed? ==> |order| > 0 && r.tag == order[|order| - 1] && r.tag in fails
      ensures r.Missing? || r.Circular? ==> IsTrueOf(servers, r)
    {
      r, order := StartTransports(servers, byTag, fails);
    }
  }
}
