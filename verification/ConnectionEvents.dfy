/** The connection event stream: what is sent about each connection, against the snapshots kept
    of it, and what a reader of the stream makes of it. */
module ConnectionEvents {
  import opened Basics

  /** An active connection with its counters, both read at one instant. */
  datatype Connection = Connection(id: nat, uplink: int, downlink: int)

  datatype Snapshot = Snapshot(uplink: int, downlink: int, hadTraffic: bool)

  type Snapshots = map<nat, Snapshot>

  datatype Event =
    | New(id: nat, uplink: int, downlink: int, open: bool)
    | Update(id: nat, uplinkDelta: int, downlinkDelta: int)
    | Closed(id: nat)

  /** What the traffic manager reports. */
  datatype Report = Opened(connection: Connection) | Ended(id: nat) | Unknown

  // ---- the reader ----

  /** The reader's totals after one more event. It only adds what it is told. */
  function See(view: Snapshots, e: Event): Snapshots {
    match e
    case New(id, uplink, downlink, open) => if open then view[id := Snapshot(uplink, downlink, false)] else view
    case Update(id, up, down) =>
      if id in view then view[id := Snapshot(view[id].uplink + up, view[id].downlink + down, up != 0 || down != 0)]
      else view
    case Closed(id) => view - {id}
  }

  function SeeAll(view: Snapshots, events: seq<Event>): Snapshots {
    if events == [] then view else See(SeeAll(view, events[..|events| - 1]), events[|events| - 1])
  }

  /** The event makes sense to the reader: a connection is announced once while it is open, an
      update is about an open one, takes nothing back, and says zero only after it said more. */
  predicate Fits(view: Snapshots, e: Event) {
    match e
    case New(id, _, _, open) => open ==> id !in view
    case Update(id, up, down) =>
      && id in view && up >= 0 && down >= 0
      && (up == 0 && down == 0 ==> view[id].hadTraffic)
    case Closed(_) => true
  }

  ghost predicate FitsAll(view: Snapshots, events: seq<Event>) {
    forall i :: 0 <= i < |events| ==> Fits(SeeAll(view, events[..i]), events[i])
  }

  lemma SeeMore(view: Snapshots, events: seq<Event>, e: Event)
    ensures SeeAll(view, events + [e]) == See(SeeAll(view, events), e)
  {
    assert (events + [e])[..|events|] == events;
  }

  lemma FitsMore(view: Snapshots, events: seq<Event>, e: Event)
    requires FitsAll(view, events) && Fits(SeeAll(view, events), e)
    ensures FitsAll(view, events + [e])
  {
    var more := events + [e];
    forall i | 0 <= i < |more| ensures Fits(SeeAll(view, more[..i]), more[i]) {
      assert more[..i] == events[..i];
      assert events[..|events|] == events;
    }
  }

  lemma {:induction false} SeeBoth(view: Snapshots, a: seq<Event>, b: seq<Event>)
    ensures SeeAll(view, a + b) == SeeAll(SeeAll(view, a), b)
  {
    if b == [] {
      assert a + b == a;
    } else {
      var init := b[..|b| - 1];
      SeeBoth(view, a, init);
      assert a + b == a + init + [b[|b| - 1]];
      SeeMore(view, a + init, b[|b| - 1]);
    }
  }

  lemma FitsBoth(view: Snapshots, a: seq<Event>, b: seq<Event>)
    requires FitsAll(view, a) && FitsAll(SeeAll(view, a), b)
    ensures FitsAll(view, a + b)
  {
    forall i | 0 <= i < |a + b| ensures Fits(SeeAll(view, (a + b)[..i]), (a + b)[i]) {
      if i < |a| {
        assert (a + b)[..i] == a[..i];
      } else {
        assert (a + b)[..i] == a + b[..i - |a|];
        SeeBoth(view, a, b[..i - |a|]);
      }
    }
  }

  // ---- one tick ----

  ghost predicate DistinctIds(active: seq<Connection>) {
    forall i, j :: 0 <= i < j < |active| ==> active[i].id != active[j].id
  }

  function Ids(active: seq<Connection>): set<nat> {
    set i | 0 <= i < |active| :: active[i].id
  }

  /** No counter is lower than its snapshot. */
  predicate Rose(s: Snapshots, c: Connection) {
    c.id in s ==> s[c.id].uplink <= c.uplink && s[c.id].downlink <= c.downlink
  }

  ghost predicate AllRose(s: Snapshots, active: seq<Connection>) {
    forall i :: 0 <= i < |active| ==> Rose(s, active[i])
  }

  function SnapshotOf(s: Snapshots, c: Connection): Snapshot {
    Snapshot(c.uplink, c.downlink,
             c.id in s && Rose(s, c) && (c.uplink != s[c.id].uplink || c.downlink != s[c.id].downlink))
  }

  /** The event a tick sends about one connection, if any. */
  function EventOf(s: Snapshots, c: Connection): seq<Event> {
    if c.id !in s then [New(c.id, c.uplink, c.downlink, true)]
    else if Rose(s, c) && (c.uplink != s[c.id].uplink || c.downlink != s[c.id].downlink) then
      [Update(c.id, c.uplink - s[c.id].uplink, c.downlink - s[c.id].downlink)]
    else if s[c.id].hadTraffic then [Update(c.id, 0, 0)]
    else []
  }

  function EventsOf(s: Snapshots, active: seq<Connection>): seq<Event> {
    if active == [] then []
    else EventsOf(s, active[..|active| - 1]) + EventOf(s, active[|active| - 1])
  }

  /** The snapshots once the active connections have been gone through. */
  function Refreshed(s: Snapshots, active: seq<Connection>): Snapshots {
    if active == [] then s
    else
      var c := active[|active| - 1];
      Refreshed(s, active[..|active| - 1])[c.id := SnapshotOf(s, c)]
  }

  function Closings(ids: seq<nat>): (r: seq<Event>)
    ensures |r| == |ids| && forall i :: 0 <= i < |ids| ==> r[i] == Closed(ids[i])
  {
    seq(|ids|, i requires 0 <= i < |ids| => Closed(ids[i]))
  }

  lemma IdsMore(active: seq<Connection>)
    requires active != []
    ensures Ids(active) == Ids(active[..|active| - 1]) + {active[|active| - 1].id}
  {
    var init := active[..|active| - 1];
    assert forall i :: 0 <= i < |init| ==> init[i] == active[i];
  }

  /** The snapshot of a connection; or, seen by a reader, too much where a counter went down. */
  predicate Good(s: Snapshots, exact: bool, c: Connection, x: Snapshot) {
    if exact || Rose(s, c) then x == SnapshotOf(s, c) else x.uplink > c.uplink || x.downlink > c.downlink
  }

  /** What a map has once the active connections have been gone through. */
  ghost predicate Holds(s: Snapshots, m: Snapshots, active: seq<Connection>, exact: bool) {
    && (forall id :: id in m <==> id in s || id in Ids(active))
    && (forall i :: 0 <= i < |active| ==> active[i].id in m && Good(s, exact, active[i], m[active[i].id]))
    && (forall id :: id in s && id !in Ids(active) ==> id in m && m[id] == s[id])
  }

  lemma HoldsMore(s: Snapshots, m: Snapshots, m': Snapshots, active: seq<Connection>, exact: bool)
    requires active != [] && DistinctIds(active) && Holds(s, m, active[..|active| - 1], exact)
    requires var c := active[|active| - 1]; c.id in m' && Good(s, exact, c, m'[c.id]) && m' == m[c.id := m'[c.id]]
    ensures Holds(s, m', active, exact)
  {
    var init, c := active[..|active| - 1], active[|active| - 1];
    IdsMore(active);
    forall i | 0 <= i < |active| ensures active[i].id in m' && Good(s, exact, active[i], m'[active[i].id]) {
      if i < |init| {
        assert init[i] == active[i] && active[i].id != c.id;
      }
    }
  }

  lemma NewIsNotAmong(active: seq<Connection>)
    requires active != [] && DistinctIds(active)
    ensures active[|active| - 1].id !in Ids(active[..|active| - 1])
    ensures DistinctIds(active[..|active| - 1])
  {
  }

  lemma {:induction false} RefreshedAt(s: Snapshots, active: seq<Connection>)
    requires DistinctIds(active)
    ensures Holds(s, Refreshed(s, active), active, true)
  {
    if active != [] {
      RefreshedAt(s, active[..|active| - 1]);
      HoldsMore(s, Refreshed(s, active[..|active| - 1]), Refreshed(s, active), active, true);
    }
  }

  lemma EventFits(s: Snapshots, view: Snapshots, c: Connection)
    requires c.id in view <==> c.id in s
    requires c.id in s ==> view[c.id] == s[c.id]
    ensures FitsAll(view, EventOf(s, c))
    ensures var v := SeeAll(view, EventOf(s, c));
            c.id in v && Good(s, false, c, v[c.id]) && v == view[c.id := v[c.id]]
  {
    var es := EventOf(s, c);
    if es != [] {
      SeeMore(view, [], es[0]);
      assert es == [] + [es[0]] && es[..0] == [];
    } else {
      assert view[c.id := view[c.id]] == view;
    }
  }

  lemma {:induction false} EventsFit(s: Snapshots, active: seq<Connection>)
    requires DistinctIds(active)
    ensures FitsAll(s, EventsOf(s, active))
    ensures Holds(s, SeeAll(s, EventsOf(s, active)), active, false)
  {
    if active != [] {
      var init, c := active[..|active| - 1], active[|active| - 1];
      NewIsNotAmong(active);
      EventsFit(s, init);
      var v := SeeAll(s, EventsOf(s, init));
      EventFits(s, v, c);
      SeeBoth(s, EventsOf(s, init), EventOf(s, c));
      FitsBoth(s, EventsOf(s, init), EventOf(s, c));
      HoldsMore(s, v, SeeAll(v, EventOf(s, c)), active, false);
    }
  }

  lemma {:induction false} ClosingsFit(view: Snapshots, ids: seq<nat>)
    ensures SeeAll(view, Closings(ids)) == view - Elements(ids)
    ensures FitsAll(view, Closings(ids))
  {
    if ids != [] {
      var init, last := ids[..|ids| - 1], ids[|ids| - 1];
      ClosingsFit(view, init);
      assert Closings(ids) == Closings(init) + [Closed(last)];
      SeeMore(view, Closings(init), Closed(last));
      ElementsMore(init, last);
      assert ids == init + [last];
    }
  }

  function Elements(ids: seq<nat>): set<nat> {
    set id | id in ids
  }

  lemma OneMoreGone(gone: seq<nat>, id: nat)
    requires NoRepeats(gone) && id !in gone
    ensures NoRepeats(gone + [id]) && Elements(gone + [id]) == Elements(gone) + {id}
    ensures Closings(gone + [id]) == Closings(gone) + [Closed(id)]
  {
    ElementsMore(gone, id);
  }

  lemma ElementsMore(ids: seq<nat>, id: nat)
    ensures Elements(ids + [id]) == Elements(ids) + {id}
  {
  }

  /** The ids closed are those tracked and no longer active, each once. */
  ghost predicate IsClosingOrder(s: Snapshots, active: seq<Connection>, gone: seq<nat>) {
    NoRepeats(gone) && forall id :: id in gone <==> id in s && id !in Ids(active)
  }

  /** buildTrafficUpdates as a whole: the snapshots left and the events sent, for some order of closing. */
  ghost predicate IsTick(s: Snapshots, active: seq<Connection>, gone: seq<nat>, s': Snapshots, events: seq<Event>) {
    && IsClosingOrder(s, active, gone)
    && s' == Refreshed(s, active) - Elements(gone)
    && events == EventsOf(s, active) + Closings(gone)
  }

  /** After a tick exactly the active connections are tracked, what was sent fits what the reader
      had, and the reader's totals are the snapshots exactly when no counter went down. */
  lemma TickIsFaithful(s: Snapshots, active: seq<Connection>, gone: seq<nat>, s': Snapshots, events: seq<Event>)
    requires DistinctIds(active) && IsTick(s, active, gone, s', events)
    ensures s'.Keys == Ids(active)
    ensures FitsAll(s, events)
    ensures SeeAll(s, events) == s' <==> AllRose(s, active)
    ensures forall i, j :: 0 <= i < j < |events| && events[i].Closed? && events[j].Closed? ==>
              events[i].id != events[j].id
  {
    RefreshedAt(s, active);
    EventsFit(s, active);
    var v := SeeAll(s, EventsOf(s, active));
    ClosingsFit(v, gone);
    SeeBoth(s, EventsOf(s, active), Closings(gone));
    FitsBoth(s, EventsOf(s, active), Closings(gone));
    KeysAreActive(s, active, gone, Refreshed(s, active), true);
    KeysAreActive(s, active, gone, v, false);
    SeenIsSnapshot(s, active, v - Elements(gone), s');
    ActiveAreNotClosed(s, active);
    ClosedOnce(EventsOf(s, active), gone);
  }

  lemma ClosedOnce(before: seq<Event>, gone: seq<nat>)
    requires NoRepeats(gone) && forall i :: 0 <= i < |before| ==> !before[i].Closed?
    ensures var events := before + Closings(gone);
            forall i, j :: 0 <= i < j < |events| && events[i].Closed? && events[j].Closed? ==>
              events[i].id != events[j].id
  {
    var events := before + Closings(gone);
    forall i, j | 0 <= i < j < |events| && events[i].Closed? && events[j].Closed? ensures events[i].id != events[j].id {
      assert i >= |before| && gone[i - |before|] != gone[j - |before|];
    }
  }

  lemma {:induction false} ActiveAreNotClosed(s: Snapshots, active: seq<Connection>)
    ensures forall i :: 0 <= i < |EventsOf(s, active)| ==> !EventsOf(s, active)[i].Closed?
  {
    if active != [] {
      ActiveAreNotClosed(s, active[..|active| - 1]);
    }
  }

  /** A counter that went down: the reader keeps a total the snapshot no longer has. */
  lemma FallenCounterIsNotSeen(c: Connection)
    requires c.uplink < 5
    ensures var s := map[c.id := Snapshot(5, c.downlink, false)];
            SeeAll(s, EventsOf(s, [c])) == s != Refreshed(s, [c])
  {
    var s := map[c.id := Snapshot(5, c.downlink, false)];
    assert [c][..0] == [];
    assert EventsOf(s, [c]) == [];
    assert Refreshed(s, [c])[c.id].uplink == c.uplink;
  }

  lemma KeysAreActive(s: Snapshots, active: seq<Connection>, gone: seq<nat>, m: Snapshots, exact: bool)
    requires Holds(s, m, active, exact) && IsClosingOrder(s, active, gone)
    ensures (m - Elements(gone)).Keys == Ids(active)
    ensures forall i :: 0 <= i < |active| ==>
              active[i].id in m - Elements(gone) && Good(s, exact, active[i], (m - Elements(gone))[active[i].id])
  {
    var left := m - Elements(gone);
    forall i | 0 <= i < |active| ensures active[i].id in left && Good(s, exact, active[i], left[active[i].id]) {
      assert active[i].id in Ids(active);
    }
    assert forall id :: id in left <==> id in Ids(active);
  }

  lemma SeenIsSnapshot(s: Snapshots, active: seq<Connection>, seen: Snapshots, s': Snapshots)
    requires seen.Keys == Ids(active) && s'.Keys == Ids(active)
    requires forall i :: 0 <= i < |active| ==> active[i].id in s' && Good(s, true, active[i], s'[active[i].id])
    requires forall i :: 0 <= i < |active| ==> active[i].id in seen && Good(s, false, active[i], seen[active[i].id])
    ensures seen == s' <==> AllRose(s, active)
  {
    if AllRose(s, active) {
      forall id | id in Ids(active) ensures seen[id] == s'[id] {
        var i :| 0 <= i < |active| && active[i].id == id;
        assert Good(s, false, active[i], seen[id]);
      }
    } else {
      var i :| 0 <= i < |active| && !Rose(s, active[i]);
      assert seen[active[i].id] != s'[active[i].id];
    }
  }

  // ---- one report ----

  /** applyConnectionEvent by value. */
  function Applied(s: Snapshots, r: Report): Snapshots {
    match r
    case Opened(c) => if c.id in s then s else s[c.id := Snapshot(c.uplink, c.downlink, false)]
    case Ended(id) => s - {id}
    case Unknown => s
  }

  function AppliedEvents(s: Snapshots, r: Report): seq<Event> {
    match r
    case Opened(c) => if c.id in s then [] else [New(c.id, c.uplink, c.downlink, true)]
    case Ended(id) => [Closed(id)]
    case Unknown => []
  }

  lemma ReportIsFaithful(s: Snapshots, r: Report)
    ensures FitsAll(s, AppliedEvents(s, r)) && SeeAll(s, AppliedEvents(s, r)) == Applied(s, r)
  {
    var es := AppliedEvents(s, r);
    if es != [] {
      SeeMore(s, [], es[0]);
      assert es == [] + [es[0]] && es[..0] == [];
    }
  }

  // ---- the initial state ----

  function Announce(active: seq<Connection>, open: bool): (r: seq<Event>)
    ensures |r| == |active|
    ensures forall i :: 0 <= i < |r| ==> r[i] == New(active[i].id, active[i].uplink, active[i].downlink, open)
  {
    seq(|active|, i requires 0 <= i < |active| => New(active[i].id, active[i].uplink, active[i].downlink, open))
  }

  lemma RefreshedAreActive(active: seq<Connection>)
    requires DistinctIds(active)
    ensures Refreshed(map[], active).Keys == Ids(active)
  {
    RefreshedAt(map[], active);
  }

  lemma {:induction false} OpenAnnouncements(active: seq<Connection>)
    requires DistinctIds(active)
    ensures SeeAll(map[], Announce(active, true)) == Refreshed(map[], active) && FitsAll(map[], Announce(active, true))
  {
    if active != [] {
      var init, c := active[..|active| - 1], active[|active| - 1];
      NewIsNotAmong(active);
      OpenAnnouncements(init);
      RefreshedAreActive(init);
      var e := New(c.id, c.uplink, c.downlink, true);
      assert Announce(active, true) == Announce(init, true) + [e];
      SeeMore(map[], Announce(init, true), e);
      FitsMore(map[], Announce(init, true), e);
    }
  }

  lemma {:induction false} ClosedAnnouncements(view: Snapshots, ended: seq<Connection>)
    ensures SeeAll(view, Announce(ended, false)) == view && FitsAll(view, Announce(ended, false))
  {
    if ended != [] {
      var init, c := ended[..|ended| - 1], ended[|ended| - 1];
      ClosedAnnouncements(view, init);
      var e := New(c.id, c.uplink, c.downlink, false);
      assert Announce(ended, false) == Announce(init, false) + [e];
      SeeMore(view, Announce(init, false), e);
    }
  }

  lemma InitialIsFaithful(active: seq<Connection>, ended: seq<Connection>)
    requires DistinctIds(active)
    ensures var events := Announce(active, true) + Announce(ended, false);
            FitsAll(map[], events) && SeeAll(map[], events) == Refreshed(map[], active)
    ensures Refreshed(map[], active).Keys == Ids(active)
  {
    OpenAnnouncements(active);
    RefreshedAreActive(active);
    ClosedAnnouncements(Refreshed(map[], active), ended);
    SeeBoth(map[], Announce(active, true), Announce(ended, false));
    FitsBoth(map[], Announce(active, true), Announce(ended, false));
  }

  // ---- runs ----

  datatype Turn = Reported(report: Report) | Ticked(active: seq<Connection>, gone: seq<nat>)

  ghost predicate TurnOk(s: Snapshots, t: Turn) {
    t.Ticked? ==> DistinctIds(t.active) && IsClosingOrder(s, t.active, t.gone) && AllRose(s, t.active)
  }

  function AfterTurn(s: Snapshots, t: Turn): Snapshots {
    match t
    case Reported(r) => Applied(s, r)
    case Ticked(active, gone) => Refreshed(s, active) - Elements(gone)
  }

  function TurnEvents(s: Snapshots, t: Turn): seq<Event> {
    match t
    case Reported(r) => AppliedEvents(s, r)
    case Ticked(active, gone) => EventsOf(s, active) + Closings(gone)
  }

  /** The turns happen one after another, with counters that never go down, and send the events. */
  ghost predicate IsRun(s: Snapshots, turns: seq<Turn>, last: Snapshots, events: seq<Event>)
    decreases |turns|
  {
    if turns == [] then s == last && events == []
    else
      var t := turns[0];
      && TurnOk(s, t)
      && TurnEvents(s, t) <= events
      && IsRun(AfterTurn(s, t), turns[1..], last, events[|TurnEvents(s, t)|..])
  }

  lemma TurnIsFaithful(s: Snapshots, t: Turn)
    requires TurnOk(s, t)
    ensures FitsAll(s, TurnEvents(s, t)) && SeeAll(s, TurnEvents(s, t)) == AfterTurn(s, t)
  {
    match t
    case Reported(r) => ReportIsFaithful(s, r);
    case Ticked(active, gone) => TickIsFaithful(s, active, gone, AfterTurn(s, t), TurnEvents(s, t));
  }

  lemma {:induction false} RunIsFaithful(s: Snapshots, turns: seq<Turn>, last: Snapshots, events: seq<Event>)
    requires IsRun(s, turns, last, events)
    ensures FitsAll(s, events) && SeeAll(s, events) == last
    decreases |turns|
  {
    if turns != [] {
      var es := TurnEvents(s, turns[0]);
      TurnIsFaithful(s, turns[0]);
      var rest := events[|es|..];
      assert events == es + rest;
      RunIsFaithful(AfterTurn(s, turns[0]), turns[1..], last, rest);
      SeeBoth(s, es, rest);
      FitsBoth(s, es, rest);
    }
  }

  /** A whole stream: the initial state, then any turns. A reader that adds up what it is told has
      the snapshots at every point, and every event made sense when it came. */
  lemma StreamIsFaithful(active: seq<Connection>, ended: seq<Connection>, turns: seq<Turn>, last: Snapshots,
                         events: seq<Event>)
    requires DistinctIds(active) && IsRun(Refreshed(map[], active), turns, last, events)
    ensures var sent := Announce(active, true) + Announce(ended, false) + events;
            FitsAll(map[], sent) && SeeAll(map[], sent) == last
  {
    var first := Announce(active, true) + Announce(ended, false);
    InitialIsFaithful(active, ended);
    RunIsFaithful(Refreshed(map[], active), turns, last, events);
    SeeBoth(map[], first, events);
    FitsBoth(map[], first, events);
  }

  // ---- closings that find nothing to close ----

  /** Some connection is said to be closed that the reader does not have. */
  ghost predicate ClosesNothing(view: Snapshots, events: seq<Event>) {
    exists i :: 0 <= i < |events| && events[i].Closed? && events[i].id !in SeeAll(view, events[..i])
  }

  lemma ClosesNothingInEither(view: Snapshots, a: seq<Event>, b: seq<Event>)
    ensures ClosesNothing(view, a + b) <==> ClosesNothing(view, a) || ClosesNothing(SeeAll(view, a), b)
  {
    forall i | 0 <= i < |a + b|
      ensures SeeAll(view, (a + b)[..i]) ==
              if i < |a| then SeeAll(view, a[..i]) else SeeAll(SeeAll(view, a), b[..i - |a|])
    {
      if i < |a| {
        assert (a + b)[..i] == a[..i];
      } else {
        assert (a + b)[..i] == a + b[..i - |a|];
        SeeBoth(view, a, b[..i - |a|]);
      }
    }
    if ClosesNothing(view, a) {
      var i :| 0 <= i < |a| && a[i].Closed? && a[i].id !in SeeAll(view, a[..i]);
      assert (a + b)[i] == a[i];
    }
    if ClosesNothing(SeeAll(view, a), b) {
      var i :| 0 <= i < |b| && b[i].Closed? && b[i].id !in SeeAll(SeeAll(view, a), b[..i]);
      assert (a + b)[|a| + i] == b[i];
    }
  }

  lemma TrackedAreClosed(view: Snapshots, ids: seq<nat>)
    requires NoRepeats(ids) && forall id :: id in ids ==> id in view
    ensures !ClosesNothing(view, Closings(ids))
  {
    forall i | 0 <= i < |ids| ensures ids[i] in SeeAll(view, Closings(ids)[..i]) {
      assert Closings(ids)[..i] == Closings(ids[..i]);
      ClosingsFit(view, ids[..i]);
      assert ids[i] !in ids[..i];
    }
  }

  /** The turn is the report of an end that was already known. */
  predicate IsLateEnd(s: Snapshots, t: Turn) {
    t.Reported? && t.report.Ended? && t.report.id !in s
  }

  lemma TurnClosesNothing(s: Snapshots, t: Turn)
    requires TurnOk(s, t)
    ensures ClosesNothing(s, TurnEvents(s, t)) <==> IsLateEnd(s, t)
  {
    match t
    case Reported(r) =>
      var es := AppliedEvents(s, r);
      assert es != [] ==> es[..0] == [];
      if IsLateEnd(s, t) {
        assert es[0] == Closed(r.id) && r.id !in SeeAll(s, es[..0]);
      }
    case Ticked(active, gone) =>
      EventsFit(s, active);
      ActiveAreNotClosed(s, active);
      TrackedAreClosed(SeeAll(s, EventsOf(s, active)), gone);
      ClosesNothingInEither(s, EventsOf(s, active), Closings(gone));
  }

  /** The snapshots after the turns. */
  function AfterTurns(s: Snapshots, turns: seq<Turn>): Snapshots
    decreases |turns|
  {
    if turns == [] then s else AfterTurns(AfterTurn(s, turns[0]), turns[1..])
  }

  ghost predicate AnyLateEnd(s: Snapshots, turns: seq<Turn>) {
    exists k :: 0 <= k < |turns| && IsLateEnd(AfterTurns(s, turns[..k]), turns[k])
  }

  lemma LateEndFirstOrLater(s: Snapshots, turns: seq<Turn>)
    requires turns != []
    ensures AnyLateEnd(s, turns) <==> IsLateEnd(s, turns[0]) || AnyLateEnd(AfterTurn(s, turns[0]), turns[1..])
  {
    var rest := turns[1..];
    assert turns[..0] == [];
    forall k | 0 <= k < |rest| ensures AfterTurns(s, turns[..k + 1]) == AfterTurns(AfterTurn(s, turns[0]), rest[..k]) {
      assert turns[..k + 1][1..] == rest[..k];
    }
    if IsLateEnd(s, turns[0]) {
      assert IsLateEnd(AfterTurns(s, turns[..0]), turns[0]);
    }
    if k :| 0 <= k < |turns| && IsLateEnd(AfterTurns(s, turns[..k]), turns[k]) && k > 0 {
      assert rest[k - 1] == turns[k] && turns[..k - 1 + 1] == turns[..k];
    }
    if k :| 0 <= k < |rest| && IsLateEnd(AfterTurns(AfterTurn(s, turns[0]), rest[..k]), rest[k]) {
      assert turns[k + 1] == rest[k];
    }
  }

  lemma {:induction false} RunClosesNothing(s: Snapshots, turns: seq<Turn>, last: Snapshots, events: seq<Event>)
    requires IsRun(s, turns, last, events)
    ensures ClosesNothing(s, events) <==> AnyLateEnd(s, turns)
    decreases |turns|
  {
    if turns != [] {
      var es := TurnEvents(s, turns[0]);
      TurnIsFaithful(s, turns[0]);
      TurnClosesNothing(s, turns[0]);
      var rest := events[|es|..];
      assert events == es + rest;
      RunClosesNothing(AfterTurn(s, turns[0]), turns[1..], last, rest);
      ClosesNothingInEither(s, es, rest);
      LateEndFirstOrLater(s, turns);
    }
  }

  /** Over a whole stream, a closing finds nothing to close exactly when it is the report of an end
      the snapshots no longer hold. */
  lemma ClosesNothingExactlyWhen(active: seq<Connection>, ended: seq<Connection>, turns: seq<Turn>, last: Snapshots,
                                 events: seq<Event>)
    requires DistinctIds(active) && IsRun(Refreshed(map[], active), turns, last, events)
    ensures ClosesNothing(map[], Announce(active, true) + Announce(ended, false) + events) <==>
            AnyLateEnd(Refreshed(map[], active), turns)
  {
    var first := Announce(active, true) + Announce(ended, false);
    InitialIsFaithful(active, ended);
    RunClosesNothing(Refreshed(map[], active), turns, last, events);
    ClosesNothingInEither(map[], first, events);
  }

  /** A connection ends, a tick sees that it is gone, and then the report of its end comes. */
  lemma ClosedTwice(c: Connection)
    ensures var turns := [Ticked([], [c.id]), Reported(Ended(c.id))];
            && IsRun(Refreshed(map[], [c]), turns, map[], [Closed(c.id), Closed(c.id)])
            && AnyLateEnd(Refreshed(map[], [c]), turns)
  {
    var s := Refreshed(map[], [c]);
    var turns := [Ticked([], [c.id]), Reported(Ended(c.id))];
    RefreshedAreActive([c]);
    assert Ids([c]) == {c.id} by {
      assert [c][0] == c;
    }
    TickOfOne(s, c.id);
    assert turns[1..] == [Reported(Ended(c.id))] && turns[1..][1..] == [];
    assert turns[..1] == [turns[0]] && turns[..1][1..] == [];
    assert IsLateEnd(AfterTurns(s, turns[..1]), turns[1]);
  }

  lemma TickOfOne(s: Snapshots, id: nat)
    requires s.Keys == {id}
    ensures var t := Ticked([], [id]); TurnOk(s, t) && AfterTurn(s, t) == map[] && TurnEvents(s, t) == [Closed(id)]
  {
    assert Elements([id]) == {id};
    assert Closings([id]) == [Closed(id)];
  }

  // ---- the stream, updated in place ----

  class Stream {
    var snapshots: Snapshots

    constructor ()
      ensures snapshots == map[]
    {
      snapshots := map[];
    }

    /** buildInitialConnectionState */
    method BuildInitial(active: seq<Connection>, ended: seq<Connection>) returns (events: seq<Event>)
      requires snapshots == map[] && DistinctIds(active)
      modifies this
      ensures snapshots == Refreshed(map[], active)
      ensures events == Announce(active, true) + Announce(ended, false)
    {
      events := [];
      for i := 0 to |active|
        invariant events == Announce(active[..i], true) && snapshots == Refreshed(map[], active[..i])
      {
        assert active[..i + 1][..i] == active[..i];
        events := events + [New(active[i].id, active[i].uplink, active[i].downlink, true)];
        snapshots := snapshots[active[i].id := Snapshot(active[i].uplink, active[i].downlink, false)];
      }
      assert active[..|active|] == active;
      for i := 0 to |ended|
        invariant events == Announce(active, true) + Announce(ended[..i], false) &&
                  snapshots == Refreshed(map[], active)
      {
        events := events + [New(ended[i].id, ended[i].uplink, ended[i].downlink, false)];
      }
      assert ended[..|ended|] == ended;
    }

    /** applyConnectionEvent */
    method Apply(r: Report) returns (events: seq<Event>)
      modifies this
      ensures snapshots == Applied(old(snapshots), r) && events == AppliedEvents(old(snapshots), r)
    {
      match r
      case Opened(c) =>
        if c.id in snapshots {
          return [];
        }
        snapshots := snapshots[c.id := Snapshot(c.uplink, c.downlink, false)];
        return [New(c.id, c.uplink, c.downlink, true)];
      case Ended(id) =>
        snapshots := snapshots - {id};
        return [Closed(id)];
      case Unknown =>
        return [];
    }

    /** The body of buildTrafficUpdates' first loop. */
    method UpdateOne(c: Connection) returns (events: seq<Event>)
      modifies this
      ensures snapshots == old(snapshots)[c.id := SnapshotOf(old(snapshots), c)]
      ensures events == EventOf(old(snapshots), c)
    {
      if c.id !in snapshots {
        snapshots := snapshots[c.id := Snapshot(c.uplink, c.downlink, false)];
        return [New(c.id, c.uplink, c.downlink, true)];
      }
      var snapshot := snapshots[c.id];
      var up, down := c.uplink - snapshot.uplink, c.downlink - snapshot.downlink;
      if up < 0 || down < 0 {
        events := if snapshot.hadTraffic then [Update(c.id, 0, 0)] else [];
        snapshots := snapshots[c.id := Snapshot(c.uplink, c.downlink, false)];
        return;
      }
      if up > 0 || down > 0 {
        snapshots := snapshots[c.id := Snapshot(c.uplink, c.downlink, true)];
        return [Update(c.id, up, down)];
      }
      if snapshot.hadTraffic {
        snapshots := snapshots[c.id := Snapshot(c.uplink, c.downlink, false)];
        return [Update(c.id, 0, 0)];
      }
      assert snapshots[c.id := snapshot] == snapshots;
      return [];
    }

    /** buildTrafficUpdates' first loop. */
    method UpdateActive(active: seq<Connection>) returns (events: seq<Event>)
      requires DistinctIds(active)
      modifies this
      ensures snapshots == Refreshed(old(snapshots), active) && events == EventsOf(old(snapshots), active)
    {
      events := [];
      for i := 0 to |active|
        invariant snapshots == Refreshed(old(snapshots), active[..i]) && events == EventsOf(old(snapshots), active[..i])
      {
        var c := active[i];
        RefreshedAt(old(snapshots), active[..i]);
        NewIsNotAmong(active[..i + 1]);
        assert active[..i + 1][..i] == active[..i];
        var more := UpdateOne(c);
        events := events + more;
      }
      assert active[..|active|] == active;
    }

    /** buildTrafficUpdates' second loop, over the map in an order of its own. */
    method CloseGone(active: set<nat>) returns (events: seq<Event>, gone: seq<nat>)
      modifies this
      ensures NoRepeats(gone) && forall id :: id in gone <==> id in old(snapshots) && id !in active
      ensures snapshots == old(snapshots) - Elements(gone) && events == Closings(gone)
    {
      events, gone := [], [];
      var left := snapshots.Keys;
      while left != {}
        invariant left <= old(snapshots).Keys && NoRepeats(gone)
        invariant forall id :: id in gone <==> id in old(snapshots) && id !in left && id !in active
        invariant snapshots == old(snapshots) - Elements(gone) && events == Closings(gone)
        decreases |left|
      {
        var id :| id in left;
        left := left - {id};
        if id !in active {
          OneMoreGone(gone, id);
          events := events + [Closed(id)];
          gone := gone + [id];
          snapshots := snapshots - {id};
        }
      }
    }

    /** buildTrafficUpdates */
    method BuildUpdates(active: seq<Connection>) returns (events: seq<Event>, gone: seq<nat>)
      requires DistinctIds(active)
      modifies this
      ensures IsTick(old(snapshots), active, gone, snapshots, events)
    {
      events := UpdateActive(active);
      RefreshedAt(old(snapshots), active);
      var closings;
      closings, gone := CloseGone(Ids(active));
      events := events + closings;
    }
  }
}
