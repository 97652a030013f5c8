/** Scopes: clean-up functions and child scopes, registered in order and undone in reverse. The
    scopes of a tree are numbered in the order they are made. */
module ScopeTree {
  import opened Basics

  datatype Entry = Cleanup(id: nat) | Child(scope: nat)

  /** The cleanups registered, the child made for each component, and whether Close was called. */
  datatype Scope = Scope(parent: Option<nat>, cleanups: seq<Entry>, children: map<nat, nat>, closed: bool)

  // ---- ancestry ----

  ghost predicate ParentsFirst(scopes: seq<Scope>) {
    forall i :: 0 <= i < |scopes| && scopes[i].parent.Some? ==> scopes[i].parent.value < i
  }

  /** Scope x is i or below it. */
  predicate IsUnder(scopes: seq<Scope>, i: nat, x: nat)
    requires ParentsFirst(scopes)
  {
    x < |scopes| && (x == i || (scopes[x].parent.Some? && IsUnder(scopes, i, scopes[x].parent.value)))
  }

  lemma {:induction false} UnderIsAfter(scopes: seq<Scope>, i: nat, x: nat)
    requires ParentsFirst(scopes) && IsUnder(scopes, i, x)
    ensures i <= x < |scopes|
  {
    if x != i {
      UnderIsAfter(scopes, i, scopes[x].parent.value);
    }
  }

  /** Two scopes above a third are one above the other. */
  lemma {:induction false} UnderBoth(scopes: seq<Scope>, a: nat, b: nat, x: nat)
    requires ParentsFirst(scopes) && IsUnder(scopes, a, x) && IsUnder(scopes, b, x)
    ensures IsUnder(scopes, a, b) || IsUnder(scopes, b, a)
  {
    if x != a && x != b {
      UnderBoth(scopes, a, b, scopes[x].parent.value);
    }
  }

  /** What is below one child is not below another. */
  lemma SiblingsAreApart(scopes: seq<Scope>, a: nat, b: nat, x: nat)
    requires ParentsFirst(scopes) && a < |scopes| && b < |scopes| && a != b
    requires scopes[a].parent.Some? && scopes[a].parent == scopes[b].parent
    ensures !(IsUnder(scopes, a, x) && IsUnder(scopes, b, x))
  {
    if IsUnder(scopes, a, x) && IsUnder(scopes, b, x) {
      UnderBoth(scopes, a, b, x);
      var p := scopes[a].parent.value;
      if IsUnder(scopes, a, b) {
        UnderIsAfter(scopes, a, p);
      } else {
        UnderIsAfter(scopes, b, p);
      }
    }
  }

  /** Below a scope and not the scope itself: below one of its children. */
  lemma {:induction false} ChildAbove(scopes: seq<Scope>, i: nat, x: nat) returns (c: nat)
    requires ParentsFirst(scopes) && IsUnder(scopes, i, x) && x != i
    ensures c < |scopes| && scopes[c].parent == Some(i) && IsUnder(scopes, c, x) && IsUnder(scopes, i, c)
  {
    var p := scopes[x].parent.value;
    if p == i {
      c := x;
    } else {
      c := ChildAbove(scopes, i, p);
    }
  }

  ghost predicate SameParents(a: seq<Scope>, b: seq<Scope>) {
    |a| == |b| && forall i :: 0 <= i < |a| ==> a[i].parent == b[i].parent
  }

  lemma {:induction false} UnderKept(a: seq<Scope>, b: seq<Scope>, i: nat, x: nat)
    requires ParentsFirst(a) && SameParents(a, b)
    ensures ParentsFirst(b) && (IsUnder(a, i, x) <==> IsUnder(b, i, x))
    decreases x
  {
    if x < |a| && x != i && a[x].parent.Some? {
      UnderKept(a, b, i, a[x].parent.value);
    }
  }

  lemma {:induction false} UnderTransitive(scopes: seq<Scope>, i: nat, c: nat, x: nat)
    requires ParentsFirst(scopes) && IsUnder(scopes, i, c) && IsUnder(scopes, c, x)
    ensures IsUnder(scopes, i, x)
  {
    if x != c {
      UnderTransitive(scopes, i, c, scopes[x].parent.value);
    }
  }

  // ---- well-formed trees ----

  /** The scope lists each of its children once, until it is closed; then it lists nothing. */
  ghost predicate NodeOk(scopes: seq<Scope>, p: nat)
    requires p < |scopes|
  {
    var s := scopes[p];
    && (forall k :: 0 <= k < |s.cleanups| && s.cleanups[k].Child? ==>
          p < s.cleanups[k].scope < |scopes| && scopes[s.cleanups[k].scope].parent == Some(p))
    && (forall k, l :: 0 <= k < l < |s.cleanups| && s.cleanups[k].Child? ==> s.cleanups[k] != s.cleanups[l])
    && (s.closed ==> s.cleanups == [])
    && (forall x :: 0 <= x < |scopes| && scopes[x].parent == Some(p) ==>
          if s.closed then scopes[x].closed else Child(x) in s.cleanups)
    && (!s.closed ==> forall c :: c in s.children ==> Child(s.children[c]) in s.cleanups)
  }

  ghost predicate TreeOk(scopes: seq<Scope>, i: nat) {
    ParentsFirst(scopes) && forall p :: 0 <= p < |scopes| && IsUnder(scopes, i, p) ==> NodeOk(scopes, p)
  }

  ghost predicate AllOk(scopes: seq<Scope>) {
    ParentsFirst(scopes) && forall p :: 0 <= p < |scopes| ==> NodeOk(scopes, p)
  }

  /** The scopes below i are the same. */
  ghost predicate SameBelow(a: seq<Scope>, b: seq<Scope>, i: nat)
    requires ParentsFirst(a)
  {
    SameParents(a, b) && forall x :: 0 <= x < |a| && IsUnder(a, i, x) ==> a[x] == b[x]
  }

  lemma NodeKept(a: seq<Scope>, b: seq<Scope>, i: nat, p: nat)
    requires TreeOk(a, i) && SameBelow(a, b, i) && p < |a| && IsUnder(a, i, p)
    ensures NodeOk(b, p)
  {
    assert NodeOk(a, p);
    forall x | 0 <= x < |b| && b[x].parent == Some(p) ensures a[x] == b[x] {
      assert IsUnder(a, i, x);
    }
  }

  lemma TreeKept(a: seq<Scope>, b: seq<Scope>, i: nat)
    requires TreeOk(a, i) && SameBelow(a, b, i)
    ensures TreeOk(b, i)
  {
    UnderKept(a, b, i, i);
    forall p | 0 <= p < |b| && IsUnder(b, i, p) ensures NodeOk(b, p) {
      UnderKept(a, b, i, p);
      NodeKept(a, b, i, p);
    }
  }

  // ---- what closing runs ----

  /** The cleanups a closing scope runs: last registered first, each child as a whole in its place. */
  function Trace(scopes: seq<Scope>, i: nat): seq<nat>
    requires i < |scopes|
    decreases |scopes| - i, 1, 0
  {
    TraceEntries(scopes, i, scopes[i].cleanups)
  }

  function TraceEntries(scopes: seq<Scope>, i: nat, entries: seq<Entry>): seq<nat>
    requires i < |scopes|
    decreases |scopes| - i, 0, |entries|
  {
    if entries == [] then []
    else
      TraceEntry(scopes, i, entries[|entries| - 1]) + TraceEntries(scopes, i, entries[..|entries| - 1])
  }

  function TraceEntry(scopes: seq<Scope>, i: nat, e: Entry): seq<nat>
    requires i < |scopes|
    decreases |scopes| - i, 0, 0
  {
    match e
    case Cleanup(id) => [id]
    case Child(c) => if i < c < |scopes| then Trace(scopes, c) else []
  }

  lemma {:induction false} TraceKept(a: seq<Scope>, b: seq<Scope>, i: nat)
    requires TreeOk(a, i) && SameBelow(a, b, i) && i < |a|
    ensures Trace(a, i) == Trace(b, i)
    decreases |a| - i, 1, 0
  {
    assert IsUnder(a, i, i);
    assert NodeOk(a, i);
    EntriesKept(a, b, i, a[i].cleanups);
  }

  lemma {:induction false} EntriesKept(a: seq<Scope>, b: seq<Scope>, i: nat, entries: seq<Entry>)
    requires TreeOk(a, i) && SameBelow(a, b, i) && i < |a|
    requires forall k :: 0 <= k < |entries| && entries[k].Child? ==>
               i < entries[k].scope < |a| && a[entries[k].scope].parent == Some(i)
    ensures TraceEntries(a, i, entries) == TraceEntries(b, i, entries)
    decreases |a| - i, 0, |entries|
  {
    if entries != [] {
      var last := entries[|entries| - 1];
      EntriesKept(a, b, i, entries[..|entries| - 1]);
      if last.Child? {
        BelowChild(a, b, i, last.scope);
        TraceKept(a, b, last.scope);
      }
    }
  }

  lemma BelowChild(a: seq<Scope>, b: seq<Scope>, i: nat, c: nat)
    requires TreeOk(a, i) && SameBelow(a, b, i) && c < |a| && a[c].parent == Some(i)
    ensures TreeOk(a, c) && SameBelow(a, b, c)
  {
    assert IsUnder(a, i, i) && IsUnder(a, i, c);
    forall x | 0 <= x < |a| && IsUnder(a, c, x) ensures IsUnder(a, i, x) {
      UnderTransitive(a, i, c, x);
    }
  }

  /** Reverse order: everything registered after an entry, then the entry with all below it, then
      everything registered before. */
  lemma {:induction false} LastInFirstOut(scopes: seq<Scope>, i: nat, entries: seq<Entry>, k: nat)
    requires i < |scopes| && k < |entries|
    ensures TraceEntries(scopes, i, entries) ==
            TraceEntries(scopes, i, entries[k + 1..]) + TraceEntry(scopes, i, entries[k]) +
            TraceEntries(scopes, i, entries[..k])
    decreases |entries|
  {
    if k < |entries| - 1 {
      var init := entries[..|entries| - 1];
      LastInFirstOut(scopes, i, init, k);
      var after := entries[k + 1..];
      assert after[..|after| - 1] == init[k + 1..];
      assert init[..k] == entries[..k];
    } else {
      assert entries[k + 1..] == [];
    }
  }

  /** A cleanup runs exactly when it is registered in the scope or below it. */
  lemma {:induction false} RunsWhatIsRegistered(scopes: seq<Scope>, i: nat, id: nat)
    requires TreeOk(scopes, i) && i < |scopes|
    ensures id in Trace(scopes, i) <==>
            exists p :: 0 <= p < |scopes| && IsUnder(scopes, i, p) && Cleanup(id) in scopes[p].cleanups
    decreases |scopes| - i
  {
    assert IsUnder(scopes, i, i) && NodeOk(scopes, i);
    var es := scopes[i].cleanups;
    if id in Trace(scopes, i) {
      var k := TraceHasEntry(scopes, i, es, id);
      if es[k].Cleanup? {
        assert Cleanup(id) in es;
      } else {
        BelowChild(scopes, scopes, i, es[k].scope);
        RunsWhatIsRegistered(scopes, es[k].scope, id);
        var p :| 0 <= p < |scopes| && IsUnder(scopes, es[k].scope, p) && Cleanup(id) in scopes[p].cleanups;
        assert IsUnder(scopes, i, es[k].scope);
        UnderTransitive(scopes, i, es[k].scope, p);
      }
    }
    if p :| 0 <= p < |scopes| && IsUnder(scopes, i, p) && Cleanup(id) in scopes[p].cleanups {
      RegisteredRuns(scopes, i, p, id);
    }
  }

  lemma {:induction false} TraceHasEntry(scopes: seq<Scope>, i: nat, entries: seq<Entry>, id: nat) returns (k: nat)
    requires i < |scopes| && id in TraceEntries(scopes, i, entries)
    ensures k < |entries| && id in TraceEntry(scopes, i, entries[k])
    decreases |entries|
  {
    if id in TraceEntry(scopes, i, entries[|entries| - 1]) {
      k := |entries| - 1;
    } else {
      k := TraceHasEntry(scopes, i, entries[..|entries| - 1], id);
    }
  }

  lemma EntryRuns(scopes: seq<Scope>, i: nat, entries: seq<Entry>, k: nat, id: nat)
    requires i < |scopes| && k < |entries| && id in TraceEntry(scopes, i, entries[k])
    ensures id in TraceEntries(scopes, i, entries)
  {
    LastInFirstOut(scopes, i, entries, k);
  }

  lemma {:induction false} RegisteredRuns(scopes: seq<Scope>, i: nat, p: nat, id: nat)
    requires TreeOk(scopes, i) && i < |scopes| && p < |scopes| && IsUnder(scopes, i, p) &&
             Cleanup(id) in scopes[p].cleanups
    ensures id in Trace(scopes, i)
    decreases |scopes| - i
  {
    assert IsUnder(scopes, i, i) && NodeOk(scopes, i) && NodeOk(scopes, p);
    var es := scopes[i].cleanups;
    if scopes[i].closed {
      ClosedBelow(scopes, i, p);
    }
    if p == i {
      var k: nat :| k < |es| && es[k] == Cleanup(id);
      EntryRuns(scopes, i, es, k, id);
    } else {
      var c := ChildAbove(scopes, i, p);
      BelowChild(scopes, scopes, i, c);
      RegisteredRuns(scopes, c, p, id);
      var k: nat :| k < |es| && es[k] == Child(c);
      EntryRuns(scopes, i, es, k, id);
    }
  }

  /** Below a closed scope everything is closed. */
  lemma {:induction false} ClosedBelow(scopes: seq<Scope>, i: nat, x: nat)
    requires TreeOk(scopes, i) && i < |scopes| && scopes[i].closed && IsUnder(scopes, i, x)
    ensures scopes[x].closed
  {
    if x != i {
      var p := scopes[x].parent.value;
      ClosedBelow(scopes, i, p);
      assert NodeOk(scopes, p);
    }
  }

  // ---- each cleanup once ----

  /** No cleanup is registered in two places below i. */
  ghost predicate RegisteredOnce(scopes: seq<Scope>, i: nat)
    requires ParentsFirst(scopes)
  {
    forall p, q, j, l ::
      0 <= p < |scopes| && 0 <= q < |scopes| && IsUnder(scopes, i, p) && IsUnder(scopes, i, q) &&
      0 <= j < |scopes[p].cleanups| && 0 <= l < |scopes[q].cleanups| &&
      scopes[p].cleanups[j].Cleanup? && scopes[p].cleanups[j] == scopes[q].cleanups[l]
      ==> p == q && j == l
  }

  lemma PlaceOf(scopes: seq<Scope>, i: nat, k: nat, id: nat) returns (p: nat, j: nat)
    requires TreeOk(scopes, i) && i < |scopes| && k < |scopes[i].cleanups| &&
             id in TraceEntry(scopes, i, scopes[i].cleanups[k])
    ensures p < |scopes| && IsUnder(scopes, i, p) && j < |scopes[p].cleanups| && scopes[p].cleanups[j] == Cleanup(id)
    ensures var e := scopes[i].cleanups[k];
            if e.Cleanup? then p == i && j == k
            else e.scope < |scopes| && scopes[e.scope].parent == Some(i) && IsUnder(scopes, e.scope, p)
  {
    assert IsUnder(scopes, i, i) && NodeOk(scopes, i);
    match scopes[i].cleanups[k]
    case Cleanup(_) => p, j := i, k;
    case Child(c) =>
      BelowChild(scopes, scopes, i, c);
      p, j := PlaceBelow(scopes, c, id);
      UnderTransitive(scopes, i, c, p);
  }

  lemma PlaceBelow(scopes: seq<Scope>, c: nat, id: nat) returns (p: nat, j: nat)
    requires TreeOk(scopes, c) && c < |scopes| && id in Trace(scopes, c)
    ensures p < |scopes| && IsUnder(scopes, c, p) && j < |scopes[p].cleanups| && scopes[p].cleanups[j] == Cleanup(id)
  {
    RunsWhatIsRegistered(scopes, c, id);
    p :| 0 <= p < |scopes| && IsUnder(scopes, c, p) && Cleanup(id) in scopes[p].cleanups;
    j :| 0 <= j < |scopes[p].cleanups| && scopes[p].cleanups[j] == Cleanup(id);
  }

  /** Two entries of a scope run nothing in common. */
  lemma EntriesAreApart(scopes: seq<Scope>, i: nat, k: nat, l: nat, id: nat)
    requires TreeOk(scopes, i) && RegisteredOnce(scopes, i) && i < |scopes| && k < l < |scopes[i].cleanups|
    requires id in TraceEntry(scopes, i, scopes[i].cleanups[k])
    ensures id !in TraceEntry(scopes, i, scopes[i].cleanups[l])
  {
    if id in TraceEntry(scopes, i, scopes[i].cleanups[l]) {
      var p, j := PlaceOf(scopes, i, k, id);
      var q, m := PlaceOf(scopes, i, l, id);
      assert IsUnder(scopes, i, i) && NodeOk(scopes, i);
      assert p == q && j == m;
      var a, b := scopes[i].cleanups[k], scopes[i].cleanups[l];
      if a.Child? && b.Child? {
        SiblingsAreApart(scopes, a.scope, b.scope, p);
      } else if a.Child? {
        UnderIsAfter(scopes, a.scope, p);
      } else if b.Child? {
        UnderIsAfter(scopes, b.scope, q);
      }
    }
  }

  /** Cleanups registered once run once. */
  lemma {:induction false} RunsOnce(scopes: seq<Scope>, i: nat)
    requires TreeOk(scopes, i) && RegisteredOnce(scopes, i) && i < |scopes|
    ensures NoRepeats(Trace(scopes, i))
    decreases |scopes| - i, 1, 0
  {
    EntriesRunOnce(scopes, i, |scopes[i].cleanups|);
    assert scopes[i].cleanups[..|scopes[i].cleanups|] == scopes[i].cleanups;
  }

  lemma {:induction false} EntriesRunOnce(scopes: seq<Scope>, i: nat, n: nat)
    requires TreeOk(scopes, i) && RegisteredOnce(scopes, i) && i < |scopes| && n <= |scopes[i].cleanups|
    ensures NoRepeats(TraceEntries(scopes, i, scopes[i].cleanups[..n]))
    decreases |scopes| - i, 0, n
  {
    if n > 0 {
      var es := scopes[i].cleanups;
      assert es[..n][..n - 1] == es[..n - 1];
      var front, back := TraceEntry(scopes, i, es[n - 1]), TraceEntries(scopes, i, es[..n - 1]);
      EntriesRunOnce(scopes, i, n - 1);
      EntryRunsOnce(scopes, i, n - 1);
      forall id | id in front ensures id !in back {
        if id in back {
          var k := TraceHasEntry(scopes, i, es[..n - 1], id);
          EntriesAreApart(scopes, i, k, n - 1, id);
        }
      }
      assert TraceEntries(scopes, i, es[..n]) == front + back;
      NoRepeatsInBoth(front, back);
    }
  }

  lemma NoRepeatsInBoth(a: seq<nat>, b: seq<nat>)
    requires NoRepeats(a) && NoRepeats(b) && forall id :: id in a ==> id !in b
    ensures NoRepeats(a + b)
  {
    assert forall i :: 0 <= i < |a| ==> (a + b)[i] in a;
    assert forall i :: |a| <= i < |a + b| ==> (a + b)[i] in b;
  }

  lemma {:induction false} EntryRunsOnce(scopes: seq<Scope>, i: nat, k: nat)
    requires TreeOk(scopes, i) && RegisteredOnce(scopes, i) && i < |scopes| && k < |scopes[i].cleanups|
    ensures NoRepeats(TraceEntry(scopes, i, scopes[i].cleanups[k]))
    decreases |scopes| - i, 0, k
  {
    assert IsUnder(scopes, i, i) && NodeOk(scopes, i);
    var e := scopes[i].cleanups[k];
    if e.Child? {
      BelowChild(scopes, scopes, i, e.scope);
      assert IsUnder(scopes, i, e.scope);
      forall x | 0 <= x < |scopes| && IsUnder(scopes, e.scope, x) ensures IsUnder(scopes, i, x) {
        UnderTransitive(scopes, i, e.scope, x);
      }
      RunsOnce(scopes, e.scope);
    }
  }

  // ---- the scopes, updated in place ----

  /** The context of a scope is cancelled once it or a scope above it is closed. */
  predicate IsCancelled(scopes: seq<Scope>, i: nat)
    requires ParentsFirst(scopes) && i < |scopes|
  {
    scopes[i].closed || (scopes[i].parent.Some? && IsCancelled(scopes, scopes[i].parent.value))
  }

  /** Closed, with nothing left to run. */
  predicate Emptied(s: Scope) {
    s.closed && s.cleanups == []
  }

  /** A closing scope part of the way through its list: it is emptied, and so is all below the
      children from k on; all below the children before k is as it was. */
  ghost predicate Progress(a: seq<Scope>, b: seq<Scope>, i: nat, entries: seq<Entry>, k: nat)
    requires ParentsFirst(a) && i < |a| && k <= |entries|
  {
    && SameParents(a, b) && Emptied(b[i])
    && (forall x :: 0 <= x < |a| && x != i ==> b[x] == a[x] || (IsUnder(a, i, x) && Emptied(b[x])))
    && (forall l, x :: k <= l < |entries| && entries[l].Child? && 0 <= x < |a| && IsUnder(a, entries[l].scope, x) ==>
          Emptied(b[x]))
    && (forall l, x :: 0 <= l < k && entries[l].Child? && 0 <= x < |a| && IsUnder(a, entries[l].scope, x) ==>
          b[x] == a[x])
  }

  /** All below i is emptied, and nothing else has changed. */
  ghost predicate ClosedFrom(a: seq<Scope>, b: seq<Scope>, i: nat)
    requires ParentsFirst(a)
  {
    && SameParents(a, b)
    && forall x :: 0 <= x < |a| ==> if IsUnder(a, i, x) then Emptied(b[x]) else b[x] == a[x]
  }

  lemma ProgressBegins(a: seq<Scope>, i: nat)
    requires TreeOk(a, i) && i < |a|
    ensures Progress(a, a[i := a[i].(cleanups := [], children := map[], closed := true)], i, a[i].cleanups,
                     |a[i].cleanups|)
  {
    assert IsUnder(a, i, i) && NodeOk(a, i);
    forall l, x | 0 <= l < |a[i].cleanups| && a[i].cleanups[l].Child? && 0 <= x < |a| &&
                  IsUnder(a, a[i].cleanups[l].scope, x)
      ensures x != i
    {
      UnderIsAfter(a, a[i].cleanups[l].scope, x);
    }
  }

  lemma ProgressGoesOn(a: seq<Scope>, b: seq<Scope>, b': seq<Scope>, i: nat, k: nat)
    requires TreeOk(a, i) && i < |a| && 0 < k <= |a[i].cleanups| && Progress(a, b, i, a[i].cleanups, k)
    requires var e := a[i].cleanups[k - 1];
             if e.Child? then ParentsFirst(b) && ClosedFrom(b, b', e.scope) else b' == b
    ensures Progress(a, b', i, a[i].cleanups, k - 1)
  {
    var es := a[i].cleanups;
    if es[k - 1].Child? {
      var c := es[k - 1].scope;
      forall x | 0 <= x < |a| ensures IsUnder(a, c, x) <==> IsUnder(b, c, x) {
        UnderKept(a, b, c, x);
      }
      forall x | 0 <= x < |a| && IsUnder(a, c, x) ensures IsUnder(a, i, x) && x != i {
        BelowListed(a, i, k - 1, x);
      }
      forall l, x | 0 <= l < k - 1 && es[l].Child? && 0 <= x < |a| && IsUnder(a, es[l].scope, x) ensures b'[x] == a[x] {
        ListedAreApart(a, i, l, k - 1, x);
      }
    }
  }

  lemma BelowListed(a: seq<Scope>, i: nat, k: nat, x: nat)
    requires TreeOk(a, i) && i < |a| && k < |a[i].cleanups| && a[i].cleanups[k].Child? &&
             IsUnder(a, a[i].cleanups[k].scope, x)
    ensures IsUnder(a, i, x) && x != i
  {
    assert IsUnder(a, i, i) && NodeOk(a, i);
    UnderTransitive(a, i, a[i].cleanups[k].scope, x);
    UnderIsAfter(a, a[i].cleanups[k].scope, x);
  }

  lemma ListedAreApart(a: seq<Scope>, i: nat, l: nat, k: nat, x: nat)
    requires TreeOk(a, i) && i < |a| && l < k < |a[i].cleanups| && a[i].cleanups[l].Child? && a[i].cleanups[k].Child?
    requires IsUnder(a, a[i].cleanups[l].scope, x)
    ensures !IsUnder(a, a[i].cleanups[k].scope, x)
  {
    assert IsUnder(a, i, i) && NodeOk(a, i);
    SiblingsAreApart(a, a[i].cleanups[l].scope, a[i].cleanups[k].scope, x);
  }

  lemma ProgressEnds(a: seq<Scope>, b: seq<Scope>, i: nat)
    requires TreeOk(a, i) && i < |a| && Progress(a, b, i, a[i].cleanups, 0)
    ensures ClosedFrom(a, b, i)
  {
    forall x | 0 <= x < |a| && IsUnder(a, i, x) && x != i ensures Emptied(b[x]) {
      assert IsUnder(a, i, i) && NodeOk(a, i) && NodeOk(a, x);
      if a[i].closed {
        ClosedBelow(a, i, x);
      } else {
        var c := ChildAbove(a, i, x);
        var l :| 0 <= l < |a[i].cleanups| && a[i].cleanups[l] == Child(c);
        assert IsUnder(a, a[i].cleanups[l].scope, x);
      }
    }
  }

  /** What is below an unclosed child is as it was, so it is a tree that runs what it ran. */
  lemma ChildIsIntact(a: seq<Scope>, b: seq<Scope>, i: nat, k: nat)
    requires TreeOk(a, i) && i < |a| && k < |a[i].cleanups| && a[i].cleanups[k].Child?
    requires Progress(a, b, i, a[i].cleanups, k + 1)
    ensures var c := a[i].cleanups[k].scope;
            && i < c < |b| && TreeOk(b, c) && Trace(b, c) == Trace(a, c)
            && TraceEntry(a, i, a[i].cleanups[k]) == Trace(a, c)
  {
    assert IsUnder(a, i, i) && NodeOk(a, i);
    var c := a[i].cleanups[k].scope;
    BelowChild(a, a, i, c);
    assert SameBelow(a, b, c);
    TreeKept(a, b, c);
    TraceKept(a, b, c);
  }

  class Scopes {
    var scopes: seq<Scope>

    constructor ()
      ensures scopes == [Scope(None, [], map[], false)] && AllOk(scopes)
    {
      scopes := [Scope(None, [], map[], false)];
    }

    /** Add. On a closed scope the cleanup is kept, and lost unless something closes the scope again. */
    method Add(i: nat, id: nat)
      requires AllOk(scopes) && i < |scopes|
      modifies this
      ensures scopes == Added(old(scopes), i, id)
      ensures !old(scopes)[i].closed ==> AllOk(scopes)
    {
      if !scopes[i].closed {
        AddKeeps(scopes, i, id);
      }
      scopes := scopes[i := scopes[i].(cleanups := scopes[i].cleanups + [Cleanup(id)])];
    }

    /** Start, up to the component's own start: the scope it is given, or none once the context is
        cancelled. A component started before gets the scope it had. */
    method Start(i: nat, component: nat) returns (child: Option<nat>)
      requires AllOk(scopes) && i < |scopes|
      modifies this
      ensures AllOk(scopes) && old(|scopes|) <= |scopes|
      ensures child.None? <==> IsCancelled(old(scopes), i)
      ensures child.None? || component in old(scopes)[i].children ==> scopes == old(scopes)
      ensures child.Some? ==>
                child.value < |scopes| && scopes[i].children == old(scopes)[i].children[component := child.value]
      ensures child.Some? && component !in old(scopes)[i].children ==>
                child.value == old(|scopes|) && scopes == Made(old(scopes), i, component)
    {
      if IsCancelled(scopes, i) {
        return None;
      }
      if component in scopes[i].children {
        assert NodeOk(scopes, i);
        return Some(scopes[i].children[component]);
      }
      child := Some(|scopes|);
      MakeKeeps(scopes, i, component);
      var s := scopes[i];
      scopes := scopes[i := s.(cleanups := s.cleanups + [Child(|scopes|)],
                               children := s.children[component := |scopes|])]
        + [Scope(Some(i), [], map[], false)];
    }

    /** Close: takes the list, then runs it backwards; a child's entry closes the child. */
    method Close(i: nat) returns (ran: seq<nat>)
      requires TreeOk(scopes, i) && i < |scopes|
      modifies this
      ensures ran == Trace(old(scopes), i)
      ensures ClosedFrom(old(scopes), scopes, i)
      decreases |scopes| - i, 1
    {
      ghost var before := scopes;
      var cleanups := scopes[i].cleanups;
      ProgressBegins(scopes, i);
      scopes := scopes[i := scopes[i].(cleanups := [], children := map[], closed := true)];
      ran := [];
      var k := |cleanups|;
      assert cleanups[..k] == cleanups;
      while k > 0
        invariant 0 <= k <= |cleanups| && |scopes| == |before| && Progress(before, scopes, i, cleanups, k)
        invariant ran + TraceEntries(before, i, cleanups[..k]) == Trace(before, i)
      {
        TraceStep(before, i, cleanups, k);
        var more := RunEntry(i, cleanups[k - 1], before, k);
        ran := ran + more;
        k := k - 1;
      }
      ProgressEnds(before, scopes, i);
      assert cleanups[..0] == [] && ran + [] == ran;
    }

    /** Runs one cleanup of a closing scope. */
    method RunEntry(i: nat, entry: Entry, ghost before: seq<Scope>, ghost k: nat) returns (ran: seq<nat>)
      requires TreeOk(before, i) && i < |before| == |scopes| && 0 < k <= |before[i].cleanups| &&
               entry == before[i].cleanups[k - 1]
      requires Progress(before, scopes, i, before[i].cleanups, k)
      modifies this
      ensures |scopes| == |before| && Progress(before, scopes, i, before[i].cleanups, k - 1)
      ensures ran == TraceEntry(before, i, entry)
      decreases |scopes| - i, 0
    {
      ghost var reached := scopes;
      match entry
      case Cleanup(id) =>
        ran := [id];
        ProgressGoesOn(before, reached, scopes, i, k);
      case Child(c) =>
        ChildIsIntact(before, scopes, i, k - 1);
        ran := Close(c);
        ProgressGoesOn(before, reached, scopes, i, k);
    }
  }

  /** Closing leaves well-formed scopes, and closing again runs nothing. */
  lemma ClosingKeeps(a: seq<Scope>, b: seq<Scope>, i: nat)
    requires AllOk(a) && i < |a| && ClosedFrom(a, b, i)
    ensures AllOk(b) && Trace(b, i) == []
  {
    assert IsUnder(a, i, i);
    forall p | 0 <= p < |b| ensures NodeOk(b, p) {
      assert NodeOk(a, p);
      forall x | 0 <= x < |b| && b[x].parent == Some(p)
        ensures if b[p].closed then b[x].closed else Child(x) in b[p].cleanups
      {
        if IsUnder(a, i, p) {
          assert IsUnder(a, i, x);
        }
      }
    }
  }

  lemma TraceStep(scopes: seq<Scope>, i: nat, entries: seq<Entry>, k: nat)
    requires i < |scopes| && 0 < k <= |entries|
    ensures TraceEntries(scopes, i, entries[..k]) ==
            TraceEntry(scopes, i, entries[k - 1]) + TraceEntries(scopes, i, entries[..k - 1])
  {
    assert entries[..k][..k - 1] == entries[..k - 1];
  }

  function Added(scopes: seq<Scope>, i: nat, id: nat): seq<Scope>
    requires i < |scopes|
  {
    scopes[i := scopes[i].(cleanups := scopes[i].cleanups + [Cleanup(id)])]
  }

  /** A cleanup added to a scope that is closed, and whose parent is closed if it has one, is run
      by closing no other scope: only closing the scope itself once more would run it. */
  lemma {:induction false} LateCleanupIsLost(scopes: seq<Scope>, i: nat, id: nat, j: nat)
    requires AllOk(scopes) && i < |scopes| && j < |scopes| && scopes[i].closed
    requires scopes[i].parent.Some? ==> scopes[scopes[i].parent.value].closed
    ensures j != i ==> Trace(Added(scopes, i, id), j) == Trace(scopes, j)
    ensures j == i ==> Trace(Added(scopes, i, id), j) == [id]
    decreases |scopes| - j, 1, 0
  {
    assert NodeOk(scopes, j) && NodeOk(scopes, i);
    if j == i {
      var added := Added(scopes, i, id);
      assert added[i].cleanups == [Cleanup(id)] && [Cleanup(id)][..1] == [Cleanup(id)] && [Cleanup(id)][..0] == [];
      TraceStep(added, i, [Cleanup(id)], 1);
    } else {
      LateEntriesKept(scopes, i, id, j, |scopes[j].cleanups|);
      assert scopes[j].cleanups[..|scopes[j].cleanups|] == scopes[j].cleanups;
    }
  }

  lemma {:induction false} LateEntriesKept(scopes: seq<Scope>, i: nat, id: nat, j: nat, n: nat)
    requires AllOk(scopes) && i < |scopes| && j < |scopes| && j != i && scopes[i].closed && n <= |scopes[j].cleanups|
    requires scopes[i].parent.Some? ==> scopes[scopes[i].parent.value].closed
    ensures TraceEntries(Added(scopes, i, id), j, scopes[j].cleanups[..n]) ==
            TraceEntries(scopes, j, scopes[j].cleanups[..n])
    decreases |scopes| - j, 0, n
  {
    if n > 0 {
      assert NodeOk(scopes, j);
      var e := scopes[j].cleanups[n - 1];
      TraceStep(scopes, j, scopes[j].cleanups, n);
      TraceStep(Added(scopes, i, id), j, scopes[j].cleanups, n);
      LateEntriesKept(scopes, i, id, j, n - 1);
      if e.Child? {
        assert e.scope != i;
        LateCleanupIsLost(scopes, i, id, e.scope);
      }
    }
  }

  lemma AddKeeps(scopes: seq<Scope>, i: nat, id: nat)
    requires AllOk(scopes) && i < |scopes| && !scopes[i].closed
    ensures AllOk(Added(scopes, i, id))
  {
    var after := Added(scopes, i, id);
    forall p | 0 <= p < |after| ensures NodeOk(after, p) {
      assert NodeOk(scopes, p);
    }
  }

  function Made(scopes: seq<Scope>, i: nat, component: nat): seq<Scope>
    requires i < |scopes|
  {
    var s := scopes[i];
    scopes[i := s.(cleanups := s.cleanups + [Child(|scopes|)], children := s.children[component := |scopes|])]
      + [Scope(Some(i), [], map[], false)]
  }

  lemma MakeKeepsNode(scopes: seq<Scope>, i: nat, component: nat)
    requires ParentsFirst(scopes) && i < |scopes| && NodeOk(scopes, i) && !scopes[i].closed
    ensures NodeOk(Made(scopes, i, component), i)
  {
    var es, more := scopes[i].cleanups, Made(scopes, i, component)[i].cleanups;
    assert more == es + [Child(|scopes|)];
    assert forall e :: e in es ==> e in more;
    assert more[|es|] in more;
  }

  lemma MakeKeepsOther(scopes: seq<Scope>, i: nat, component: nat, p: nat)
    requires i < |scopes| && p < |scopes| && p != i && NodeOk(scopes, p)
    ensures NodeOk(Made(scopes, i, component), p)
  {
    var after := Made(scopes, i, component);
    assert after[p] == scopes[p];
    assert forall x :: 0 <= x < |scopes| ==> after[x].parent == scopes[x].parent && after[x].closed == scopes[x].closed;
  }

  lemma MakeKeepsNew(scopes: seq<Scope>, i: nat, component: nat)
    requires ParentsFirst(scopes) && i < |scopes|
    ensures ParentsFirst(Made(scopes, i, component)) && NodeOk(Made(scopes, i, component), |scopes|)
  {
    var after := Made(scopes, i, component);
    assert forall x :: 0 <= x < |after| ==> after[x].parent != Some(|scopes|);
  }

  lemma MakeKeeps(scopes: seq<Scope>, i: nat, component: nat)
    requires AllOk(scopes) && i < |scopes| && !scopes[i].closed && component !in scopes[i].children
    ensures AllOk(Made(scopes, i, component))
  {
    var after := Made(scopes, i, component);
    forall p | 0 <= p < |scopes| && p != i ensures NodeOk(after, p) {
      MakeKeepsOther(scopes, i, component, p);
    }
    MakeKeepsNode(scopes, i, component);
    MakeKeepsNew(scopes, i, component);
  }
}
