/** The SSI runs with interrupts enabled: while it kills a process and its progeny, others can send to the victims. */
module Dying {
  import opened Sequences
  import opened Devices
  import opened Kernel
  import opened Tree
  import opened Structure
  import opened Killing
  import opened Runs
  import opened Theorems
  import opened Requests
  import opened Cases

  /** Ready or running. */
  function Runnable(w: Sys): seq<Slot> {
    w.ready + if w.current.Some? then [w.current.value] else []
  }

  /** How an interrupted termination ends when the SSI runs again: the processes `rest`, which it has not reached, lose
      their places in the queues and become free, and so do the processes `dying`, which have lost theirs already.
      `late` of these are still to be subtracted from the process count. */
  function Finish(w: Sys, dying: seq<Slot>, rest: seq<Slot>, late: nat): Sys {
    var u := Purge(w.(ready := Without(Runnable(w), SSI), current := Some(SSI)), rest);
    u.(free := dying + u.free, count := u.count - late)
  }

  lemma FinishIs(w: Sys, dying: seq<Slot>, rest: seq<Slot>, late: nat)
    ensures var f := Finish(w, dying, rest, late);
      && f.free == dying + (rest + w.free) && f.count == w.count - |rest| - late && f.current == Some(SSI)
      && f.ready == Minus(Runnable(w), {SSI} + Elems(rest))
  {
    MinusMinus(Runnable(w), {SSI}, Elems(rest));
  }

  /** A send in the middle of a termination that would otherwise end well: it does harm exactly if it is to one of the
      dying processes, which are not free yet, and would wake it. */
  lemma SendToDying(w: Sys, dying: seq<Slot>, rest: seq<Slot>, late: nat,
                    dest: Slot, payload: Word, sender: Word, soft: bool)
    requires Partition(Finish(w, dying, rest, late)) && Live(w, dest) && SSI in Runnable(w)
    ensures Partition(Finish(SendMessage(w, dest, payload, sender, soft).0, dying, rest, late)) <==>
      !(dest in dying && Wakes(w, dest, sender))
  {
    var n := SendMessage(w, dest, payload, sender, soft).0;
    SendFrame(w, dest, payload, sender, soft);
    FinishIs(w, dying, rest, late);
    FinishIs(n, dying, rest, late);
    if Wakes(w, dest, sender) {
      assert n.ready == w.ready + [dest];
      Woken(w, n, rest, dest);
      var f := Finish(w, dying, rest, late);
      if dest in rest {
        if dest in dying {
          NoDupApart(dying, rest + w.free, dest);
        }
      } else {
        assert dest in Finish(n, dying, rest, late).ready;
        assert dest in f.free <==> dest in dying;
      }
    } else {
      assert n.ready == w.ready && Runnable(n) == Runnable(w);
    }
  }

  /** The woken process is in the queue that the termination leaves, unless it is still to be reached. */
  lemma Woken(w: Sys, n: Sys, rest: seq<Slot>, dest: Slot)
    requires n.ready == w.ready + [dest] && n.current == w.current && dest !in Runnable(w) && dest != SSI
    requires NoDup(Minus(Runnable(w), {SSI} + Elems(rest)))
    ensures var gone := {SSI} + Elems(rest);
      && NoDup(Minus(Runnable(n), gone))
      && forall x :: x in Minus(Runnable(n), gone) <==> x in Minus(Runnable(w), gone) || (x == dest && x !in rest)
  {
    var gone, cur := {SSI} + Elems(rest), if w.current.Some? then [w.current.value] else [];
    var a, d, c := Minus(w.ready, gone), Minus([dest], gone), Minus(cur, gone);
    MinusConcat(w.ready, cur, gone);
    MinusConcat(w.ready + [dest], cur, gone);
    MinusConcat(w.ready, [dest], gone);
    assert Minus(Runnable(n), gone) == (a + d) + c && Minus(Runnable(w), gone) == a + c;
    Inserted(a, d, c);
  }

  lemma Inserted<T>(a: seq<T>, d: seq<T>, c: seq<T>)
    requires NoDup(a + c) && |d| <= 1 && forall x | x in d :: x !in a + c
    ensures NoDup((a + d) + c)
  {
    assert forall i | 0 <= i < |a| :: (a + c)[i] == a[i];
    assert forall i | 0 <= i < |c| :: (a + c)[|a| + i] == c[i];
    forall i, j | 0 <= i < j < |(a + d) + c| ensures ((a + d) + c)[i] != ((a + d) + c)[j] {
      if i < |a| {
        assert a[i] in a + c;
      }
      if j >= |a + d| {
        assert c[j - |a + d|] in a + c;
      }
    }
  }

  // ----- every point of the recursion

  /** `path` says how many children have been killed at each level, from `p` down to where the recursion is. */
  ghost predicate PathOk(s: Sys, p: Slot, path: seq<nat>)
    requires Forest(s.pcbs, s.free, s.nextPid) && Live(s, p)
    decreases |path|
  {
    && path != [] && path[0] <= |s.pcbs[p].kids|
    && (|path| > 1 ==>
          && path[0] < |s.pcbs[p].kids|
          && (NextFreed(s, p, path[0]); PathOk(Inner(s, p, path[0]), s.pcbs[p].kids[path[0]], path[1..])))
  }

  /** The state in which the recursion turns to the `i`-th child of `p`, counted from 0. */
  ghost function Inner(s: Sys, p: Slot, i: nat): Sys
    requires Forest(s.pcbs, s.free, s.nextPid) && Live(s, p) && i <= |s.pcbs[p].kids|
  {
    Partial(s, p, Done(s, p, i))
  }

  /** The state in the middle of killing `p`. */
  ghost function Point(s: Sys, p: Slot, path: seq<nat>): Sys
    requires Forest(s.pcbs, s.free, s.nextPid) && Live(s, p) && PathOk(s, p, path)
    decreases |path|
  {
    if |path| == 1 then Inner(s, p, path[0])
    else NextFreed(s, p, path[0]); Point(Inner(s, p, path[0]), s.pcbs[p].kids[path[0]], path[1..])
  }

  /** Who is out of the ready queue but not free there: the chain from `p` down. */
  ghost function DyingAt(s: Sys, p: Slot, path: seq<nat>): seq<Slot>
    requires Forest(s.pcbs, s.free, s.nextPid) && Live(s, p) && PathOk(s, p, path)
    decreases |path|
  {
    [p] + if |path| == 1 then []
          else NextFreed(s, p, path[0]); DyingAt(Inner(s, p, path[0]), s.pcbs[p].kids[path[0]], path[1..])
  }

  /** Whom the recursion has not reached there. */
  ghost function RestAt(s: Sys, p: Slot, path: seq<nat>): seq<Slot>
    requires Forest(s.pcbs, s.free, s.nextPid) && Live(s, p) && PathOk(s, p, path)
    decreases |path|
  {
    var kids := s.pcbs[p].kids;
    if |path| == 1 then FreedKids(s.pcbs, s.free, s.nextPid, p, kids[path[0]..])
    else
      NextFreed(s, p, path[0]);
      RestAt(Inner(s, p, path[0]), kids[path[0]], path[1..])
      + FreedKids(s.pcbs, s.free, s.nextPid, p, kids[path[0] + 1..])
  }

  /** Who is free again there. */
  ghost function DoneAt(s: Sys, p: Slot, path: seq<nat>): seq<Slot>
    requires Forest(s.pcbs, s.free, s.nextPid) && Live(s, p) && PathOk(s, p, path)
    decreases |path|
  {
    (if |path| == 1 then []
     else NextFreed(s, p, path[0]); DoneAt(Inner(s, p, path[0]), s.pcbs[p].kids[path[0]], path[1..]))
    + Done(s, p, path[0])
  }

  lemma {:induction false} FreedKidsConcat(t: Table, free: seq<Slot>, bound: int, p: Slot, a: seq<Slot>, b: seq<Slot>)
    requires Forest(t, free, bound) && p !in free && forall c | c in a + b :: c in t[p].kids
    ensures (forall c | c in a :: c in t[p].kids) && forall c | c in b :: c in t[p].kids
    ensures FreedKids(t, free, bound, p, a + b) == FreedKids(t, free, bound, p, b) + FreedKids(t, free, bound, p, a)
    decreases |a|
  {
    assert forall c | c in a :: c in a + b;
    assert forall c | c in b :: c in a + b;
    if a == [] {
      assert a + b == b;
    } else {
      assert (a + b)[0] == a[0] && (a + b)[1..] == a[1..] + b;
      assert FamilyOk(t, free, bound, p) && a[0] in t[p].kids;
      assert FamilyOk(t, free, bound, a[0]);
      FreedKidsConcat(t, free, bound, p, a[1..], b);
    }
  }

  /** `w` is `s` in the middle of killing `p`: the dying, the rest and the done are `p` and its progeny, each once. */
  ghost predicate AddsUpTo(s: Sys, p: Slot, w: Sys, dying: seq<Slot>, rest: seq<Slot>, done: seq<Slot>)
    requires Forest(s.pcbs, s.free, s.nextPid) && Live(s, p)
  {
    var freed := Freed(s.pcbs, s.free, s.nextPid, p);
    && w.free == done + s.free && w.current == s.current && w.count == s.count - |dying| - |done|
    && w.ready == Minus(s.ready, Elems(dying) + Elems(done))
    && Elems(dying) + Elems(rest) + Elems(done) == Elems(freed) && |dying| + |rest| + |done| == |freed|
  }

  /** The progeny of `p` by the child that the recursion is at. */
  lemma FreedAround(s: Sys, p: Slot, i: nat)
    requires Forest(s.pcbs, s.free, s.nextPid) && Live(s, p) && i <= |s.pcbs[p].kids|
    ensures var t, free, bound, kids := s.pcbs, s.free, s.nextPid, s.pcbs[p].kids;
      && Freed(t, free, bound, p) == [p] + (FreedKids(t, free, bound, p, kids[i..]) + Done(s, p, i))
      && (i < |kids| ==>
            && Live(s, kids[i])
            && FreedKids(t, free, bound, p, kids[i..])
               == FreedKids(t, free, bound, p, kids[i + 1..]) + Freed(t, free, bound, kids[i]))
  {
    var kids := s.pcbs[p].kids;
    assert kids == kids[..i] + kids[i..];
    FreedKidsConcat(s.pcbs, s.free, s.nextPid, p, kids[..i], kids[i..]);
    if i < |kids| {
      assert FamilyOk(s.pcbs, s.free, s.nextPid, p) && kids[i] in kids;
      assert kids[i..][1..] == kids[i + 1..];
    }
  }

  lemma {:induction false} PointAddsUp(s: Sys, p: Slot, path: seq<nat>)
    requires Forest(s.pcbs, s.free, s.nextPid) && Live(s, p) && PathOk(s, p, path)
    ensures AddsUpTo(s, p, Point(s, p, path), DyingAt(s, p, path), RestAt(s, p, path), DoneAt(s, p, path))
    decreases |path|
  {
    var i := path[0];
    FreedAround(s, p, i);
    var done := Done(s, p, i);
    assert Elems([p] + done) == Elems([p]) + Elems(done);
    if |path| == 1 {
      assert [] + done == done && [p] + [] == [p];
    } else {
      var c, s1 := s.pcbs[p].kids[i], Inner(s, p, i);
      NextFreed(s, p, i);
      PointAddsUp(s1, c, path[1..]);
      InnerAddsUp(s, s1, p, i, Point(s1, c, path[1..]),
                  DyingAt(s1, c, path[1..]), RestAt(s1, c, path[1..]), DoneAt(s1, c, path[1..]));
    }
  }

  /** One level further out. */
  lemma InnerAddsUp(s: Sys, s1: Sys, p: Slot, i: nat, w: Sys, dying: seq<Slot>, rest: seq<Slot>, done: seq<Slot>)
    requires Forest(s.pcbs, s.free, s.nextPid) && Live(s, p) && i < |s.pcbs[p].kids| && s1 == Inner(s, p, i)
    requires Forest(s1.pcbs, s1.free, s1.nextPid) && Live(s1, s.pcbs[p].kids[i]) && Live(s, s.pcbs[p].kids[i])
    requires Freed(s1.pcbs, s1.free, s1.nextPid, s.pcbs[p].kids[i])
      == Freed(s.pcbs, s.free, s.nextPid, s.pcbs[p].kids[i])
    requires AddsUpTo(s1, s.pcbs[p].kids[i], w, dying, rest, done)
    ensures (forall c | c in s.pcbs[p].kids[i + 1..] :: c in s.pcbs[p].kids)
    ensures AddsUpTo(s, p, w, [p] + dying,
      rest + FreedKids(s.pcbs, s.free, s.nextPid, p, s.pcbs[p].kids[i + 1..]), done + Done(s, p, i))
  {
    var later, earlier := FreedKids(s.pcbs, s.free, s.nextPid, p, s.pcbs[p].kids[i + 1..]), Done(s, p, i);
    var freed, inner := Freed(s.pcbs, s.free, s.nextPid, p), Freed(s.pcbs, s.free, s.nextPid, s.pcbs[p].kids[i]);
    FreedAround(s, p, i);
    assert freed == [p] + ((later + inner) + earlier);
    InnerSets(p, dying, rest, done, later, earlier, inner, freed);
    InnerState(s, p, earlier, w, dying, done);
  }

  lemma InnerSets(p: Slot, dying: seq<Slot>, rest: seq<Slot>, done: seq<Slot>,
                  later: seq<Slot>, earlier: seq<Slot>, inner: seq<Slot>, freed: seq<Slot>)
    requires Elems(dying) + Elems(rest) + Elems(done) == Elems(inner) && |dying| + |rest| + |done| == |inner|
    requires freed == [p] + ((later + inner) + earlier)
    ensures Elems([p] + dying) + Elems(rest + later) + Elems(done + earlier) == Elems(freed)
    ensures |[p] + dying| + |rest + later| + |done + earlier| == |freed|
  {
    assert Elems([p] + dying) + Elems(rest + later) + Elems(done + earlier)
        == {p} + (Elems(dying) + Elems(rest) + Elems(done)) + Elems(later) + Elems(earlier);
    assert Elems(freed) == {p} + Elems(later) + Elems(inner) + Elems(earlier);
  }

  lemma InnerState(s: Sys, p: Slot, earlier: seq<Slot>, w: Sys, dying: seq<Slot>, done: seq<Slot>)
    requires var s1 := Partial(s, p, earlier);
      && w.free == done + s1.free && w.current == s1.current && w.count == s1.count - |dying| - |done|
      && w.ready == Minus(s1.ready, Elems(dying) + Elems(done))
    ensures w.free == (done + earlier) + s.free && w.current == s.current
    ensures w.count == s.count - |[p] + dying| - |done + earlier|
    ensures w.ready == Minus(s.ready, Elems([p] + dying) + Elems(done + earlier))
  {
    ConcatAssoc(done, earlier, s.free);
    MinusMinus(s.ready, Elems([p] + earlier), Elems(dying) + Elems(done));
    assert Elems([p] + earlier) + (Elems(dying) + Elems(done)) == Elems([p] + dying) + Elems(done + earlier);
  }

  // ----- the termination ends well when left alone

  lemma {:induction false} CountNoDup<T>(a: seq<T>)
    requires |Elems(a)| == |a|
    ensures NoDup(a)
  {
    if a != [] {
      var rest := a[1..];
      assert Elems(a) == {a[0]} + Elems(rest);
      ElemsCount(rest);
      assert a[0] !in rest;
      CountNoDup(rest);
    }
  }

  lemma {:induction false} ElemsCount<T>(a: seq<T>)
    ensures |Elems(a)| <= |a|
  {
    if a != [] {
      assert Elems(a) == {a[0]} + Elems(a[1..]);
      ElemsCount(a[1..]);
    } else {
      assert Elems(a) == {};
    }
  }

  /** What becomes free when the rest is killed: all different. */
  lemma AllFreed(s: Sys, p: Slot, w: Sys, dying: seq<Slot>, rest: seq<Slot>, done: seq<Slot>)
    requires StructureOk(s) && Live(s, p) && AddsUpTo(s, p, w, dying, rest, done)
    ensures NoDup(dying + (rest + w.free))
    ensures |dying + (rest + w.free)| == |Freed(s.pcbs, s.free, s.nextPid, p)| + |s.free|
    ensures forall x :: x in dying + (rest + w.free) <==> x in Freed(s.pcbs, s.free, s.nextPid, p) || x in s.free
  {
    FreedNoDup(s.pcbs, s.free, s.nextPid, p);
    forall x | x in Freed(s.pcbs, s.free, s.nextPid, p) ensures x !in s.free {
      FreedBelow(s.pcbs, s.free, s.nextPid, p, x);
    }
    Together(dying, rest, done, s.free, Freed(s.pcbs, s.free, s.nextPid, p));
  }

  lemma Together(dying: seq<Slot>, rest: seq<Slot>, done: seq<Slot>, free: seq<Slot>, freed: seq<Slot>)
    requires NoDup(freed) && NoDup(free) && forall x | x in freed :: x !in free
    requires Elems(dying) + Elems(rest) + Elems(done) == Elems(freed) && |dying| + |rest| + |done| == |freed|
    ensures var all := dying + (rest + (done + free));
      NoDup(all) && |all| == |freed| + |free| && forall x :: x in all <==> x in freed || x in free
  {
    var all := dying + (rest + (done + free));
    NoDupCount(freed);
    NoDupCount(free);
    assert Elems(all) == Elems(dying) + Elems(rest) + Elems(done) + Elems(free);
    assert Elems(freed) !! Elems(free);
    CountNoDup(all);
    forall x ensures x in all <==> x in freed || x in free {
      assert x in all <==> x in Elems(all);
      assert x in Elems(freed) <==> x in freed;
    }
  }

  /** At every point of the recursion, what is left to do ends in a sound state. */
  lemma PointEndsWell(s: Sys, p: Slot, path: seq<nat>)
    requires StructureOk(s) && s.current == Some(SSI) && Live(s, p) && p != SSI && PathOk(s, p, path)
    ensures Partition(Finish(Point(s, p, path), DyingAt(s, p, path), RestAt(s, p, path), 0))
  {
    PointAddsUp(s, p, path);
    AddedEndsWell(s, p, Point(s, p, path), DyingAt(s, p, path), RestAt(s, p, path), DoneAt(s, p, path));
  }

  lemma AddedEndsWell(s: Sys, p: Slot, w: Sys, dying: seq<Slot>, rest: seq<Slot>, done: seq<Slot>)
    requires StructureOk(s) && s.current == Some(SSI) && Live(s, p) && p != SSI && AddsUpTo(s, p, w, dying, rest, done)
    ensures Partition(Finish(w, dying, rest, 0))
  {
    AllFreed(s, p, w, dying, rest, done);
    SsiSurvives(s, p);
    FinishIs(w, dying, rest, 0);
    var gone, some := {SSI} + Elems(rest), Elems(dying) + Elems(done);
    MinusConcat(w.ready, [SSI], gone);
    assert Minus(Runnable(w), gone) == Minus(w.ready, gone);
    MinusMinus(s.ready, some, gone);
    MinusNoDup(s.ready, some + gone);
  }

  /** Before the recursion has begun. */
  lemma EntryEndsWell(s: Sys, p: Slot)
    requires StructureOk(s) && s.current == Some(SSI) && Live(s, p) && p != SSI
    ensures Partition(Finish(s, [], Freed(s.pcbs, s.free, s.nextPid, p), 0))
  {
    assert [] + s.free == s.free;
    MinusNothing(s.ready, Elems<Slot>([]) + Elems<Slot>([]));
    AddedEndsWell(s, p, s, [], Freed(s.pcbs, s.free, s.nextPid, p), []);
  }

  /** Between outProcQ and the decrement of the count: `c` has lost its place but is still counted. */
  lemma UncountedEndsWell(w: Sys, dying: seq<Slot>, rest: seq<Slot>, c: Slot, v: Sys)
    requires Partition(Finish(w, dying, rest, 0)) && c in rest && c != SSI && w.current != Some(c)
    requires v.ready == Without(w.ready, c) && v.free == w.free && v.count == w.count && v.current == w.current
    ensures Partition(Finish(v, dying + [c], Without(rest, c), 1))
  {
    var later := Without(rest, c);
    FinishIs(w, dying, rest, 0);
    FinishIs(v, dying + [c], later, 1);
    RestNoDup(dying, rest, w.free);
    DroppedOne(rest, c);
    Reordered(dying, rest, c, later, w.free);
    UncountedReady(w, v, rest, c);
  }

  lemma DroppedOne(rest: seq<Slot>, c: Slot)
    requires NoDup(rest) && c in rest
    ensures Elems(Without(rest, c)) == Elems(rest) - {c} && |Without(rest, c)| == |rest| - 1
  {
    WithoutAt(rest, Position(rest, c));
  }

  lemma UncountedReady(w: Sys, v: Sys, rest: seq<Slot>, c: Slot)
    requires v.ready == Without(w.ready, c) && v.current == w.current && w.current != Some(c) && c in rest
    ensures Minus(Runnable(v), {SSI} + Elems(Without(rest, c))) == Minus(Runnable(w), {SSI} + Elems(rest))
  {
    MinusConcat(w.ready, if w.current.Some? then [w.current.value] else [], {c});
    assert Runnable(v) == Without(Runnable(w), c);
    MinusMinus(Runnable(w), {c}, {SSI} + Elems(Without(rest, c)));
    assert {c} + ({SSI} + Elems(Without(rest, c))) == {SSI} + Elems(rest);
  }

  lemma RestNoDup(dying: seq<Slot>, rest: seq<Slot>, free: seq<Slot>)
    requires NoDup(dying + (rest + free))
    ensures NoDup(rest)
  {
    var all := dying + (rest + free);
    assert forall i | 0 <= i < |rest| :: all[|dying| + i] == rest[i];
  }

  lemma Reordered(dying: seq<Slot>, rest: seq<Slot>, c: Slot, later: seq<Slot>, free: seq<Slot>)
    requires NoDup(dying + (rest + free)) && Elems(later) == Elems(rest) - {c} && |later| == |rest| - 1 && c in rest
    ensures var a, b := dying + (rest + free), (dying + [c]) + (later + free);
      NoDup(b) && |b| == |a| && forall x :: x in b <==> x in a
  {
    var a, b := dying + (rest + free), (dying + [c]) + (later + free);
    NoDupCount(a);
    forall x ensures x in b <==> x in a {
      assert x in later <==> x in Elems(later);
      assert x in rest <==> x in Elems(rest);
    }
    assert Elems(b) == Elems(a);
    CountNoDup(b);
  }

  /** Nor does it matter who runs while the SSI waits for its turn. */
  lemma SwitchedEndsWell(w: Sys, v: Sys, dying: seq<Slot>, rest: seq<Slot>, late: nat)
    requires Partition(Finish(w, dying, rest, late)) && v.free == w.free && v.count == w.count
    requires NoDup(Runnable(v)) && forall x :: x in Runnable(v) <==> x in Runnable(w)
    ensures Partition(Finish(v, dying, rest, late))
  {
    FinishIs(w, dying, rest, late);
    FinishIs(v, dying, rest, late);
    MinusNoDup(Runnable(v), {SSI} + Elems(rest));
  }

  /** At every point of the recursion, whoever runs there: a send does harm exactly if it wakes one of the chain. */
  lemma SendAtPoint(s: Sys, p: Slot, path: seq<nat>, w: Sys, dest: Slot, payload: Word, sender: Word, soft: bool)
    requires StructureOk(s) && s.current == Some(SSI) && Live(s, p) && p != SSI && PathOk(s, p, path)
    requires var h := Point(s, p, path);
      && w.free == h.free && w.count == h.count
      && NoDup(Runnable(w)) && forall x :: x in Runnable(w) <==> x in Runnable(h)
    requires Live(w, dest)
    ensures var dying, rest := DyingAt(s, p, path), RestAt(s, p, path);
      Partition(Finish(SendMessage(w, dest, payload, sender, soft).0, dying, rest, 0)) <==>
      !(dest in dying && Wakes(w, dest, sender))
  {
    var h, dying, rest := Point(s, p, path), DyingAt(s, p, path), RestAt(s, p, path);
    PointEndsWell(s, p, path);
    PointAddsUp(s, p, path);
    assert SSI in Runnable(h);
    SwitchedEndsWell(h, w, dying, rest, 0);
    SendToDying(w, dying, rest, 0, dest, payload, sender, soft);
  }

  // ----- runs

  /** The third and the fourth process. */
  const CHILD: Slot := 47
  const OTHER: Slot := 46

  /** No child has been killed. */
  const START: seq<nat> := [0]

  /** A victim and a bystander `q` that can send to it, at the time when the SSI has taken the victim's place away. */
  ghost predicate Exposed(h: Sys, victim: Slot, q: Slot) {
    && h.mode == Running && h.current == Some(SSI) && h.ready == [q] && h.count == 2 && h.msgFree != []
    && Live(h, victim) && victim != q && victim != SSI && q != SSI && h.pcbs[victim].regs.a1 == ANYMESSAGE
  }

  /** The running process sends to the victim. */
  function SentTo(w: Sys, victim: Slot): Sys
    requires w.current.Some?
  {
    SyscallSend(w, Regs(SENDMESSAGE, PcbPtr(victim), Num(0), 0), false)
  }

  /** The timer interrupts the SSI, and the bystander sends to the victim. */
  lemma SentWhileDying(h: Sys, victim: Slot, q: Slot, dying: seq<Slot>)
    requires Exposed(h, victim, q) && victim in dying
    ensures var w := InterruptHandler(h, ZERO_REGS, PREEMPTED.irq);
      && w.current == Some(q)
      && var f := Finish(SentTo(w, victim), dying, [], 0); victim in f.ready && victim in f.free
  {
    var w := InterruptHandler(h, ZERO_REGS, PREEMPTED.irq);
    NoLines(PltIrq(h.(bios := ZERO_REGS)), PREEMPTED.irq, DEV_IL_START);
    assert SentTo(w, victim).ready == [SSI, victim];
    FinishIs(SentTo(w, victim), dying, [], 0);
    assert victim in Runnable(SentTo(w, victim));
  }

  lemma TwoReady(t: Table) returns (es: seq<Event>, s: Sys)
    ensures Reaches(t, es, s) && Inv(s) && s.mode == Running && s.current == Some(SSI) && s.ready == [TEST, CHILD]
    ensures s.count == 3 && s.msgFree != [] && Live(s, TEST) && Live(s, CHILD) && Live(s, SSI)
    ensures s.pcbs[TEST].kids == [] && s.pcbs[TEST].regs.a1 == ANYMESSAGE && s.pcbs[CHILD].kids == []
    ensures s.free != [] && s.free[0] == OTHER && !InQueue(s, OTHER)
  {
    AtBoot(t);
    assert Boot(t).free[0] == CHILD && Boot(t).free[1] == OTHER;
    es, s := CreateFirst(t, Boot(t));
  }

  lemma CreateFirst(t: Table, s: Sys) returns (es: seq<Event>, r: Sys)
    requires Reaches(t, [], s) && Inv(s) && s.mode == Running && s.current == Some(SSI) && s.ready == [TEST]
    requires s.clock == [] && (forall n | 0 <= n < MAXDEVICE :: s.dev[n] == []) && |s.free| > 1
    requires s.free[0] == CHILD && s.free[1] == OTHER && s.count == 2 && s.msgFree != []
    requires Live(s, TEST) && Live(s, SSI) && s.pcbs[TEST].kids == [] && s.pcbs[TEST].regs.a1 == ANYMESSAGE
    ensures Reaches(t, es, r) && Inv(r) && r.mode == Running && r.current == Some(SSI) && r.ready == [TEST, CHILD]
    ensures r.count == 3 && r.msgFree != [] && Live(r, TEST) && Live(r, CHILD) && Live(r, SSI)
    ensures r.pcbs[TEST].kids == [] && r.pcbs[TEST].regs.a1 == ANYMESSAGE && r.pcbs[CHILD].kids == []
    ensures r.free != [] && r.free[0] == OTHER && !InQueue(r, OTHER)
  {
    es, r := Create(t, [], s, SSI);
  }

  /** A run from boot to a termination in whose middle the dying process is sent a message. It is woken into the ready
      queue and then freed: its p_list would be in two lists. */
  lemma FreedAndReady(t: Table) returns (es: seq<Event>, s: Sys)
    ensures LegalRun(Boot(t), es) && Exec(Boot(t), es) == s
    ensures Inv(s) && Possible(s, SsiTerminate(PcbPtr(TEST))) && Live(s, TEST) && PathOk(s, TEST, START)
    ensures var w := InterruptHandler(Point(s, TEST, START), ZERO_REGS, PREEMPTED.irq);
      && w.current == Some(CHILD)
      && var f := Finish(SentTo(w, TEST), DyingAt(s, TEST, START), [], 0); TEST in f.ready && TEST in f.free
  {
    es, s := TwoReady(t);
    HalfKilled(s, TEST, [CHILD]);
    FirstPoint(s, TEST);
    SentWhileDying(Partial(s, TEST, []), TEST, CHILD, [TEST]);
  }

  /** Killing a process as far as its children. */
  lemma HalfKilled(s: Sys, p: Slot, rest: seq<Slot>)
    requires s.ready == [p] + rest && p !in rest
    ensures var h := Partial(s, p, []);
      && h.mode == s.mode && h.current == s.current && h.ready == rest && h.count == s.count - 1 && h.free == s.free
      && h.msgFree == s.msgFree
    ensures forall q: Slot :: Partial(s, p, []).pcbs[q].regs == s.pcbs[q].regs
  {
    assert [p] + [] == [p] && [] + s.free == s.free;
    assert Elems([p]) == {p};
    MinusConcat([p], rest, {p});
    MinusNothing(rest, {p});
  }

  /** The first point of the recursion. */
  lemma FirstPoint(s: Sys, p: Slot)
    requires Forest(s.pcbs, s.free, s.nextPid) && Live(s, p)
    ensures Inner(s, p, 0) == Partial(s, p, []) && PathOk(s, p, START) && Point(s, p, START) == Partial(s, p, [])
    ensures DyingAt(s, p, START) == [p] && Partial(s, p, []).pcbs[p].kids == s.pcbs[p].kids
  {
    PartialStart(s, p);
    assert s.pcbs[p].kids[0..] == s.pcbs[p].kids;
  }

  /** No child and no grandchild has been killed. */
  const NESTED: seq<nat> := [0, 0]

  lemma SecondPoint(s: Sys, p: Slot, c: Slot)
    requires Forest(s.pcbs, s.free, s.nextPid) && Live(s, p) && s.pcbs[p].kids == [c]
    ensures PathOk(s, p, NESTED) && Point(s, p, NESTED) == Partial(Partial(s, p, []), c, [])
    ensures DyingAt(s, p, NESTED) == [p, c]
  {
    FirstPoint(s, p);
    NextFreed(s, p, 0);
    FirstPoint(Inner(s, p, 0), c);
    assert NESTED[1..] == START;
  }

  lemma ParentAndChild(t: Table) returns (es: seq<Event>, s: Sys)
    ensures Reaches(t, es, s) && Inv(s) && s.mode == Running && s.current == Some(SSI)
    ensures s.ready == [TEST, CHILD, OTHER] && s.count == 4 && s.msgFree != [] && Live(s, TEST) && Live(s, CHILD)
    ensures s.pcbs[TEST].kids == [CHILD] && s.pcbs[CHILD].regs.a1 == ANYMESSAGE
  {
    es, s := CreateChild(t);
    es, s := CreateOther(t, es, s);
  }

  lemma CreateChild(t: Table) returns (es: seq<Event>, s: Sys)
    ensures Reaches(t, es, s) && Inv(s) && s.mode == Running && s.current == Some(SSI) && s.free != []
    ensures s.clock == [] && (forall n | 0 <= n < MAXDEVICE :: s.dev[n] == []) && s.free[0] == OTHER
    ensures s.ready == [TEST, CHILD] && s.count == 3 && s.msgFree != [] && s.pcbs[TEST].kids == [CHILD]
    ensures s.pcbs[CHILD].regs == ZERO_REGS && Live(s, TEST) && Live(s, CHILD) && Live(s, SSI)
  {
    AtBoot(t);
    es, s := [], Boot(t);
    assert s.free[0] == CHILD && s.free[1] == OTHER;
    es, s := Create(t, es, s, TEST);
  }

  lemma CreateOther(t: Table, es: seq<Event>, s: Sys) returns (es': seq<Event>, r: Sys)
    requires Reaches(t, es, s) && Inv(s) && s.mode == Running && s.current == Some(SSI) && s.free != []
    requires s.clock == [] && (forall n | 0 <= n < MAXDEVICE :: s.dev[n] == []) && s.free[0] == OTHER
    requires s.ready == [TEST, CHILD] && s.count == 3 && s.msgFree != [] && s.pcbs[TEST].kids == [CHILD]
    requires s.pcbs[CHILD].regs == ZERO_REGS && Live(s, TEST) && Live(s, CHILD) && Live(s, SSI)
    ensures Reaches(t, es', r) && Inv(r) && r.mode == Running && r.current == Some(SSI)
    ensures r.ready == [TEST, CHILD, OTHER] && r.count == 4 && r.msgFree != [] && Live(r, TEST) && Live(r, CHILD)
    ensures r.pcbs[TEST].kids == [CHILD] && r.pcbs[CHILD].regs.a1 == ANYMESSAGE
  {
    es', r := Create(t, es, s, SSI);
  }

  lemma Create(t: Table, es: seq<Event>, s: Sys, sender: Slot) returns (es': seq<Event>, r: Sys)
    requires Reaches(t, es, s) && Inv(s) && s.mode == Running && s.current == Some(SSI) && Live(s, sender)
    requires s.free != [] && s.clock == [] && forall n | 0 <= n < MAXDEVICE :: s.dev[n] == []
    ensures Reaches(t, es', r) && Inv(r) && r.mode == Running && r.current == Some(SSI)
    ensures r.free == s.free[1..] && r.clock == [] && r.dev == s.dev && r.msgFree == s.msgFree
    ensures r.ready == s.ready + [s.free[0]] && r.count == s.count + 1 && s.free[0] != sender
    ensures r.pcbs[s.free[0]].kids == [] && r.pcbs[s.free[0]].regs == ZERO_REGS
    ensures forall q: Slot | q != s.free[0] ::
      r.pcbs[q] == if q == sender then s.pcbs[q].(kids := s.pcbs[q].kids + [s.free[0]]) else s.pcbs[q]
  {
    assert s.free[0] in s.free;
    es', r := Quiet(t, es, s, SsiCreate(sender, ZERO_REGS, false));
  }

  /** The same with a victim further down: its parent is being killed, and it is the child's turn. */
  lemma ChildFreedAndReady(t: Table) returns (es: seq<Event>, s: Sys)
    ensures LegalRun(Boot(t), es) && Exec(Boot(t), es) == s
    ensures Inv(s) && Possible(s, SsiTerminate(PcbPtr(TEST))) && Live(s, TEST) && PathOk(s, TEST, NESTED)
    ensures var w := InterruptHandler(Point(s, TEST, NESTED), ZERO_REGS, PREEMPTED.irq);
      && w.current == Some(OTHER)
      && var f := Finish(SentTo(w, CHILD), DyingAt(s, TEST, NESTED), [], 0); CHILD in f.ready && CHILD in f.free
  {
    es, s := ParentAndChild(t);
    ChildExposed(s);
    SecondPoint(s, TEST, CHILD);
    SentWhileDying(Point(s, TEST, NESTED), CHILD, OTHER, [TEST, CHILD]);
  }

  lemma ChildExposed(s: Sys)
    requires s.mode == Running && s.current == Some(SSI) && s.ready == [TEST, CHILD, OTHER] && s.count == 4
    requires s.msgFree != [] && Live(s, CHILD) && s.pcbs[CHILD].regs.a1 == ANYMESSAGE
    ensures Exposed(Partial(Partial(s, TEST, []), CHILD, []), CHILD, OTHER)
  {
    assert s.ready == [TEST] + [CHILD, OTHER] && [CHILD, OTHER] == [CHILD] + [OTHER];
    HalfKilled(s, TEST, [CHILD, OTHER]);
    HalfKilled(Partial(s, TEST, []), CHILD, [OTHER]);
  }
}
