/** Why killing children one by one, on the tree that is being taken apart, kills exactly the progeny. */
module Killing {
  import opened Sequences
  import opened Devices
  import opened Kernel
  import opened Tree

  /** `s0` in the middle of terminating `p`: `p` is out of every queue but not yet free, `done` has been freed. */
  function Partial(s0: Sys, p: Slot, done: seq<Slot>): Sys {
    Purge(s0, [p] + done).(free := done + s0.free)
  }

  /** The progeny depends only on the links inside it. */
  lemma {:induction false} FreedFrame(t: Table, free: seq<Slot>, u: Table, free': seq<Slot>, bound: int, p: Slot)
    requires Forest(t, free, bound) && Forest(u, free', bound) && p !in free
    requires forall x | x in Freed(t, free, bound, p) :: x !in free' && u[x].kids == t[x].kids && u[x].pid == t[x].pid
    ensures p !in free' && Freed(u, free', bound, p) == Freed(t, free, bound, p)
    decreases bound - t[p].pid, 1, 0
  {
    assert FamilyOk(t, free, bound, p);
    FreedKidsFrame(t, free, u, free', bound, p, t[p].kids);
  }

  lemma {:induction false} FreedKidsFrame(t: Table, free: seq<Slot>, u: Table, free': seq<Slot>, bound: int,
    p: Slot, kids: seq<Slot>)
    requires Forest(t, free, bound) && Forest(u, free', bound) && p !in free && p !in free'
    requires u[p].kids == t[p].kids
    requires forall c | c in kids :: c in t[p].kids
    requires forall x | x in FreedKids(t, free, bound, p, kids) ::
      x !in free' && u[x].kids == t[x].kids && u[x].pid == t[x].pid
    ensures FreedKids(u, free', bound, p, kids) == FreedKids(t, free, bound, p, kids)
    decreases bound - t[p].pid, 0, |kids|
  {
    if kids != [] {
      assert FamilyOk(t, free, bound, p) && kids[0] in t[p].kids;
      assert FamilyOk(t, free, bound, kids[0]);
      FreedFrame(t, free, u, free', bound, kids[0]);
      FreedKidsFrame(t, free, u, free', bound, p, kids[1..]);
    }
  }

  lemma {:induction false} FreedKidsSnoc(t: Table, free: seq<Slot>, bound: int, p: Slot, kids: seq<Slot>, c: Slot)
    requires Forest(t, free, bound) && p !in free && c !in free
    requires forall k | k in kids + [c] :: k in t[p].kids
    ensures FreedKids(t, free, bound, p, kids + [c]) == Freed(t, free, bound, c) + FreedKids(t, free, bound, p, kids)
    decreases |kids|
  {
    if kids == [] {
      assert [] + [c] == [c];
      assert FreedKids(t, free, bound, p, [c]) == FreedKids(t, free, bound, p, []) + Freed(t, free, bound, c);
    } else {
      assert (kids + [c])[1..] == kids[1..] + [c];
      FreedKidsSnoc(t, free, bound, p, kids[1..], c);
    }
  }

  // ----- the loop over the children

  /** Facts about the first `i` children of `p` and their progeny. */
  ghost predicate LoopOk(s0: Sys, p: Slot, i: nat)
  {
    && Forest(s0.pcbs, s0.free, s0.nextPid) && Live(s0, p) && i <= |s0.pcbs[p].kids|
  }

  ghost function Done(s0: Sys, p: Slot, i: nat): seq<Slot>
    requires LoopOk(s0, p, i)
  {
    FreedKids(s0.pcbs, s0.free, s0.nextPid, p, s0.pcbs[p].kids[..i])
  }

  lemma DoneNext(s0: Sys, p: Slot, i: nat)
    requires LoopOk(s0, p, i) && i < |s0.pcbs[p].kids|
    ensures var c := s0.pcbs[p].kids[i];
      Live(s0, c) && Done(s0, p, i + 1) == Freed(s0.pcbs, s0.free, s0.nextPid, c) + Done(s0, p, i)
  {
    var kids := s0.pcbs[p].kids;
    assert FamilyOk(s0.pcbs, s0.free, s0.nextPid, p) && kids[i] in kids;
    assert kids[..i + 1] == kids[..i] + [kids[i]];
    FreedKidsSnoc(s0.pcbs, s0.free, s0.nextPid, p, kids[..i], kids[i]);
  }

  lemma DoneNoDup(s0: Sys, p: Slot, i: nat)
    requires LoopOk(s0, p, i)
    ensures NoDup([p] + Done(s0, p, i))
    ensures forall x | x in Done(s0, p, i) :: Live(s0, x)
  {
    var kids := s0.pcbs[p].kids[..i];
    assert FamilyOk(s0.pcbs, s0.free, s0.nextPid, p);
    FreedKidsNoDup(s0.pcbs, s0.free, s0.nextPid, p, kids);
    forall x | x in Done(s0, p, i) ensures x != p && Live(s0, x) {
      var c := FreedKidsBelow(s0.pcbs, s0.free, s0.nextPid, p, kids, x);
    }
    NoDupConcat([p], Done(s0, p, i));
  }

  lemma DoneClosed(s0: Sys, p: Slot, i: nat, x: Slot, y: Slot)
    requires LoopOk(s0, p, i) && x in Done(s0, p, i) && y in s0.pcbs[x].kids
    ensures y in Done(s0, p, i)
  {
    var kids := s0.pcbs[p].kids[..i];
    var c := FreedKidsBelow(s0.pcbs, s0.free, s0.nextPid, p, kids, x);
    FreedClosed(s0.pcbs, s0.free, s0.nextPid, c, x, y);
    FreedWhole(s0.pcbs, s0.free, s0.nextPid, p, kids, c, y);
  }

  lemma MinusPrefix<T(!new)>(s: seq<T>, i: nat, gone: set<T>)
    requires i <= |s|
    requires (forall x | x in s[..i] :: x in gone) && (forall x | x in s[i..] :: x !in gone)
    ensures Minus(s, gone) == s[i..]
  {
    assert s == s[..i] + s[i..];
    MinusConcat(s[..i], s[i..], gone);
    MinusNothing(s[i..], gone);
    MinusAll(s[..i], gone);
  }

  /** The remaining children are the later ones. */
  lemma PartialKids(s0: Sys, p: Slot, i: nat)
    requires LoopOk(s0, p, i)
    ensures Partial(s0, p, Done(s0, p, i)).pcbs[p].kids == s0.pcbs[p].kids[i..]
  {
    var kids, gone := s0.pcbs[p].kids, Elems([p] + Done(s0, p, i));
    forall c | c in kids[..i] ensures c in gone {
      EarlierKid(s0, p, i, c);
    }
    forall c | c in kids[i..] ensures c !in gone {
      LaterKid(s0, p, i, c);
    }
    MinusPrefix(kids, i, gone);
  }

  lemma EarlierKid(s0: Sys, p: Slot, i: nat, c: Slot)
    requires LoopOk(s0, p, i) && c in s0.pcbs[p].kids[..i]
    ensures c in Done(s0, p, i)
  {
    assert FamilyOk(s0.pcbs, s0.free, s0.nextPid, p) && c in s0.pcbs[p].kids;
    assert FamilyOk(s0.pcbs, s0.free, s0.nextPid, c);
    FreedWhole(s0.pcbs, s0.free, s0.nextPid, p, s0.pcbs[p].kids[..i], c, c);
  }

  lemma LaterKid(s0: Sys, p: Slot, i: nat, c: Slot)
    requires LoopOk(s0, p, i) && c in s0.pcbs[p].kids[i..]
    ensures c !in [p] + Done(s0, p, i)
  {
    var kids := s0.pcbs[p].kids;
    assert FamilyOk(s0.pcbs, s0.free, s0.nextPid, p) && c in kids;
    assert FamilyOk(s0.pcbs, s0.free, s0.nextPid, c);
    if c in Done(s0, p, i) {
      var d := FreedKidsBelow(s0.pcbs, s0.free, s0.nextPid, p, kids[..i], c);
      assert c != d;
      SiblingsDisjoint(s0.pcbs, s0.free, s0.nextPid, p, d, c, c);
    }
  }

  /** The tree stays a tree while it is being taken apart. */
  lemma PartialForest(s0: Sys, p: Slot, i: nat)
    requires LoopOk(s0, p, i)
    ensures var s := Partial(s0, p, Done(s0, p, i)); Forest(s.pcbs, s.free, s.nextPid) && Live(s, p)
  {
    var s := Partial(s0, p, Done(s0, p, i));
    DoneNoDup(s0, p, i);
    assert ([p] + Done(s0, p, i))[0] == p;
    assert forall k | 0 <= k < |Done(s0, p, i)| :: ([p] + Done(s0, p, i))[k + 1] == Done(s0, p, i)[k];
    forall q: Slot | q !in s.free ensures FamilyOk(s.pcbs, s.free, s.nextPid, q) {
      assert FamilyOk(s0.pcbs, s0.free, s0.nextPid, q);
      MinusNoDup(s0.pcbs[q].kids, Elems([p] + Done(s0, p, i)));
    }
  }

  /** What the next child takes with it is what it would have taken at the start. */
  lemma NextFreed(s0: Sys, p: Slot, i: nat)
    requires LoopOk(s0, p, i) && i < |s0.pcbs[p].kids|
    ensures var s, c := Partial(s0, p, Done(s0, p, i)), s0.pcbs[p].kids[i];
      && Forest(s.pcbs, s.free, s.nextPid) && Live(s0, c) && Live(s, c) && c != SSI
      && s.pcbs[c].parent == Some(p)
      && Freed(s.pcbs, s.free, s.nextPid, c) == Freed(s0.pcbs, s0.free, s0.nextPid, c)
  {
    var s, c := Partial(s0, p, Done(s0, p, i)), s0.pcbs[p].kids[i];
    var done := Done(s0, p, i);
    assert FamilyOk(s0.pcbs, s0.free, s0.nextPid, p) && c in s0.pcbs[p].kids;
    PartialForest(s0, p, i);
    DoneNext(s0, p, i);
    NextApart(s0, p, i);
    forall x | x in Freed(s0.pcbs, s0.free, s0.nextPid, c)
      ensures x !in s.free && s.pcbs[x].kids == s0.pcbs[x].kids
    {
      FreedBelow(s0.pcbs, s0.free, s0.nextPid, c, x);
      forall y | y in s0.pcbs[x].kids ensures y !in [p] + done {
        FreedClosed(s0.pcbs, s0.free, s0.nextPid, c, x, y);
      }
      MinusNothing(s0.pcbs[x].kids, Elems([p] + done));
    }
    FreedFrame(s0.pcbs, s0.free, s.pcbs, s.free, s0.nextPid, c);
  }

  /** The next child's progeny is disjoint from what is gone. */
  lemma NextApart(s0: Sys, p: Slot, i: nat)
    requires LoopOk(s0, p, i) && i < |s0.pcbs[p].kids|
    ensures var c := s0.pcbs[p].kids[i];
      Live(s0, c) && forall x | x in Freed(s0.pcbs, s0.free, s0.nextPid, c) :: x !in [p] + Done(s0, p, i)
  {
    DoneNext(s0, p, i);
    DoneNoDup(s0, p, i + 1);
    var g, d := Freed(s0.pcbs, s0.free, s0.nextPid, s0.pcbs[p].kids[i]), Done(s0, p, i);
    NoDupApart([p], g + d, p);
    assert ([p] + (g + d))[1..] == g + d;
    forall x | x in g ensures x !in [p] + d {
      NoDupApart(g, d, x);
    }
  }

  // ----- one more child

  /** Killing `first`, which leads from `s` to `x`, and then `g` adds up to killing `both`. */
  ghost predicate AddsUp(first: seq<Slot>, g: seq<Slot>, both: seq<Slot>) {
    Elems(both) == Elems(first) + Elems(g) && |both| == |first| + |g| && forall y | y in g :: y !in first
  }

  ghost predicate DropsQueues(s: Sys, gone: set<Slot>, x: Sys) {
    (forall k | 0 <= k < MAXDEVICE :: x.dev[k] == Minus(s.dev[k], gone)) && x.ready == Minus(s.ready, gone)
  }

  ghost predicate DropsKids(s: Sys, gone: set<Slot>, x: Sys) {
    forall q: Slot {:trigger x.pcbs[q]} ::
      x.pcbs[q] == if q in s.free then s.pcbs[q] else s.pcbs[q].(kids := Minus(s.pcbs[q].kids, gone))
  }

  lemma TwiceDiscounted(s: Sys, x: Sys, first: seq<Slot>, g: seq<Slot>, both: seq<Slot>)
    requires AddsUp(first, g, both) && DropsQueues(s, Elems(first), x)
    requires forall y: Slot :: x.pcbs[y].doIo == s.pcbs[y].doIo
    ensures |Discounted(s, Elems(both))| == |Discounted(s, Elems(first))| + |Discounted(x, Elems(g))|
  {
    forall y: Slot | y in g ensures InDevice(x, y) <==> InDevice(s, y) {
      if InDevice(s, y) {
        var k :| 0 <= k < MAXDEVICE && y in s.dev[k];
        assert y in x.dev[k];
      }
      if InDevice(x, y) {
        var k :| 0 <= k < MAXDEVICE && y in x.dev[k];
        assert y in s.dev[k];
      }
    }
    assert Discounted(s, Elems(both)) == Discounted(s, Elems(first)) + Discounted(x, Elems(g));
  }

  lemma U32Twice(a: int, b: int, c: int, d: int)
    requires d == b + c
    ensures U32(U32(a - b) - c) == U32(a - d)
  {
  }

  lemma TwiceQueues(s: Sys, x: Sys, r: Sys, n: Sys, first: seq<Slot>, g: seq<Slot>, both: seq<Slot>)
    requires AddsUp(first, g, both)
    requires DropsQueues(s, Elems(first), x) && DropsQueues(x, Elems(g), r) && DropsQueues(s, Elems(both), n)
    ensures r.ready == n.ready && r.dev == n.dev
  {
    MinusMinus(s.ready, Elems(first), Elems(g));
    forall k | 0 <= k < MAXDEVICE ensures r.dev[k] == n.dev[k] {
      MinusMinus(s.dev[k], Elems(first), Elems(g));
    }
  }

  /** The children of `done` are in `first`. */
  ghost predicate ClosedIn(s: Sys, done: seq<Slot>, first: seq<Slot>) {
    && (forall y | y in done :: Live(s, y))
    && forall y: Slot, c: Slot {:trigger c in s.pcbs[y].kids} | y in done && c in s.pcbs[y].kids :: c in first
  }

  /** Of `first`, those that are already free (`done`) have no children left outside. */
  lemma TwiceKids(s: Sys, x: Sys, r: Sys, n: Sys, first: seq<Slot>, g: seq<Slot>, both: seq<Slot>, done: seq<Slot>)
    requires AddsUp(first, g, both) && x.free == done + s.free
    requires DropsKids(s, Elems(first), x) && DropsKids(x, Elems(g), r) && DropsKids(s, Elems(both), n)
    requires ClosedIn(s, done, first)
    ensures r.pcbs == n.pcbs
  {
    forall q: Slot ensures r.pcbs[q] == n.pcbs[q] {
      var kids := s.pcbs[q].kids;
      MinusMinus(kids, Elems(first), Elems(g));
      if q in done {
        MinusAll(kids, Elems(first));
        MinusAll(kids, Elems(both));
      }
    }
  }

  /** `r` is `s` but for what a purge changes. */
  ghost predicate SameRest(s: Sys, r: Sys) {
    r == s.(pcbs := r.pcbs, free := r.free, ready := r.ready, dev := r.dev, count := r.count, soft := r.soft)
  }

  lemma PurgeParts(s: Sys, freed: seq<Slot>, free: seq<Slot>)
    ensures var r := Purge(s, freed).(free := free);
      && DropsQueues(s, Elems(freed), r) && DropsKids(s, Elems(freed), r)
      && r.count == s.count - |freed|
      && r.soft == U32(s.soft - |Discounted(s, Elems(freed))|)
      && SameRest(s, r)
  {
  }

  lemma TwiceSoft(s: Sys, x: Sys, r: Sys, n: Sys, first: seq<Slot>, g: seq<Slot>, both: seq<Slot>)
    requires AddsUp(first, g, both) && DropsQueues(s, Elems(first), x)
    requires forall y: Slot :: x.pcbs[y].doIo == s.pcbs[y].doIo
    requires x.soft == U32(s.soft - |Discounted(s, Elems(first))|) && r.soft == U32(x.soft - |Discounted(x, Elems(g))|)
    requires n.soft == U32(s.soft - |Discounted(s, Elems(both))|)
    ensures r.soft == n.soft
  {
    TwiceDiscounted(s, x, first, g, both);
    U32Twice(s.soft, |Discounted(s, Elems(first))|, |Discounted(x, Elems(g))|, |Discounted(s, Elems(both))|);
  }

  lemma PurgeTwice(s: Sys, x: Sys, r: Sys, n: Sys, first: seq<Slot>, g: seq<Slot>, both: seq<Slot>, done: seq<Slot>)
    requires AddsUp(first, g, both) && x.free == done + s.free
    requires ClosedIn(s, done, first)
    requires DropsQueues(s, Elems(first), x) && DropsQueues(x, Elems(g), r) && DropsQueues(s, Elems(both), n)
    requires DropsKids(s, Elems(first), x) && DropsKids(x, Elems(g), r) && DropsKids(s, Elems(both), n)
    requires x.soft == U32(s.soft - |Discounted(s, Elems(first))|) && r.soft == U32(x.soft - |Discounted(x, Elems(g))|)
    requires n.soft == U32(s.soft - |Discounted(s, Elems(both))|)
    requires x.count == s.count - |first| && r.count == x.count - |g| && n.count == s.count - |both|
    requires SameRest(s, x) && SameRest(x, r) && SameRest(s, n) && r.free == n.free
    ensures r == n
  {
    assert r.ready == n.ready && r.dev == n.dev by { TwiceQueues(s, x, r, n, first, g, both); }
    assert r.pcbs == n.pcbs by { TwiceKids(s, x, r, n, first, g, both, done); }
    assert r.soft == n.soft by { TwiceSoft(s, x, r, n, first, g, both); }
  }

  lemma OneMoreAddsUp(p: Slot, done: seq<Slot>, g: seq<Slot>)
    requires forall x | x in g :: x !in [p] + done
    ensures AddsUp([p] + done, g, [p] + (g + done))
  {
    assert Elems([p] + (g + done)) == Elems([p] + done) + Elems(g);
  }

  /** Purging the next child's progeny brings the termination one child further. */
  lemma PartialStep(s0: Sys, p: Slot, done: seq<Slot>, g: seq<Slot>)
    requires ClosedIn(s0, done, [p] + done)
    requires forall x | x in g :: x !in [p] + done
    ensures Purge(Partial(s0, p, done), g) == Partial(s0, p, g + done)
  {
    OneMoreAddsUp(p, done, g);
    ConcatAssoc(g, done, s0.free);
    PurgeAgain(s0, [p] + done, g, [p] + (g + done), done);
  }

  lemma PurgeAgain(s: Sys, first: seq<Slot>, g: seq<Slot>, both: seq<Slot>, done: seq<Slot>)
    requires AddsUp(first, g, both) && ClosedIn(s, done, first)
    ensures Purge(Purge(s, first).(free := done + s.free), g) == Purge(s, both).(free := g + (done + s.free))
  {
    var x := Purge(s, first).(free := done + s.free);
    var r, n := Purge(x, g), Purge(s, both).(free := g + (done + s.free));
    PurgeParts(s, first, done + s.free);
    PurgeParts(x, g, g + x.free);
    PurgeParts(s, both, g + (done + s.free));
    PurgeTwice(s, x, r, n, first, g, both, done);
  }

  /** The loop invariant carries over one iteration. */
  lemma NextPartial(s0: Sys, p: Slot, i: nat)
    requires LoopOk(s0, p, i) && i < |s0.pcbs[p].kids|
    ensures var s, c := Partial(s0, p, Done(s0, p, i)), s0.pcbs[p].kids[i];
      && Forest(s.pcbs, s.free, s.nextPid) && Live(s, c)
      && Terminated(s, c) == Partial(s0, p, Done(s0, p, i + 1))
  {
    NextFreed(s0, p, i);
    DoneNext(s0, p, i);
    NextApart(s0, p, i);
    DoneNoDup(s0, p, i);
    var done := Done(s0, p, i);
    forall x: Slot, y: Slot | x in done && y in s0.pcbs[x].kids ensures y in [p] + done {
      DoneClosed(s0, p, i, x, y);
    }
    NoDupApart([p], done, p);
    PartialStep(s0, p, done, Freed(s0.pcbs, s0.free, s0.nextPid, s0.pcbs[p].kids[i]));
  }

  /** The first remaining child can be terminated, and doing so brings the loop one child further. */
  lemma ChildReady(s0: Sys, p: Slot, i: nat, s: Sys)
    requires LoopOk(s0, p, i) && i < |s0.pcbs[p].kids| && s == Partial(s0, p, Done(s0, p, i))
    ensures var c := s0.pcbs[p].kids[i];
      && Forest(s.pcbs, s.free, s.nextPid) && s.pcbs[p].kids != [] && s.pcbs[p].kids[0] == c
      && Live(s, c) && Attached(s.pcbs, s.free, c) && s0.pcbs[p].pid < s.pcbs[c].pid < s0.nextPid == s.nextPid
      && TerminateProcess(s, PcbPtr(c)) == Partial(s0, p, Done(s0, p, i + 1))
  {
    var c := s0.pcbs[p].kids[i];
    assert FamilyOk(s0.pcbs, s0.free, s0.nextPid, p) && c in s0.pcbs[p].kids;
    assert FamilyOk(s0.pcbs, s0.free, s0.nextPid, c);
    PartialForest(s0, p, i);
    PartialKids(s0, p, i);
    NextFreed(s0, p, i);
    NextPartial(s0, p, i);
  }

  // ----- the ends of a termination

  lemma PartialStart(s0: Sys, p: Slot)
    requires Forest(s0.pcbs, s0.free, s0.nextPid) && Live(s0, p)
    ensures LoopOk(s0, p, 0) && Done(s0, p, 0) == [] && Partial(s0, p, []).pcbs[p].kids == s0.pcbs[p].kids[0..]
  {
    PartialKids(s0, p, 0);
  }

  lemma PartialEnd(s0: Sys, p: Slot)
    requires LoopOk(s0, p, |s0.pcbs[p].kids|)
    ensures var s := Partial(s0, p, Done(s0, p, |s0.pcbs[p].kids|));
      s.(free := [p] + s.free) == Terminated(s0, p)
  {
    var kids := s0.pcbs[p].kids;
    var done := Done(s0, p, |kids|);
    assert kids[..|kids|] == kids;
    assert [p] + (done + s0.free) == ([p] + done) + s0.free;
  }
}
