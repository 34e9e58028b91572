/** The process tree: which entries a termination frees. */
module Tree {
  import opened Sequences
  import opened Kernel

  /** Every live process hangs below its parent, if it has one. */
  predicate Attached(t: Table, free: seq<Slot>, p: Slot) {
    t[p].parent.Some? ==> t[p].parent.value !in free && p in t[t[p].parent.value].kids
  }

  ghost predicate Parents(t: Table, free: seq<Slot>) {
    t[SSI].parent == None && forall p: Slot | p !in free :: Attached(t, free, p)
  }

  /** The k-th ancestor along the parent links; 0 is the process itself. */
  function Ancestor(t: Table, x: Slot, k: nat): Option<Slot> {
    if k == 0 then Some(x)
    else
      var a := Ancestor(t, x, k - 1);
      if a.None? then None else t[a.value].parent
  }

  /** `p` is among the ancestors of `x`, or is `x`. */
  ghost predicate Descends(t: Table, x: Slot, p: Slot) {
    exists k :: Ancestor(t, x, k) == Some(p)
  }

  /** Everything freed is live, no older than `p`, and, but for `p`, the child of something freed. */
  ghost predicate BelowOk(t: Table, free: seq<Slot>, freed: seq<Slot>, p: Slot, x: Slot) {
    && x !in free && t[p].pid <= t[x].pid
    && (x != p ==> x != SSI && t[x].parent.Some? && t[x].parent.value in freed && x in t[t[x].parent.value].kids)
  }

  lemma {:induction false} FreedBelow(t: Table, free: seq<Slot>, bound: int, p: Slot, x: Slot)
    requires Forest(t, free, bound) && p !in free
    requires x in Freed(t, free, bound, p)
    ensures BelowOk(t, free, Freed(t, free, bound, p), p, x)
    decreases bound - t[p].pid, 1, 0
  {
    assert FamilyOk(t, free, bound, p);
    if x != p {
      var c := FreedKidsBelow(t, free, bound, p, t[p].kids, x);
      assert FamilyOk(t, free, bound, c);
      if x != c {
        FreedWhole(t, free, bound, p, t[p].kids, c, t[x].parent.value);
      }
    }
  }

  lemma {:induction false} FreedKidsBelow(t: Table, free: seq<Slot>, bound: int, p: Slot, kids: seq<Slot>, x: Slot)
    returns (c: Slot)
    requires Forest(t, free, bound) && p !in free
    requires forall c | c in kids :: c in t[p].kids
    requires x in FreedKids(t, free, bound, p, kids)
    ensures c in kids && c !in free && x in Freed(t, free, bound, c)
    ensures BelowOk(t, free, Freed(t, free, bound, c), c, x)
    decreases bound - t[p].pid, 0, |kids|
  {
    assert FamilyOk(t, free, bound, p) && kids[0] in t[p].kids;
    assert FamilyOk(t, free, bound, kids[0]);
    if x in Freed(t, free, bound, kids[0]) {
      c := kids[0];
      FreedBelow(t, free, bound, c, x);
    } else {
      c := FreedKidsBelow(t, free, bound, p, kids[1..], x);
    }
  }

  /** A child's whole progeny is freed with it. */
  lemma {:induction false} FreedWhole(t: Table, free: seq<Slot>, bound: int, p: Slot, kids: seq<Slot>, c: Slot, x: Slot)
    requires Forest(t, free, bound) && p !in free && c !in free
    requires forall c | c in kids :: c in t[p].kids
    requires c in kids && x in Freed(t, free, bound, c)
    ensures x in FreedKids(t, free, bound, p, kids)
    decreases |kids|
  {
    assert FamilyOk(t, free, bound, p) && kids[0] in t[p].kids;
    if c != kids[0] {
      FreedWhole(t, free, bound, p, kids[1..], c, x);
    }
  }

  /** Freed entries are closed under children. */
  lemma {:induction false} FreedClosed(t: Table, free: seq<Slot>, bound: int, p: Slot, x: Slot, y: Slot)
    requires Forest(t, free, bound) && p !in free
    requires x in Freed(t, free, bound, p) && y in t[x].kids
    ensures y in Freed(t, free, bound, p)
    decreases bound - t[p].pid
  {
    assert FamilyOk(t, free, bound, p);
    if x == p {
      FreedWhole(t, free, bound, p, t[p].kids, y, y);
    } else {
      var c := FreedKidsBelow(t, free, bound, p, t[p].kids, x);
      assert FamilyOk(t, free, bound, c);
      FreedClosed(t, free, bound, c, x, y);
      FreedWhole(t, free, bound, p, t[p].kids, c, y);
    }
  }

  /** The progenies of two different children do not meet. */
  lemma {:induction false} SiblingsDisjoint(t: Table, free: seq<Slot>, bound: int, p: Slot, c: Slot, d: Slot, x: Slot)
    requires Forest(t, free, bound) && p !in free && c !in free && d !in free
    requires c in t[p].kids && d in t[p].kids && c != d
    requires x in Freed(t, free, bound, c)
    ensures x !in Freed(t, free, bound, d)
    decreases t[x].pid - t[p].pid
  {
    assert FamilyOk(t, free, bound, p);
    if x in Freed(t, free, bound, d) {
      FreedBelow(t, free, bound, c, x);
      FreedBelow(t, free, bound, d, x);
      if x == c || x == d {
        FreedBelow(t, free, bound, if x == c then d else c, p);
      } else {
        var q := t[x].parent.value;
        FreedBelow(t, free, bound, c, q);
        assert FamilyOk(t, free, bound, q);
        SiblingsDisjoint(t, free, bound, p, c, d, q);
      }
    }
  }

  /** No entry is freed twice. */
  lemma {:induction false} FreedNoDup(t: Table, free: seq<Slot>, bound: int, p: Slot)
    requires Forest(t, free, bound) && p !in free
    ensures NoDup(Freed(t, free, bound, p))
    decreases bound - t[p].pid, 1, 0
  {
    assert FamilyOk(t, free, bound, p);
    FreedKidsNoDup(t, free, bound, p, t[p].kids);
    if p in FreedKids(t, free, bound, p, t[p].kids) {
      var c := FreedKidsBelow(t, free, bound, p, t[p].kids, p);
    }
  }

  lemma {:induction false} FreedKidsNoDup(t: Table, free: seq<Slot>, bound: int, p: Slot, kids: seq<Slot>)
    requires Forest(t, free, bound) && p !in free
    requires NoDup(kids) && forall c | c in kids :: c in t[p].kids
    ensures NoDup(FreedKids(t, free, bound, p, kids))
    decreases bound - t[p].pid, 0, |kids|
  {
    if kids != [] {
      var c := kids[0];
      assert FamilyOk(t, free, bound, p) && c in t[p].kids;
      assert FamilyOk(t, free, bound, c);
      FreedNoDup(t, free, bound, c);
      FreedKidsNoDup(t, free, bound, p, kids[1..]);
      var a, b := FreedKids(t, free, bound, p, kids[1..]), Freed(t, free, bound, c);
      forall x | x in a ensures x !in b {
        var d := FreedKidsBelow(t, free, bound, p, kids[1..], x);
        assert c !in kids[1..];
        SiblingsDisjoint(t, free, bound, p, d, c, x);
      }
      NoDupConcat(a, b);
    }
  }

  /** Termination frees exactly the live processes that have `p` among their ancestors. */
  lemma {:induction false} FreedIsProgeny(t: Table, free: seq<Slot>, bound: int, p: Slot, x: Slot)
    requires Forest(t, free, bound) && Parents(t, free) && p !in free
    ensures x in Freed(t, free, bound, p) <==> x !in free && Descends(t, x, p)
  {
    if x in Freed(t, free, bound, p) {
      FreedBelow(t, free, bound, p, x);
      var k := ClimbTo(t, free, bound, p, x);
    }
    if x !in free && Descends(t, x, p) {
      var k :| Ancestor(t, x, k) == Some(p);
      DescendFrom(t, free, bound, p, x, k);
    }
  }

  lemma {:induction false} ClimbTo(t: Table, free: seq<Slot>, bound: int, p: Slot, x: Slot) returns (k: nat)
    requires Forest(t, free, bound) && p !in free
    requires x in Freed(t, free, bound, p)
    ensures Ancestor(t, x, k) == Some(p)
    decreases t[x].pid - t[p].pid
  {
    FreedBelow(t, free, bound, p, x);
    if x == p {
      k := 0;
    } else {
      var q := t[x].parent.value;
      FreedBelow(t, free, bound, p, q);
      assert FamilyOk(t, free, bound, q);
      var j := ClimbTo(t, free, bound, p, q);
      AncestorOfParent(t, x, j);
      k := j + 1;
    }
  }

  lemma {:induction false} AncestorOfParent(t: Table, x: Slot, k: nat)
    requires t[x].parent.Some?
    ensures Ancestor(t, x, k + 1) == Ancestor(t, t[x].parent.value, k)
  {
    if k == 0 {
      assert Ancestor(t, x, 0) == Some(x);
    } else {
      AncestorOfParent(t, x, k - 1);
    }
  }

  lemma {:induction false} DescendFrom(t: Table, free: seq<Slot>, bound: int, p: Slot, x: Slot, k: nat)
    requires Forest(t, free, bound) && Parents(t, free) && p !in free && x !in free
    requires Ancestor(t, x, k) == Some(p)
    ensures x in Freed(t, free, bound, p)
    decreases k
  {
    if k > 0 {
      assert Attached(t, free, x);
      if t[x].parent.None? {
        NoAncestor(t, x, k);
      } else {
        var q := t[x].parent.value;
        AncestorOfParent(t, x, k - 1);
        DescendFrom(t, free, bound, p, q, k - 1);
        FreedClosed(t, free, bound, p, q, x);
      }
    }
  }

  lemma {:induction false} NoAncestor(t: Table, x: Slot, k: nat)
    requires t[x].parent.None? && k > 0
    ensures Ancestor(t, x, k) == None
  {
    if k > 1 {
      NoAncestor(t, x, k - 1);
    } else {
      assert Ancestor(t, x, 0) == Some(x);
    }
  }
}
