/** Finite sequences used as queues: duplicates, order-preserving removal and positions. */
module Sequences {

  datatype Option<+T> = None | Some(value: T)

  predicate NoDup<T(==)>(s: seq<T>) {
    forall i, j :: 0 <= i < j < |s| ==> s[i] != s[j]
  }

  function Elems<T>(s: seq<T>): set<T> {
    set x | x in s
  }

  /** `s` without the elements of `xs`; the others keep their order. */
  function Minus<T(==,!new)>(s: seq<T>, xs: set<T>): (r: seq<T>)
    ensures forall x :: x in r <==> x in s && x !in xs
    ensures |r| <= |s|
  {
    if s == [] then []
    else if s[0] in xs then Minus(s[1..], xs)
    else [s[0]] + Minus(s[1..], xs)
  }

  /** `s` without `x`. */
  function Without<T(==,!new)>(s: seq<T>, x: T): (r: seq<T>)
    ensures forall y :: y in r <==> y in s && y != x
    ensures |r| <= |s|
  {
    Minus(s, {x})
  }

  lemma {:induction false} MinusNothing<T(!new)>(s: seq<T>, xs: set<T>)
    requires forall x :: x in s ==> x !in xs
    ensures Minus(s, xs) == s
  {
    if s != [] {
      assert s[0] in s;
      assert forall x :: x in s[1..] ==> x in s;
      MinusNothing(s[1..], xs);
    }
  }

  lemma {:induction false} MinusSame<T(!new)>(s: seq<T>, xs: set<T>, ys: set<T>)
    requires forall x :: x in s ==> (x in xs <==> x in ys)
    ensures Minus(s, xs) == Minus(s, ys)
  {
    if s != [] {
      assert s[0] in s;
      assert forall x :: x in s[1..] ==> x in s;
      MinusSame(s[1..], xs, ys);
    }
  }

  lemma {:induction false} MinusAll<T(!new)>(s: seq<T>, xs: set<T>)
    requires forall x :: x in s ==> x in xs
    ensures Minus(s, xs) == []
  {
    if s != [] {
      assert s[0] in s;
      assert forall x :: x in s[1..] ==> x in s;
      MinusAll(s[1..], xs);
    }
  }

  lemma MinusCons<T(!new)>(x: T, s: seq<T>, xs: set<T>)
    ensures Minus([x] + s, xs) == (if x in xs then [] else [x]) + Minus(s, xs)
  {
    assert ([x] + s)[1..] == s;
  }

  lemma {:induction false} MinusConcat<T(!new)>(s: seq<T>, t: seq<T>, xs: set<T>)
    ensures Minus(s + t, xs) == Minus(s, xs) + Minus(t, xs)
  {
    if s == [] {
      assert s + t == t;
    } else {
      MinusConcat(s[1..], t, xs);
      assert s == [s[0]] + s[1..] && s + t == [s[0]] + (s[1..] + t);
      MinusCons(s[0], s[1..] + t, xs);
    }
  }

  lemma {:induction false} MinusMinus<T(!new)>(s: seq<T>, xs: set<T>, ys: set<T>)
    ensures Minus(Minus(s, xs), ys) == Minus(s, xs + ys)
  {
    if s != [] {
      MinusMinus(s[1..], xs, ys);
      if s[0] !in xs {
        assert Minus(s, xs)[1..] == Minus(s[1..], xs);
      }
    }
  }

  lemma {:induction false} MinusNoDup<T(!new)>(s: seq<T>, xs: set<T>)
    requires NoDup(s)
    ensures NoDup(Minus(s, xs))
  {
    if s != [] {
      assert NoDup(s[1..]);
      MinusNoDup(s[1..], xs);
      assert s[0] !in s[1..];
    }
  }

  /** Removing the one occurrence at position `k` is removing the element. */
  lemma {:induction false} WithoutAt<T(!new)>(s: seq<T>, k: nat)
    requires k < |s| && NoDup(s)
    ensures Without(s, s[k]) == s[..k] + s[k + 1..]
  {
    assert s == s[..k] + ([s[k]] + s[k + 1..]);
    MinusConcat(s[..k], [s[k]] + s[k + 1..], {s[k]});
    MinusConcat([s[k]], s[k + 1..], {s[k]});
    MinusNothing(s[..k], {s[k]});
    MinusNothing(s[k + 1..], {s[k]});
  }

  /** Position of `x` in `s`. */
  function Position<T(==)>(s: seq<T>, x: T): (k: nat)
    requires x in s
    ensures k < |s| && s[k] == x
    ensures forall j :: 0 <= j < k ==> s[j] != x
  {
    if s[0] == x then 0 else 1 + Position(s[1..], x)
  }

  lemma PositionConcat<T>(s: seq<T>, t: seq<T>, x: T)
    requires x in s
    ensures x in s + t && Position(s + t, x) == Position(s, x)
  {
    var k, l := Position(s, x), Position(s + t, x);
    assert (s + t)[k] == x;
    assert forall j :: 0 <= j < k ==> (s + t)[j] == s[j];
  }

  lemma {:induction false} PositionMinus<T(!new)>(s: seq<T>, xs: set<T>, x: T)
    requires x in s && x !in xs
    ensures Position(Minus(s, xs), x) <= Position(s, x)
  {
    if s[0] != x {
      PositionMinus(s[1..], xs, x);
      if s[0] !in xs {
        assert Minus(s, xs)[1..] == Minus(s[1..], xs);
      }
    }
  }

  /** Two elements that remain are in the order that they had. */
  lemma {:induction false} MinusOrder<T(!new)>(s: seq<T>, xs: set<T>, i: nat, j: nat) returns (k: nat, l: nat)
    requires i < j < |Minus(s, xs)|
    ensures k < l < |s| && s[k] == Minus(s, xs)[i] && s[l] == Minus(s, xs)[j]
  {
    if s[0] in xs {
      k, l := MinusOrder(s[1..], xs, i, j);
      k, l := k + 1, l + 1;
    } else if i > 0 {
      k, l := MinusOrder(s[1..], xs, i - 1, j - 1);
      k, l := k + 1, l + 1;
    } else {
      var y := Minus(s, xs)[j];
      assert Minus(s, xs)[1..][j - 1] == y && y in Minus(s[1..], xs);
      k, l := 0, 1 + Position(s[1..], y);
    }
  }

  /** A duplicate-free sequence has as many positions as elements. */
  lemma {:induction false} NoDupCount<T>(s: seq<T>)
    requires NoDup(s)
    ensures |Elems(s)| == |s|
  {
    if s == [] {
      assert Elems(s) == {};
    } else {
      NoDupCount(s[1..]);
      assert s[0] !in s[1..];
      assert Elems(s) == {s[0]} + Elems(s[1..]);
    }
  }

  lemma NoDupConcat<T>(a: seq<T>, b: seq<T>)
    requires NoDup(a) && NoDup(b) && forall x | x in a :: x !in b
    ensures NoDup(a + b)
  {
    forall i, j | 0 <= i < j < |a + b| ensures (a + b)[i] != (a + b)[j] {
      if i < |a| <= j {
        assert a[i] in a;
      }
    }
  }

  lemma ConcatAssoc<T>(a: seq<T>, b: seq<T>, c: seq<T>)
    ensures a + (b + c) == (a + b) + c
  {
  }

  lemma NoDupApart<T>(a: seq<T>, b: seq<T>, x: T)
    requires NoDup(a + b) && x in a
    ensures x !in b
  {
    var k :| 0 <= k < |a| && a[k] == x;
    assert (a + b)[k] == x;
    assert forall l | 0 <= l < |b| :: (a + b)[|a| + l] == b[l];
  }

  lemma SubsetCount<T>(a: set<T>, b: set<T>)
    requires a <= b
    ensures |a| <= |b|
    ensures |b - a| == |b| - |a|
  {
    assert b == a + (b - a);
  }

  /** The numbers below `n`. */
  function Below(n: nat): (r: set<int>)
    ensures |r| == n && forall x :: x in r <==> 0 <= x < n
  {
    if n == 0 then {} else Below(n - 1) + {n - 1}
  }

  /** Three disjoint sets that cover the numbers below `n`. */
  lemma CoverCount(a: set<int>, b: set<int>, c: set<int>, n: nat)
    requires a !! b && a !! c && b !! c
    requires forall x :: 0 <= x < n <==> x in a || x in b || x in c
    ensures |a| + |b| + |c| == n
  {
    assert a + b + c == Below(n);
    assert |a + b + c| == |a + b| + |c|;
  }

  /** All numbers below `n` but `k`: there are n-1 of them. */
  lemma AllButOne(a: set<int>, n: nat, k: int)
    requires 0 <= k < n && forall x | x in a :: 0 <= x < n && x != k
    ensures |a| == n - 1 <==> forall x | 0 <= x < n && x != k :: x in a
  {
    var all := Below(n) - {k};
    SubsetCount(a, all);
    if |a| == n - 1 {
      assert all - a == {};
      assert forall x | x in all :: x in a;
    }
    if forall x | 0 <= x < n && x != k :: x in a {
      assert a == all;
    }
  }
}
