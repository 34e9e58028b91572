/** The kernel's intrusive lists: cyclic, doubly linked, changed in place. */
module ListX {
  import opened Sequences

  /** Which field of which structure a list_head is embedded in. */
  datatype Member = PList | PIo | MList | Anchor

  class ListHead {
    var next: ListHead
    var prev: ListHead
    const owner: nat
    const member: Member

    /** INIT_LIST_HEAD on a new list_head. */
    constructor (owner: nat, member: Member)
      ensures next == this && prev == this && this.owner == owner && this.member == member
      ensures Ring(this, [])
    {
      next, prev := this, this;
      this.owner, this.member := owner, member;
    }

    /** INIT_LIST_HEAD on an existing list_head. */
    method Init()
      modifies this
      ensures next == this && prev == this
    {
      next := this;
      prev := this;
    }
  }

  /** Position `i` of the cycle through anchor `h` and nodes `s`. */
  ghost function At(h: ListHead, s: seq<ListHead>, i: nat): ListHead
    requires i <= |s| + 1
  {
    if i == 0 || i == |s| + 1 then h else s[i - 1]
  }

  /** The link between positions `i` and `i + 1` is there in both directions. */
  ghost predicate LinkOk(h: ListHead, s: seq<ListHead>, i: nat)
    requires i <= |s|
    reads h, s
  {
    At(h, s, i).next == At(h, s, i + 1) && At(h, s, i + 1).prev == At(h, s, i)
  }

  /** The anchor `h` heads the list `s`: forward and backward links go round once. */
  ghost predicate Ring(h: ListHead, s: seq<ListHead>)
    reads h, s
  {
    && h !in s && NoDup(s)
    && forall i {:trigger LinkOk(h, s, i)} | 0 <= i <= |s| :: LinkOk(h, s, i)
  }

  /** The structure that contains `n`, if `n` is its field `m`; the address computed for any other field is the
      start of no structure. */
  function ContainerOf(n: ListHead, m: Member): Option<nat> {
    if n.member == m then Some(n.owner) else None
  }

  lemma RingEnds(h: ListHead, s: seq<ListHead>)
    requires Ring(h, s)
    ensures h.next == (if s == [] then h else s[0]) && h.prev == (if s == [] then h else s[|s| - 1])
    ensures h.next == h <==> s == []
  {
    assert At(h, s, 0) == h && At(h, s, |s| + 1) == h && At(h, s, |s|) == if s == [] then h else s[|s| - 1];
    assert LinkOk(h, s, |s|) && LinkOk(h, s, 0);
  }

  lemma RingNode(h: ListHead, s: seq<ListHead>, k: nat)
    requires Ring(h, s) && k < |s|
    ensures s[k].prev == (if k == 0 then h else s[k - 1]) && s[k].next == (if k + 1 == |s| then h else s[k + 1])
  {
    assert LinkOk(h, s, k) && LinkOk(h, s, k + 1);
  }

  /** __list_add */
  method InsertBetween(n: ListHead, prev: ListHead, next: ListHead)
    requires n != prev && n != next
    modifies n, prev, next
    ensures n.next == next && n.prev == prev && next.prev == n && prev.next == n
    ensures prev != next ==> prev.prev == old(prev.prev) && next.next == old(next.next)
  {
    next.prev := n;
    n.next := next;
    n.prev := prev;
    prev.next := n;
  }

  /** list_add: insertion at the head. */
  method ListAdd(n: ListHead, h: ListHead, ghost s: seq<ListHead>)
    requires Ring(h, s) && n != h && n !in s
    modifies n, h, s
    ensures Ring(h, [n] + s)
  {
    RingEnds(h, s);
    InsertBetween(n, h, h.next);
    ghost var t := [n] + s;
    forall i | 0 <= i <= |t| ensures LinkOk(h, t, i) {
      assert i >= 2 ==> old(LinkOk(h, s, i - 1));
    }
  }

  /** list_add_tail: insertion at the tail. */
  method ListAddTail(n: ListHead, h: ListHead, ghost s: seq<ListHead>)
    requires Ring(h, s) && n != h && n !in s
    modifies n, h, s
    ensures Ring(h, s + [n])
  {
    RingEnds(h, s);
    InsertBetween(n, h.prev, h);
    ghost var t := s + [n];
    forall i | 0 <= i <= |t| ensures LinkOk(h, t, i) {
      assert i < |s| ==> old(LinkOk(h, s, i));
    }
  }

  /** list_del: the neighbours are linked with each other; the entry keeps its own links. On a node that is
      linked with itself it does nothing. */
  method ListDel(e: ListHead, ghost h: ListHead, ghost s: seq<ListHead>, ghost k: nat)
    requires (Ring(h, s) && k < |s| && s[k] == e) || (e.next == e && e.prev == e)
    modifies e.prev, e.next
    ensures old(Ring(h, s)) && k < |s| && s[k] == e ==> Ring(h, s[..k] + s[k + 1..])
    ensures e.next == old(e.next) && e.prev == old(e.prev)
  {
    if Ring(h, s) && k < |s| && s[k] == e {
      RingNode(h, s, k);
    }
    e.next.prev := e.prev;
    e.prev.next := e.next;
    if old(Ring(h, s)) && k < |s| && s[k] == e {
      ghost var t := s[..k] + s[k + 1..];
      forall i | 0 <= i <= |t| ensures LinkOk(h, t, i) {
        if i < k {
          assert old(LinkOk(h, s, i));
        } else if i > k {
          assert old(LinkOk(h, s, i + 1));
        }
      }
    }
  }
}
