/** Process and message queues as linked lists: each operation does to the links what `Kernel` does to sequences. */
module ProcQueues {
  import opened Sequences
  import opened ListX
  import opened Kernel
  import opened Mail

  /** The structures whose field `m` is linked, in order. */
  function Owners(s: seq<ListHead>): (r: seq<nat>)
    ensures |r| == |s| && forall i :: 0 <= i < |s| ==> r[i] == s[i].owner
  {
    seq(|s|, i requires 0 <= i < |s| => s[i].owner)
  }

  predicate AllOf(s: seq<ListHead>, m: Member) {
    forall n | n in s :: n.member == m
  }

  /** The nodes that are not field `m` of structure `p`. */
  function Kept(s: seq<ListHead>, m: Member, p: nat): (r: seq<ListHead>) {
    if s == [] then []
    else (if ContainerOf(s[0], m) == Some(p) then [] else [s[0]]) + Kept(s[1..], m, p)
  }

  lemma {:induction false} KeptSnoc(s: seq<ListHead>, n: ListHead, m: Member, p: nat)
    ensures Kept(s + [n], m, p) == Kept(s, m, p) + if ContainerOf(n, m) == Some(p) then [] else [n]
  {
    if s != [] {
      assert (s + [n])[1..] == s[1..] + [n];
      KeptSnoc(s[1..], n, m, p);
    }
  }

  /** On a queue of `m` links, unlinking is removal from the sequence of structures. */
  lemma {:induction false} KeptIsWithout(s: seq<ListHead>, m: Member, p: nat)
    requires AllOf(s, m)
    ensures Owners(Kept(s, m, p)) == Without(Owners(s), p) && AllOf(Kept(s, m, p), m)
  {
    if s != [] {
      assert s[0] in s && AllOf(s[1..], m) by { assert forall n | n in s[1..] :: n in s; }
      KeptIsWithout(s[1..], m, p);
      assert Owners(s)[1..] == Owners(s[1..]);
      assert Owners([s[0]] + Kept(s[1..], m, p)) == [s[0].owner] + Owners(Kept(s[1..], m, p));
    }
  }

  /** Searching a queue through the wrong link finds nothing: the clock queue links p_io fields, termination
      searches it through p_list, so a killed waiter stays queued. */
  lemma {:induction false} WrongLinkKeepsAll(s: seq<ListHead>, m: Member, wrong: Member, p: nat)
    requires AllOf(s, m) && wrong != m
    ensures Kept(s, wrong, p) == s && forall n | n in s :: ContainerOf(n, wrong) != Some(p)
  {
    if s != [] {
      assert s[0] in s && AllOf(s[1..], m) by { assert forall n | n in s[1..] :: n in s; }
      WrongLinkKeepsAll(s[1..], m, wrong, p);
    }
  }

  /** Some node is field `m` of structure `p`. */
  predicate Linked(s: seq<ListHead>, m: Member, p: nat) {
    exists i | 0 <= i < |s| :: ContainerOf(s[i], m) == Some(p)
  }

  /** `c` nodes of `s` were visited, `i` of them are still linked, and `r` is what was found. */
  ghost predicate Walked(s: seq<ListHead>, c: nat, m: Member, p: nat, t: seq<ListHead>, i: nat, r: Option<nat>) {
    && c <= |s| && t == Kept(s[..c], m, p) + s[c..] && i == |Kept(s[..c], m, p)|
    && r == if Linked(s[..c], m, p) then Some(p) else None
  }

  lemma WalkEnds(s: seq<ListHead>, m: Member, p: nat, t: seq<ListHead>, i: nat, r: Option<nat>)
    requires Walked(s, |s|, m, p, t, i, r)
    ensures t == Kept(s, m, p) && r == if Linked(s, m, p) then Some(p) else None
  {
    assert s[..|s|] == s && Kept(s, m, p) + s[|s|..] == Kept(s, m, p);
  }

  lemma AtEnd(h: ListHead, t: seq<ListHead>, i: nat)
    requires h !in t && i <= |t| && At(h, t, i + 1) == h
    ensures i == |t|
  {
  }

  /** One step of the walk. */
  lemma WalkStep(s: seq<ListHead>, c: nat, m: Member, p: nat, t: seq<ListHead>, i: nat, r: Option<nat>)
    requires c < |s| && Walked(s, c, m, p, t, i, r)
    ensures i < |t| && t[i] == s[c]
    ensures if ContainerOf(s[c], m) == Some(p) then Walked(s, c + 1, m, p, t[..i] + t[i + 1..], i, Some(p))
            else Walked(s, c + 1, m, p, t, i + 1, r)
  {
    var k := Kept(s[..c], m, p);
    assert s[..c + 1] == s[..c] + [s[c]] && s[c..] == [s[c]] + s[c + 1..];
    KeptSnoc(s[..c], s[c], m, p);
    assert t[..i] == k && t[i + 1..] == s[c + 1..];
    LinkedSnoc(s[..c], s[c], m, p);
  }

  lemma LinkedSnoc(s: seq<ListHead>, n: ListHead, m: Member, p: nat)
    ensures Linked(s + [n], m, p) <==> Linked(s, m, p) || ContainerOf(n, m) == Some(p)
  {
    assert (s + [n])[|s|] == n;
    assert forall i | 0 <= i < |s| :: (s + [n])[i] == s[i];
  }

  /** outProcQ (`m` is p_list) and outProcQForIO (p_io): the node is unlinked while the list is being walked. */
  method OutProcQ(h: ListHead, p: nat, m: Member, ghost s: seq<ListHead>) returns (r: Option<nat>)
    requires Ring(h, s)
    modifies h, s
    ensures Ring(h, Kept(s, m, p))
    ensures r == if Linked(s, m, p) then Some(p) else None
  {
    r := None;
    RingEnds(h, s);
    var iter := h.next;
    ghost var c, i, t := 0, 0, s;
    assert s[..0] == [];
    while iter != h
      invariant c <= |s| && Walked(s, c, m, p, t, i, r) && i <= |t| && |t| - i == |s| - c
      invariant Ring(h, t) && Elems(t) <= Elems(s) && iter == At(h, t, i + 1)
      decreases |s| - c
    {
      WalkStep(s, c, m, p, t, i, r);
      NodesIn(h, t, i, s);
      if ContainerOf(iter, m) == Some(p) {
        t := Unlink(iter, h, t, i, s);
        r := Some(p);
      } else {
        i := i + 1;
      }
      iter := iter.next;
      c := c + 1;
    }
    AtEnd(h, t, i);
    WalkEnds(s, m, p, t, i, r);
  }

  /** list_del on a node of the list that is being walked: its own link still leads to what followed it. */
  method Unlink(iter: ListHead, ghost h: ListHead, ghost t: seq<ListHead>, ghost i: nat, ghost s: seq<ListHead>)
    returns (ghost u: seq<ListHead>)
    requires Ring(h, t) && i < |t| && t[i] == iter && Elems(t) <= Elems(s)
    modifies h, s
    ensures u == t[..i] + t[i + 1..] && Ring(h, u) && Elems(u) <= Elems(s) && iter.next == At(h, u, i + 1)
  {
    NodesIn(h, t, i, s);
    u := t[..i] + t[i + 1..];
    ListDel(iter, h, t, i);
    assert At(h, u, i + 1) == At(h, t, i + 2);
  }

  /** The neighbours of a node of a sublist are the anchor or nodes of the list. */
  lemma NodesIn(h: ListHead, t: seq<ListHead>, i: nat, s: seq<ListHead>)
    requires Ring(h, t) && i < |t| && Elems(t) <= Elems(s)
    ensures t[i].prev == h || t[i].prev in s
    ensures t[i].next == h || t[i].next in s
    ensures t[i].next == At(h, t, i + 2)
  {
    RingNode(h, t, i);
    assert forall k | 0 <= k < |t| :: t[k] in Elems(t);
  }

  /** searchPcb */
  method SearchPcb(h: ListHead, p: nat, ghost s: seq<ListHead>) returns (found: bool)
    requires Ring(h, s)
    ensures found <==> exists n | n in s :: ContainerOf(n, PList) == Some(p)
  {
    found := false;
    RingEnds(h, s);
    var iter := h.next;
    ghost var i := 0;
    while iter != h
      invariant i <= |s| && iter == At(h, s, i + 1)
      invariant found <==> exists n | n in s[..i] :: ContainerOf(n, PList) == Some(p)
      decreases |s| - i
    {
      RingNode(h, s, i);
      assert s[..i + 1] == s[..i] + [s[i]];
      if ContainerOf(iter, PList) == Some(p) {
        found := true;
      }
      iter := iter.next;
      i := i + 1;
    }
    assert s[..i] == s;
  }

  /** insertProcQ, insertProcQForIO, insertMessage */
  method InsertTail(h: ListHead, n: ListHead, ghost s: seq<ListHead>)
    requires Ring(h, s) && n != h && n !in s
    modifies n, h, s
    ensures Ring(h, s + [n]) && Owners(s + [n]) == Owners(s) + [n.owner]
  {
    ListAddTail(n, h, s);
  }

  /** The first node of `h` has been re-initialised while it was linked: `h` still leads to it, it leads to itself. */
  ghost predicate SelfLinked(h: ListHead)
    reads h, h.next
  {
    h.next != h && h.next.next == h.next && h.next.prev == h.next
  }

  /** removeProcQ, removeProcQForIO: unlinks and re-initialises the first node. */
  method RemoveHead(h: ListHead, ghost s: seq<ListHead>) returns (r: Option<nat>)
    requires Ring(h, s)
    modifies h, s
    ensures if s == [] then r == None && Ring(h, s)
            else r == Some(s[0].owner) && Ring(h, s[1..]) && s[0].next == s[0] && s[0].prev == s[0]
  {
    RingEnds(h, s);
    if h.next == h {
      return None;
    }
    var tmp := h.next;
    NodesIn(h, s, 0, s);
    ghost var rest := Unlink(tmp, h, s, 0, s);
    assert rest == s[1..];
    InitKeepsRing(tmp, h, s[1..]);
    r := Some(tmp.owner);
  }

  method InitKeepsRing(n: ListHead, h: ListHead, ghost s: seq<ListHead>)
    requires Ring(h, s) && n != h && n !in s
    modifies n
    ensures Ring(h, s) && n.next == n && n.prev == n
  {
    n.Init();
    forall i | 0 <= i <= |s| ensures LinkOk(h, s, i) {
      assert old(LinkOk(h, s, i));
    }
  }

  /** The same removal on a queue whose first node was re-initialised returns that node and changes nothing, so a
      loop that removes until the queue is empty never ends. */
  method RemoveStuckHead(h: ListHead) returns (r: Option<nat>)
    requires SelfLinked(h)
    modifies h.next
    ensures r == Some(h.next.owner) && h.next == old(h.next) && SelfLinked(h)
  {
    if h.next == h {
      return None;
    }
    var tmp := h.next;
    ListDel(tmp, h, [], 0);
    tmp.Init();
    r := Some(tmp.owner);
  }

  /** allocPcb re-initialises p_io. If the entry still heads the clock queue, that queue is broken for good. */
  method ReinitQueued(h: ListHead, ghost s: seq<ListHead>)
    requires Ring(h, s) && s != []
    modifies s
    ensures SelfLinked(h) && !Ring(h, s)
  {
    RingEnds(h, s);
    h.next.Init();
    assert !LinkOk(h, s, 0);
  }

  // ----- message queues (phase1/msg.c)

  /** The inbox that the linked message structures stand for. */
  function InboxOf(s: seq<ListHead>, msgTable: seq<Packet>): (r: seq<Msg>)
    requires |msgTable| == MAXMESSAGES && forall n | n in s :: n.owner < MAXMESSAGES
    ensures |r| == |s| && forall i :: 0 <= i < |s| ==> r[i] == Msg(s[i].owner, msgTable[s[i].owner])
  {
    seq(|s|, i requires 0 <= i < |s| => Msg(s[i].owner, msgTable[s[i].owner]))
  }

  /** The walk of popMessage: the first node whose message the filter accepts. */
  method FindLinked(h: ListHead, filter: Word, msgTable: array<Packet>, ghost s: seq<ListHead>)
    returns (iter: ListHead, ghost i: nat)
    requires Ring(h, s) && msgTable.Length == MAXMESSAGES && forall n | n in s :: n.owner < MAXMESSAGES
    ensures i == FirstAccepted(InboxOf(s, msgTable[..]), filter)
    ensures iter == At(h, s, FirstAccepted(InboxOf(s, msgTable[..]), filter) + 1)
  {
    ghost var inbox := InboxOf(s, msgTable[..]);
    RingEnds(h, s);
    iter, i := h.next, 0;
    while iter != h
      invariant i <= |s| && iter == At(h, s, i + 1)
      invariant forall j | 0 <= j < i :: !Accepts(filter, inbox[j].packet.sender)
      decreases |s| - i
    {
      RingNode(h, s, i);
      assert iter == s[i] && iter in s;
      if filter == ANYMESSAGE || msgTable[iter.owner].sender == filter {
        break;
      }
      iter := iter.next;
      i := i + 1;
    }
  }

  /** popMessage */
  method PopLinked(h: ListHead, filter: Word, msgTable: array<Packet>, ghost s: seq<ListHead>)
    returns (r: Option<MsgId>, ghost t: seq<ListHead>)
    requires Ring(h, s) && msgTable.Length == MAXMESSAGES && forall n | n in s :: n.owner < MAXMESSAGES
    modifies h, s
    ensures Ring(h, t) && Elems(t) <= Elems(s)
    ensures forall n | n in t :: n.owner < MAXMESSAGES
    ensures PopMessage(InboxOf(s, msgTable[..]), filter) ==
      (if r.Some? then Some(Msg(r.value, msgTable[r.value])) else None, InboxOf(t, msgTable[..]))
  {
    PopIsFirst(InboxOf(s, msgTable[..]), filter);
    var iter;
    ghost var i;
    iter, i := FindLinked(h, filter, msgTable, s);
    if iter == h {
      return None, s;
    }
    t := s[..i] + s[i + 1..];
    PopAt(s, msgTable[..], i, t);
    NodesIn(h, s, i, s);
    ListDel(iter, h, s, i);
    r := Some(iter.owner);
  }

  lemma PopAt(s: seq<ListHead>, msgTable: seq<Packet>, i: nat, t: seq<ListHead>)
    requires |msgTable| == MAXMESSAGES && (forall n | n in s :: n.owner < MAXMESSAGES)
    requires i < |s| && t == s[..i] + s[i + 1..]
    ensures Elems(t) <= Elems(s) && forall n | n in t :: n.owner < MAXMESSAGES
    ensures var inbox := InboxOf(s, msgTable); InboxOf(t, msgTable) == inbox[..i] + inbox[i + 1..]
  {
    assert forall n | n in t :: n in s;
  }
}
