/** Conservation of the fifty message structures. */
module Pool {
  import opened Sequences
  import opened Kernel
  import opened Mail
  import opened Tree

  function Ids(inbox: seq<Msg>): (r: seq<MsgId>)
    ensures |r| == |inbox| && forall i :: 0 <= i < |inbox| ==> r[i] == inbox[i].id
  {
    seq(|inbox|, i requires 0 <= i < |inbox| => inbox[i].id)
  }

  /** The message structures pending at `p`. */
  function IdsAt(s: Sys, p: Slot): seq<MsgId> {
    Ids(s.pcbs[p].inbox)
  }

  predicate Apart(s: Sys, p: Slot, q: Slot) {
    forall id | id in IdsAt(s, p) :: id !in IdsAt(s, q)
  }

  predicate OwnOk(s: Sys, p: Slot) {
    NoDup(IdsAt(s, p)) && forall id | id in IdsAt(s, p) :: id !in s.msgFree
  }

  /** No message structure is in two places. */
  ghost predicate PoolOk(s: Sys) {
    && NoDup(s.msgFree)
    && (forall p: Slot | Live(s, p) :: OwnOk(s, p))
    && (forall p: Slot, q: Slot | Live(s, p) && Live(s, q) && p != q :: Apart(s, p, q))
  }

  /** Pending for some live process. */
  predicate Pending(s: Sys, id: MsgId) {
    exists p: Slot | Live(s, p) :: id in IdsAt(s, p)
  }

  /** Neither free nor pending for a live process: lost with a terminated receiver. */
  predicate Stranded(s: Sys, id: MsgId) {
    id !in s.msgFree && !Pending(s, id)
  }

  predicate SameStranded(s: Sys, r: Sys) {
    forall id: MsgId :: Stranded(r, id) <==> Stranded(s, id)
  }

  /** Free, pending and stranded structures are always fifty. */
  lemma PoolTotal(s: Sys)
    requires PoolOk(s)
    ensures |s.msgFree| + |set id: MsgId | Pending(s, id)| + |set id: MsgId | Stranded(s, id)| == MAXMESSAGES
  {
    NoDupCount(s.msgFree);
    forall id: MsgId | Pending(s, id) ensures id !in s.msgFree {
      var p: Slot :| Live(s, p) && id in IdsAt(s, p);
      assert OwnOk(s, p);
    }
    var b, c := (set id: MsgId | Pending(s, id)), (set id: MsgId | Stranded(s, id));
    forall x | 0 <= x < MAXMESSAGES ensures x in Elems(s.msgFree) || x in b || x in c {
      var id: MsgId := x;
      assert id in s.msgFree || Pending(s, id) || Stranded(s, id);
    }
    CoverCount(Elems(s.msgFree), b, c, MAXMESSAGES);
  }

  /** Nothing about messages changed for the processes that are still live. */
  lemma PoolFrame(s: Sys, r: Sys)
    requires PoolOk(s) && r.msgFree == s.msgFree
    requires forall p: Slot | Live(r, p) :: Live(s, p) && r.pcbs[p].inbox == s.pcbs[p].inbox
    ensures PoolOk(r)
    ensures (forall p: Slot | Live(s, p) :: Live(r, p)) ==> SameStranded(s, r)
  {
    forall p: Slot | Live(r, p) ensures OwnOk(r, p) {
      assert OwnOk(s, p);
    }
    forall p: Slot, q: Slot | Live(r, p) && Live(r, q) && p != q ensures Apart(r, p, q) {
      assert Apart(s, p, q);
    }
    if forall p: Slot | Live(s, p) :: Live(r, p) {
      assert forall p: Slot | Live(s, p) :: IdsAt(r, p) == IdsAt(s, p);
    }
  }

  /** A structure moves between the pool and `p`'s inbox; everything else stays. */
  lemma MovePool(s: Sys, r: Sys, p: Slot, id: MsgId)
    requires PoolOk(s) && Live(s, p) && r.free == s.free
    requires forall q: Slot | q != p :: r.pcbs[q].inbox == s.pcbs[q].inbox
    requires NoDup(r.msgFree) && NoDup(IdsAt(r, p))
    requires (id in s.msgFree && id in IdsAt(r, p) && id !in r.msgFree)
      || (id in r.msgFree && id in IdsAt(s, p) && id !in IdsAt(r, p))
    requires forall x: MsgId | x != id ::
      (x in r.msgFree <==> x in s.msgFree) && (x in IdsAt(r, p) <==> x in IdsAt(s, p))
    ensures PoolOk(r) && SameStranded(s, r)
  {
    assert OwnOk(s, p);
    forall q: Slot | Live(r, q) && q != p ensures IdsAt(r, q) == IdsAt(s, q) && id !in IdsAt(s, q) && OwnOk(r, q) {
      assert Live(s, q) && OwnOk(s, q) && Apart(s, p, q);
    }
    forall q: Slot, o: Slot | Live(r, q) && Live(r, o) && q != o ensures Apart(r, q, o) {
      assert Apart(s, q, o);
    }
    forall x: MsgId ensures Stranded(r, x) <==> Stranded(s, x) {
      assert x in IdsAt(s, p) ==> Pending(s, x);
      assert x in IdsAt(r, p) ==> Pending(r, x);
      if x != id {
        assert forall q: Slot | Live(s, q) :: x in IdsAt(r, q) <==> x in IdsAt(s, q);
      }
    }
  }

  /** An inbox `dest` gains the structure taken from the pool. */
  lemma EnqueuePool(s: Sys, dest: Slot, m: Msg)
    requires PoolOk(s) && Live(s, dest) && s.msgFree != [] && m.id == s.msgFree[0]
    ensures var r := Enqueue(s.(msgFree := s.msgFree[1..]), dest, m);
      PoolOk(r) && SameStranded(s, r)
  {
    var r := Enqueue(s.(msgFree := s.msgFree[1..]), dest, m);
    assert s.msgFree == [m.id] + r.msgFree;
    assert IdsAt(r, dest) == IdsAt(s, dest) + [m.id];
    assert OwnOk(s, dest);
    NoDupConcat(IdsAt(s, dest), [m.id]);
    assert m.id in s.msgFree && m.id in IdsAt(r, dest);
    MovePool(s, r, dest, m.id);
  }

  /** A send keeps the pool: it uses one structure when it queues and none when it hands over. */
  lemma SendPool(s: Sys, dest: Slot, payload: Word, sender: Word, soft: bool)
    requires PoolOk(s) && Live(s, dest) && s.msgFree != []
    ensures var r := SendMessage(s, dest, payload, sender, soft).0;
      && PoolOk(r) && SameStranded(s, r)
      && r.msgFree == if IsWaitingFor(s, dest, sender) then s.msgFree else s.msgFree[1..]
  {
    var r := SendMessage(s, dest, payload, sender, soft).0;
    var m := Msg(s.msgFree[0], Packet(Public(sender), payload));
    assert s.msgFree == [m.id] + s.msgFree[1..];
    var s0 := s.(msgFree := s.msgFree[1..]);
    var s1 := LogSent(MarkRequest(s0, dest, sender, soft), dest, m.packet);
    assert IsWaitingFor(s1, dest, sender) == IsWaitingFor(s, dest, sender);
    if IsWaitingFor(s, dest, sender) {
      PoolFrame(s, r);
    } else {
      var e := Enqueue(s0, dest, m);
      EnqueuePool(s, dest, m);
      assert forall p: Slot :: r.pcbs[p].inbox == e.pcbs[p].inbox;
      PoolFrame(e, r);
    }
  }

  lemma SyscallSendPool(s: Sys, r: Regs, soft: bool)
    requires PoolOk(s) && s.current.Some?
    ensures PoolOk(SyscallSend(s, r, soft)) && SameStranded(s, SyscallSend(s, r, soft))
  {
    var target := Target(s, s.current.value, r.a1);
    var s1 := if IsPcbValid(s, target) then SendMessage(s, target.slot, r.a2, PcbPtr(s.current.value), soft).0 else s;
    if IsPcbValid(s, target) && s.msgFree != [] {
      SendPool(s, target.slot, r.a2, PcbPtr(s.current.value), soft);
    }
    PoolFrame(s1, SyscallSend(s, r, soft));
  }

  /** Receiving returns exactly the taken structure to the pool; blocking touches nothing. */
  lemma ReceivePool(s: Sys, r: Regs)
    requires PoolOk(s) && s.current.Some? && Live(s, s.current.value)
    ensures var p, n := s.current.value, SyscallReceive(s, r);
      && PoolOk(n) && SameStranded(s, n)
      && |n.msgFree| + |n.pcbs[p].inbox| == |s.msgFree| + |s.pcbs[p].inbox|
  {
    var p := s.current.value;
    var inbox := s.pcbs[p].inbox;
    var n := SyscallReceive(s, r);
    PopIsFirst(inbox, r.a1);
    var k := FirstAccepted(inbox, r.a1);
    if k == |inbox| {
      PoolFrame(s, n);
    } else {
      TakePool(s, n, p, k);
    }
  }

  lemma TakePool(s: Sys, n: Sys, p: Slot, k: nat)
    requires PoolOk(s) && Live(s, p) && k < |s.pcbs[p].inbox| && n.free == s.free
    requires n.pcbs[p].inbox == s.pcbs[p].inbox[..k] + s.pcbs[p].inbox[k + 1..]
    requires n.msgFree == [s.pcbs[p].inbox[k].id] + s.msgFree
    requires forall q: Slot | q != p :: n.pcbs[q].inbox == s.pcbs[q].inbox
    ensures PoolOk(n) && SameStranded(s, n)
  {
    var ids := IdsAt(s, p);
    assert OwnOk(s, p) && ids[k] in ids;
    assert IdsAt(n, p) == ids[..k] + ids[k + 1..];
    WithoutAt(ids, k);
    MinusNoDup(ids, {ids[k]});
    NoDupConcat([ids[k]], s.msgFree);
    MovePool(s, n, p, ids[k]);
  }

  /** Termination strands exactly what was pending for the killed processes. */
  lemma TerminatedPool(s: Sys, p: Slot)
    requires PoolOk(s) && Forest(s.pcbs, s.free, s.nextPid) && Live(s, p)
    ensures PoolOk(Terminated(s, p))
    ensures forall id: MsgId :: Stranded(Terminated(s, p), id) <==>
      Stranded(s, id) || exists q: Slot | q in Freed(s.pcbs, s.free, s.nextPid, p) :: id in IdsAt(s, q)
  {
    var r := Terminated(s, p);
    var freed := Freed(s.pcbs, s.free, s.nextPid, p);
    PoolFrame(s, r);
    assert forall q: Slot :: IdsAt(r, q) == IdsAt(s, q);
    forall id: MsgId, q: Slot | q in freed && id in IdsAt(s, q) ensures Stranded(r, id) {
      FreedBelow(s.pcbs, s.free, s.nextPid, p, q);
      assert OwnOk(s, q);
      forall o: Slot | Live(r, o) ensures id !in IdsAt(r, o) {
        assert Apart(s, q, o);
      }
    }
  }

  lemma CreatePool(s: Sys, sender: Slot, state: Regs, support: bool)
    requires PoolOk(s) && NoDup(s.free)
    ensures PoolOk(CreateProcess(s, sender, state, support))
    ensures SameStranded(s, CreateProcess(s, sender, state, support))
  {
    if s.free != [] {
      var r := CreateProcess(s, sender, state, support);
      var p := s.free[0];
      assert s.free == [p] + r.free;
      assert IdsAt(r, p) == [];
      assert forall q: Slot | q != p :: IdsAt(r, q) == IdsAt(s, q) && (Live(r, q) <==> Live(s, q));
      forall q: Slot | Live(r, q) ensures OwnOk(r, q) {
        assert q != p ==> OwnOk(s, q);
      }
      forall q: Slot, o: Slot | Live(r, q) && Live(r, o) && q != o ensures Apart(r, q, o) {
        if q != p && o != p {
          assert Live(s, q) && Live(s, o) && Apart(s, q, o);
        }
      }
    }
  }
}
