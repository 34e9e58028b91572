/** Every pcbTable entry is in one place, the process tree is sound, and the wait queues hold live
    processes once: kept by every entry point of the nucleus. */
module Structure {
  import opened Sequences
  import opened Devices
  import opened Kernel
  import opened Tree

  /** Free, ready and running are disjoint; what is left is blocked; the count is that of the non-free. */
  ghost predicate Partition(s: Sys) {
    && NoDup(s.free) && NoDup(s.ready)
    && (forall p | p in s.ready :: p !in s.free)
    && (s.current.Some? ==> s.current.value !in s.free && s.current.value !in s.ready)
    && SSI !in s.free
    && s.count == MAXPROC - |s.free|
  }

  /** Pids of live processes are distinct and were all issued. */
  predicate Pids(t: Table, free: seq<Slot>, nextPid: int) {
    forall p: Slot, q: Slot | p !in free && q !in free && p != q :: t[p].pid < nextPid && t[p].pid != t[q].pid
  }

  ghost predicate TreeOk(t: Table, free: seq<Slot>, nextPid: int) {
    Forest(t, free, nextPid) && Parents(t, free) && Pids(t, free, nextPid)
  }

  predicate DistinctQueues(d: Queues) {
    forall n, m | 0 <= n < m < MAXDEVICE :: forall p | p in d[n] :: p !in d[m]
  }

  /** An entry is in at most one device queue or the clock queue, once: it has one p_io link. A killed process may
      still be queued, as long as its entry is not allocated again. */
  ghost predicate IoOk(s: Sys) {
    && s.rings
    && (forall n | 0 <= n < MAXDEVICE :: NoDup(s.dev[n]) && forall p | p in s.dev[n] :: p !in s.clock)
    && DistinctQueues(s.dev)
    && NoDup(s.clock)
  }

  ghost predicate StructureOk(s: Sys) {
    Partition(s) && TreeOk(s.pcbs, s.free, s.nextPid) && IoOk(s)
  }

  /** Same allocation, same family links and the same support structures. */
  ghost predicate SameTree(s: Sys, r: Sys) {
    && r.free == s.free && r.nextPid == s.nextPid && r.count == s.count
    && forall p: Slot ::
         && r.pcbs[p].kids == s.pcbs[p].kids && r.pcbs[p].parent == s.pcbs[p].parent && r.pcbs[p].pid == s.pcbs[p].pid
         && r.pcbs[p].support == s.pcbs[p].support
  }

  ghost predicate SameQueues(s: Sys, r: Sys) {
    r.dev == s.dev && r.clock == s.clock && r.rings == s.rings
  }

  lemma TreeFrame(s: Sys, r: Sys)
    requires SameTree(s, r) && TreeOk(s.pcbs, s.free, s.nextPid)
    ensures TreeOk(r.pcbs, r.free, r.nextPid)
  {
    forall p: Slot | p !in r.free ensures FamilyOk(r.pcbs, r.free, r.nextPid, p) {
      assert FamilyOk(s.pcbs, s.free, s.nextPid, p);
    }
    forall p: Slot | p !in r.free ensures Attached(r.pcbs, r.free, p) {
      assert Attached(s.pcbs, s.free, p);
    }
  }

  // ----- messages, interrupts and dispatch

  ghost predicate SameStructure(s: Sys, r: Sys) {
    SameTree(s, r) && SameQueues(s, r) && r.current == s.current && r.mode == s.mode
  }

  lemma MarkFrame(s: Sys, dest: Slot, sender: Word, soft: bool, m: Packet)
    ensures SameStructure(s, LogSent(MarkRequest(s, dest, sender, soft), dest, m))
    ensures MarkRequest(s, dest, sender, soft).ready == s.ready
  {
  }

  /** A send changes no links and at most appends the woken receiver to the ready queue. */
  lemma SendFrame(s: Sys, dest: Slot, payload: Word, sender: Word, soft: bool)
    ensures var r := SendMessage(s, dest, payload, sender, soft).0;
      && SameStructure(s, r)
      && (r.ready == s.ready || (r.ready == s.ready + [dest] && dest !in s.ready && s.current != Some(dest)))
  {
    if s.msgFree != [] {
      var m := Msg(s.msgFree[0], Packet(Public(sender), payload));
      var s0 := s.(msgFree := s.msgFree[1..]);
      MarkFrame(s0, dest, sender, soft, m.packet);
      var s1 := LogSent(MarkRequest(s0, dest, sender, soft), dest, m.packet);
      assert SameStructure(s1, Handover(s1, dest, m));
      assert SameStructure(s1, Enqueue(s1, dest, m));
    }
  }

  lemma SendStructure(s: Sys, dest: Slot, payload: Word, sender: Word, soft: bool)
    requires StructureOk(s) && Live(s, dest)
    ensures StructureOk(SendMessage(s, dest, payload, sender, soft).0)
  {
    var r := SendMessage(s, dest, payload, sender, soft).0;
    SendFrame(s, dest, payload, sender, soft);
    TreeFrame(s, r);
    assert IoOk(r);
  }

  lemma SyscallSendFrame(s: Sys, r: Regs, soft: bool)
    requires s.current.Some?
    ensures var n := SyscallSend(s, r, soft);
      SameTree(s, n) && SameQueues(s, n) && n.current == s.current && n.mode == s.mode
  {
    var target := Target(s, s.current.value, r.a1);
    if IsPcbValid(s, target) {
      SendFrame(s, target.slot, r.a2, PcbPtr(s.current.value), soft);
    }
  }

  lemma SyscallSendStructure(s: Sys, r: Regs, soft: bool)
    requires StructureOk(s) && s.current.Some?
    ensures StructureOk(SyscallSend(s, r, soft))
  {
    var target := Target(s, s.current.value, r.a1);
    var s1 := if IsPcbValid(s, target) then SendMessage(s, target.slot, r.a2, PcbPtr(s.current.value), soft).0 else s;
    if IsPcbValid(s, target) {
      SendStructure(s, target.slot, r.a2, PcbPtr(s.current.value), soft);
    }
    RelabelStructure(s1, SyscallSend(s, r, soft));
  }

  /** Registers, memory, messages and the mode are not part of the structure. */
  lemma RelabelStructure(s: Sys, r: Sys)
    requires StructureOk(s) && SameTree(s, r) && SameQueues(s, r)
    requires r.ready == s.ready && r.current == s.current
    ensures StructureOk(r)
  {
    TreeFrame(s, r);
  }

  lemma ReceiveStructure(s: Sys, r: Regs)
    requires StructureOk(s) && s.current.Some?
    ensures StructureOk(SyscallReceive(s, r))
  {
    TreeFrame(s, SyscallReceive(s, r));
  }

  lemma SchedulerStructure(s: Sys)
    requires StructureOk(s)
    ensures StructureOk(Scheduler(s))
  {
    TreeFrame(s, Scheduler(s));
  }

  lemma PltStructure(s: Sys)
    requires StructureOk(s)
    ensures StructureOk(PltIrq(s))
  {
    TreeFrame(s, PltIrq(s));
  }

  lemma DeviceStructure(s: Sys, line: int, bank: Bank)
    requires StructureOk(s)
    ensures StructureOk(DeviceIrq(s, line, bank))
  {
    var n := FirstPending(bank, 0);
    if s.mode != Panicked && n < N_DEV_PER_IL {
      SendStructure(s, SSI, Num(IrqPayload(line, n, bank[n])), INTERRUPT_HANDLER_MSG, false);
    } else {
      RelabelStructure(s, DeviceIrq(s, line, bank));
    }
  }

  lemma {:induction false} LinesStructure(s: Sys, irq: Irq, line: int)
    requires StructureOk(s) && irq.Valid() && DEV_IL_START <= line <= DEV_IL_START + N_EXT_IL
    ensures StructureOk(LineIrqs(s, irq, line))
    decreases DEV_IL_START + N_EXT_IL - line
  {
    if line < DEV_IL_START + N_EXT_IL {
      if line in irq.mip {
        DeviceStructure(s, line, irq.banks[line - DEV_IL_START]);
      }
      LinesStructure(if line in irq.mip then DeviceIrq(s, line, irq.banks[line - DEV_IL_START]) else s, irq, line + 1);
    }
  }

  lemma InterruptStructure(s: Sys, r: Regs, irq: Irq)
    requires StructureOk(s) && irq.Valid()
    ensures StructureOk(InterruptHandler(s, r, irq))
  {
    var s0 := s.(bios := r);
    RelabelStructure(s, s0);
    var s1 := if IL_TIMER in irq.mip then SendMessageToSsi(s0, CLOCK_PAYLOAD) else s0;
    if IL_TIMER in irq.mip {
      SendStructure(s0, SSI, Num(CLOCK_PAYLOAD), INTERRUPT_HANDLER_MSG, false);
    }
    PltStructure(s1);
    LinesStructure(TimerIrqs(s0, irq), irq, DEV_IL_START);
    SchedulerStructure(LineIrqs(TimerIrqs(s0, irq), irq, DEV_IL_START));
  }

  // ----- termination

  /** Killing `p` frees `p` and its progeny, each once, and nothing else. */
  lemma TerminatedFree(s: Sys, p: Slot)
    requires StructureOk(s) && Live(s, p) && p != SSI
    ensures var r := Terminated(s, p);
      && NoDup(r.free) && SSI !in r.free && r.count == MAXPROC - |r.free|
  {
    var freed := Freed(s.pcbs, s.free, s.nextPid, p);
    FreedNoDup(s.pcbs, s.free, s.nextPid, p);
    forall x | x in freed ensures x !in s.free && x != SSI {
      FreedBelow(s.pcbs, s.free, s.nextPid, p, x);
    }
    NoDupConcat(freed, s.free);
  }

  lemma TerminatedTree(s: Sys, p: Slot)
    requires StructureOk(s) && Live(s, p) && p != SSI
    ensures TreeOk(Terminated(s, p).pcbs, Terminated(s, p).free, s.nextPid)
  {
    var r := Terminated(s, p);
    var freed := Freed(s.pcbs, s.free, s.nextPid, p);
    forall q: Slot | q !in r.free ensures FamilyOk(r.pcbs, r.free, r.nextPid, q) && Attached(r.pcbs, r.free, q) {
      assert FamilyOk(s.pcbs, s.free, s.nextPid, q) && Attached(s.pcbs, s.free, q);
      MinusNoDup(s.pcbs[q].kids, Elems(freed));
      if s.pcbs[q].parent.Some? && s.pcbs[q].parent.value in freed {
        FreedClosed(s.pcbs, s.free, s.nextPid, p, s.pcbs[q].parent.value, q);
      }
    }
  }

  lemma PurgeDistinct(s: Sys, freed: seq<Slot>)
    requires DistinctQueues(s.dev)
    ensures DistinctQueues(Purge(s, freed).dev)
  {
    var r := Purge(s, freed);
    forall n, m | 0 <= n < m < MAXDEVICE ensures forall p | p in r.dev[n] :: p !in r.dev[m] {
      assert forall p | p in s.dev[n] :: p !in s.dev[m];
    }
  }

  lemma PurgeIo(s: Sys, freed: seq<Slot>)
    requires IoOk(s)
    ensures IoOk(Purge(s, freed))
  {
    var r := Purge(s, freed);
    assert r.clock == s.clock;
    forall n | 0 <= n < MAXDEVICE ensures NoDup(r.dev[n]) && forall p | p in r.dev[n] :: p !in r.clock {
      MinusNoDup(s.dev[n], Elems(freed));
      assert r.dev[n] == Minus(s.dev[n], Elems(freed));
    }
    PurgeDistinct(s, freed);
  }

  /** Termination keeps the structure exactly when it does not kill the running process. */
  lemma TerminatedStructure(s: Sys, p: Slot)
    requires StructureOk(s) && Live(s, p) && p != SSI
    ensures StructureOk(Terminated(s, p)) <==>
      forall x | x in Freed(s.pcbs, s.free, s.nextPid, p) :: s.current != Some(x)
  {
    var freed := Freed(s.pcbs, s.free, s.nextPid, p);
    TerminatedFree(s, p);
    TerminatedTree(s, p);
    PurgeIo(s, freed);
    MinusNoDup(s.ready, Elems(freed));
    assert forall x | x in freed :: x in Terminated(s, p).free;
  }

  /** `p` and its progeny, by the parent links. */
  ghost function Progeny(s: Sys, p: Slot): set<Slot> {
    set x: Slot | Live(s, x) && Descends(s.pcbs, x, p)
  }

  lemma FreedSet(s: Sys, p: Slot)
    requires StructureOk(s) && Live(s, p)
    ensures Elems(Freed(s.pcbs, s.free, s.nextPid, p)) == Progeny(s, p)
    ensures |Freed(s.pcbs, s.free, s.nextPid, p)| == |Progeny(s, p)|
  {
    var freed := Freed(s.pcbs, s.free, s.nextPid, p);
    forall x: Slot ensures x in freed <==> x in Progeny(s, p) {
      FreedIsProgeny(s.pcbs, s.free, s.nextPid, p, x);
    }
    FreedNoDup(s.pcbs, s.free, s.nextPid, p);
    NoDupCount(freed);
    assert Elems(freed) == Progeny(s, p);
  }

  /** A survivor loses the child `p`, if it had it, and no other. */
  lemma SurvivorKids(s: Sys, p: Slot, q: Slot)
    requires StructureOk(s) && Live(s, p) && Live(s, q) && q !in Freed(s.pcbs, s.free, s.nextPid, p)
    ensures Minus(s.pcbs[q].kids, Elems(Freed(s.pcbs, s.free, s.nextPid, p))) == Without(s.pcbs[q].kids, p)
  {
    var freed := Freed(s.pcbs, s.free, s.nextPid, p);
    assert FamilyOk(s.pcbs, s.free, s.nextPid, q);
    forall c | c in s.pcbs[q].kids ensures c in freed <==> c == p {
      if c in freed {
        FreedBelow(s.pcbs, s.free, s.nextPid, p, c);
      }
      if c == p {
        assert freed[0] == p;
      }
    }
    MinusSame(s.pcbs[q].kids, Elems(freed), {p});
  }

  /** What terminating `p` amounts to: exactly `p` and its progeny become free, the count drops by their number,
      the ready queue and the device queues lose them and keep their order, `p`'s parent loses one child, and
      nobody else's entry changes. The clock queue is not touched. */
  lemma TerminationEffect(s: Sys, p: Slot)
    requires StructureOk(s) && Live(s, p)
    ensures var r, gone := Terminated(s, p), Progeny(s, p);
      && (forall x :: x in r.free <==> x in s.free || x in gone)
      && r.count == s.count - |gone|
      && r.ready == Minus(s.ready, gone)
      && (forall n | 0 <= n < MAXDEVICE :: r.dev[n] == Minus(s.dev[n], gone))
      && (forall q: Slot | Live(r, q) :: r.pcbs[q] == s.pcbs[q].(kids := Without(s.pcbs[q].kids, p)))
      && r.clock == s.clock && r.msgFree == s.msgFree && r.current == s.current
  {
    FreedSet(s, p);
    var freed := Freed(s.pcbs, s.free, s.nextPid, p);
    forall q: Slot | Live(Terminated(s, p), q)
      ensures Terminated(s, p).pcbs[q] == s.pcbs[q].(kids := Without(s.pcbs[q].kids, p))
    {
      SurvivorKids(s, p, q);
    }
  }

  /** The SSI is never killed with somebody else. */
  lemma SsiSurvives(s: Sys, p: Slot)
    requires StructureOk(s) && Live(s, p) && p != SSI
    ensures SSI !in Freed(s.pcbs, s.free, s.nextPid, p)
  {
    if SSI in Freed(s.pcbs, s.free, s.nextPid, p) {
      FreedBelow(s.pcbs, s.free, s.nextPid, p, SSI);
    }
  }

  // ----- services of the SSI

  lemma CreateTree(s: Sys, sender: Slot, state: Regs, support: bool)
    requires StructureOk(s) && Live(s, sender) && s.free != []
    ensures var r := CreateProcess(s, sender, state, support); TreeOk(r.pcbs, r.free, r.nextPid)
  {
    var r := CreateProcess(s, sender, state, support);
    var p := s.free[0];
    assert forall x | x in s.free[1..] :: x in s.free && x != p;
    forall q: Slot | q !in r.free ensures FamilyOk(r.pcbs, r.free, r.nextPid, q) && Attached(r.pcbs, r.free, q) {
      if q != p {
        assert FamilyOk(s.pcbs, s.free, s.nextPid, q) && Attached(s.pcbs, s.free, q);
        NoDupConcat(s.pcbs[q].kids, [p]);
      }
    }
  }

  /** Creation keeps the structure exactly when the requester is still alive and the entry is no longer queued. */
  lemma CreateStructure(s: Sys, sender: Slot, state: Regs, support: bool)
    requires StructureOk(s) && s.free != []
    ensures StructureOk(CreateProcess(s, sender, state, support)) <==> Live(s, sender) && !InQueue(s, s.free[0])
  {
    var r := CreateProcess(s, sender, state, support);
    assert s.free[0] in s.free;
    assert forall x | x in s.free :: x == s.free[0] || x in s.free[1..];
    assert forall x | x in s.free[1..] :: x in s.free && x != s.free[0];
    if Live(s, sender) {
      CreateTree(s, sender, state, support);
    } else if sender == s.free[0] {
      assert !FamilyOk(r.pcbs, r.free, r.nextPid, sender) by { assert sender in r.pcbs[sender].kids; }
    } else {
      assert !Attached(r.pcbs, r.free, s.free[0]);
    }
  }

  /** DoIo keeps the structure exactly for a sender that waits neither on the clock nor on another device. */
  lemma DoIoStructure(s: Sys, sender: Slot, n: nat)
    requires StructureOk(s) && n < MAXDEVICE
    ensures StructureOk(DoIo(s, sender, n)) <==>
      sender !in s.clock && forall m | 0 <= m < MAXDEVICE && m != n :: sender !in s.dev[m]
  {
    var r := DoIo(s, sender, n);
    TreeFrame(s, r);
    MinusNoDup(s.dev[n], {sender});
    NoDupConcat(Without(s.dev[n], sender), [sender]);
    assert sender in r.dev[n];
    if IoOk(r) {
      forall m | 0 <= m < MAXDEVICE && m != n ensures sender !in s.dev[m] {
        assert r.dev[m] == s.dev[m];
      }
    }
    assert forall m | 0 <= m < MAXDEVICE ::
      r.dev[m] == if m == n then Without(s.dev[n], sender) + [sender] else s.dev[m];
  }

  lemma WaitForClockStructure(s: Sys, sender: Slot)
    requires StructureOk(s)
    ensures StructureOk(WaitForClock(s, sender)) <==> !InQueue(s, sender)
  {
    var r := WaitForClock(s, sender);
    TreeFrame(s, r);
    assert sender in r.clock;
    if sender in s.clock {
      var k := Position(s.clock, sender);
      assert r.clock[k] == r.clock[|s.clock|];
    }
  }
}
