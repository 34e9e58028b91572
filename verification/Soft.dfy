/** The soft-block count, and what the scheduler concludes from it. */
module Soft {
  import opened Sequences
  import opened Devices
  import opened Kernel
  import opened Structure

  /** Blocked processes whose request flag is set. */
  function Waiters(s: Sys): set<Slot> {
    set p: Slot | Blocked(s, p) && s.pcbs[p].doIo
  }

  predicate SoftOk(s: Sys) {
    s.soft == |Waiters(s)|
  }

  lemma FewSlots(a: set<Slot>)
    ensures |a| <= MAXPROC
  {
    var all: set<int> := a;
    SubsetCount(all, Below(MAXPROC));
  }

  lemma SoftFrame(s: Sys, r: Sys)
    requires SoftOk(s) && r.soft == s.soft
    requires forall p: Slot :: (Blocked(r, p) && r.pcbs[p].doIo) <==> (Blocked(s, p) && s.pcbs[p].doIo)
    ensures SoftOk(r)
  {
    assert Waiters(r) == Waiters(s);
  }

  /** A hand-over takes the receiver off the count exactly if it was on it. */
  lemma HandoverSoft(s: Sys, dest: Slot, m: Msg)
    requires SoftOk(s) && Blocked(s, dest)
    ensures SoftOk(Handover(s, dest, m))
  {
    var r := Handover(s, dest, m);
    assert Waiters(r) == Waiters(s) - {dest};
    FewSlots(Waiters(s));
    assert s.pcbs[dest].doIo <==> dest in Waiters(s);
  }

  lemma SendSoft(s: Sys, dest: Slot, payload: Word, sender: Word, soft: bool)
    requires SoftOk(s) && Live(s, dest)
    ensures SoftOk(SendMessage(s, dest, payload, sender, soft).0)
  {
    if s.msgFree != [] {
      var m := Msg(s.msgFree[0], Packet(Public(sender), payload));
      var s1 := LogSent(MarkRequest(s.(msgFree := s.msgFree[1..]), dest, sender, soft), dest, m.packet);
      SoftFrame(s, s1);
      if IsWaitingFor(s1, dest, sender) {
        HandoverSoft(s1, dest, m);
      } else {
        SoftFrame(s1, Enqueue(s1, dest, m));
      }
    }
  }

  lemma SyscallSendSoft(s: Sys, r: Regs, soft: bool)
    requires SoftOk(s) && s.current.Some?
    ensures SoftOk(SyscallSend(s, r, soft))
  {
    var target := Target(s, s.current.value, r.a1);
    var s1 := if IsPcbValid(s, target) then SendMessage(s, target.slot, r.a2, PcbPtr(s.current.value), soft).0 else s;
    if IsPcbValid(s, target) {
      SendSoft(s, target.slot, r.a2, PcbPtr(s.current.value), soft);
    }
    SoftFrame(s1, SyscallSend(s, r, soft));
  }

  lemma BlockSoft(s: Sys, p: Slot, r: Regs)
    requires SoftOk(s) && s.current == Some(p) && p !in s.ready && Live(s, p)
    ensures SoftOk(BlockSys(s, p, r))
  {
    var n := BlockSys(s, p, r);
    assert Waiters(n) == if s.pcbs[p].doIo then Waiters(s) + {p} else Waiters(s);
    FewSlots(Waiters(n));
  }

  lemma ReceiveSoft(s: Sys, r: Regs)
    requires SoftOk(s) && Partition(s) && s.current.Some?
    ensures SoftOk(SyscallReceive(s, r))
  {
    var p := s.current.value;
    if PopMessage(s.pcbs[p].inbox, r.a1).0.Some? {
      SoftFrame(s, SyscallReceive(s, r));
    } else {
      BlockSoft(s, p, r);
    }
  }

  lemma SchedulerSoft(s: Sys)
    requires SoftOk(s)
    ensures SoftOk(Scheduler(s))
  {
    SoftFrame(s, Scheduler(s));
  }

  lemma PltSoft(s: Sys)
    requires SoftOk(s)
    ensures SoftOk(PltIrq(s))
  {
    SoftFrame(s, PltIrq(s));
  }

  lemma DeviceSoft(s: Sys, line: int, bank: Bank)
    requires SoftOk(s) && Live(s, SSI)
    ensures SoftOk(DeviceIrq(s, line, bank))
  {
    var n := FirstPending(bank, 0);
    if s.mode != Panicked && n < N_DEV_PER_IL {
      SendSoft(s, SSI, Num(IrqPayload(line, n, bank[n])), INTERRUPT_HANDLER_MSG, false);
    } else {
      SoftFrame(s, DeviceIrq(s, line, bank));
    }
  }

  lemma {:induction false} LinesSoft(s: Sys, irq: Irq, line: int)
    requires SoftOk(s) && Live(s, SSI) && irq.Valid() && DEV_IL_START <= line <= DEV_IL_START + N_EXT_IL
    ensures SoftOk(LineIrqs(s, irq, line))
    decreases DEV_IL_START + N_EXT_IL - line
  {
    if line < DEV_IL_START + N_EXT_IL {
      if line in irq.mip {
        DeviceSoft(s, line, irq.banks[line - DEV_IL_START]);
      }
      LinesSoft(if line in irq.mip then DeviceIrq(s, line, irq.banks[line - DEV_IL_START]) else s, irq, line + 1);
    }
  }

  lemma InterruptSoft(s: Sys, r: Regs, irq: Irq)
    requires SoftOk(s) && Live(s, SSI) && irq.Valid()
    ensures SoftOk(InterruptHandler(s, r, irq))
  {
    var s0 := s.(bios := r);
    SoftFrame(s, s0);
    var s1 := if IL_TIMER in irq.mip then SendMessageToSsi(s0, CLOCK_PAYLOAD) else s0;
    if IL_TIMER in irq.mip {
      SendSoft(s0, SSI, Num(CLOCK_PAYLOAD), INTERRUPT_HANDLER_MSG, false);
    }
    PltSoft(s1);
    LinesSoft(TimerIrqs(s0, irq), irq, DEV_IL_START);
    SchedulerSoft(LineIrqs(TimerIrqs(s0, irq), irq, DEV_IL_START));
  }

  lemma CreateSoft(s: Sys, sender: Slot, state: Regs, support: bool)
    requires SoftOk(s) && NoDup(s.free)
    ensures SoftOk(CreateProcess(s, sender, state, support))
  {
    if s.free != [] {
      assert s.free == [s.free[0]] + s.free[1..];
      SoftFrame(s, CreateProcess(s, sender, state, support));
    }
  }

  /** The SSI's own marking of a request keeps the count exactly if the requester is not already blocked without the
      mark. */
  lemma DoIoSoft(s: Sys, sender: Slot, n: nat)
    requires SoftOk(s) && n < MAXDEVICE
    ensures SoftOk(DoIo(s, sender, n)) <==> (Blocked(s, sender) ==> s.pcbs[sender].doIo)
  {
    assert Waiters(DoIo(s, sender, n)) == if Blocked(s, sender) then Waiters(s) + {sender} else Waiters(s);
  }

  /** `current` after a termination: as before, or nobody if the running process was killed. */
  predicate CurrentAfter(s: Sys, freed: seq<Slot>, current: Option<Slot>) {
    current == s.current || (current.None? && s.current.Some? && s.current.value in freed)
  }

  lemma PurgeWaiters(s: Sys, freed: seq<Slot>, current: Option<Slot>)
    requires CurrentAfter(s, freed, current)
    ensures Waiters(Purge(s, freed).(current := current)) == Waiters(s) - Elems(freed)
  {
    var r := Purge(s, freed).(current := current);
    forall q: Slot ensures q in Waiters(r) <==> q in Waiters(s) && q !in Elems(freed) {
      assert q in r.ready <==> q in s.ready && q !in Elems(freed);
      assert r.pcbs[q].doIo == s.pcbs[q].doIo;
    }
  }

  /** As many killed processes are marked and queued on a device as are marked and blocked. */
  predicate DiscountExact(s: Sys, gone: set<Slot>) {
    |Discounted(s, gone)| == |Waiters(s) * gone|
  }

  /** Termination keeps the count exactly if the discount is exact. */
  lemma PurgeSoft(s: Sys, freed: seq<Slot>, current: Option<Slot>)
    requires SoftOk(s) && CurrentAfter(s, freed, current)
    ensures SoftOk(Purge(s, freed).(current := current)) <==> DiscountExact(s, Elems(freed))
  {
    var gone, r := Elems(freed), Purge(s, freed).(current := current);
    var d, k := |Discounted(s, gone)|, |Waiters(s) * gone|;
    assert s.soft <= MAXPROC && d <= MAXPROC && k <= s.soft && |Waiters(r)| == s.soft - k by {
      PurgeWaiters(s, freed, current);
      CountRest(Waiters(s), gone);
      FewSlots(Waiters(s));
      FewSlots(Discounted(s, gone));
    }
    assert r.soft == U32(s.soft - d);
    NoWrap(s.soft, d, k);
  }

  lemma CountRest(all: set<Slot>, gone: set<Slot>)
    ensures |all - gone| == |all| - |all * gone|
  {
    SubsetCount(all * gone, all);
    assert all - gone == all - all * gone;
  }

  lemma NoWrap(a: nat, b: nat, c: nat)
    requires a <= MAXPROC && b <= MAXPROC && c <= a
    ensures U32(a - b) == a - c <==> b == c
  {
  }

  // ----- the scheduler's verdict

  /** Nobody but the SSI is left. */
  predicate OnlySsi(s: Sys) {
    forall p: Slot | Live(s, p) :: p == SSI
  }

  /** One process left means that only the SSI is left. */
  lemma LastOne(s: Sys)
    requires Partition(s)
    ensures s.count == 1 <==> OnlySsi(s)
  {
    NoDupCount(s.free);
    AllButOne(Elems(s.free), MAXPROC, SSI);
    if OnlySsi(s) {
      forall x | 0 <= x < MAXPROC && x != SSI ensures x in Elems(s.free) {
        assert !Live(s, x as Slot);
      }
    } else {
      var p: Slot :| Live(s, p) && p != SSI;
      assert p !in Elems(s.free);
    }
  }

  /** With nobody running, the scheduler halts exactly if only the SSI is alive, dispatches the head of the ready
      queue if it can, waits exactly if a blocked process has its request flag set, and otherwise panics. */
  lemma SchedulerVerdict(s: Sys)
    requires Partition(s) && SoftOk(s) && s.current.None? && s.mode != Panicked
    ensures var r := Scheduler(s);
      && (r.mode == Halted <==> OnlySsi(s))
      && (r.mode == Running <==> !OnlySsi(s) && s.ready != [])
      && (r.mode == Running ==> r.current == Some(s.ready[0]) && r.ready == s.ready[1..])
      && (r.mode == Waiting <==> !OnlySsi(s) && s.ready == [] && Waiters(s) != {})
      && (r.mode == Panicked <==> !OnlySsi(s) && s.ready == [] && Waiters(s) == {})
  {
    LastOne(s);
  }
}
