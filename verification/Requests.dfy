/** Whoever waits in a device or clock queue is marked as waiting: when this holds, and what follows from it. */
module Requests {
  import opened Sequences
  import opened Devices
  import opened Kernel
  import opened Structure
  import opened Mail
  import opened Soft
  import opened Runs
  import opened Theorems
  import opened Verdict

  /** Every live process in a queue has its flag set. */
  ghost predicate MarkedOk(s: Sys) {
    forall p: Slot | Live(s, p) && InQueue(s, p) :: s.pcbs[p].doIo
  }

  /** The lowest pending external line from `line` on has a pending device. */
  predicate Announces(irq: Irq, line: int)
    requires irq.Valid() && DEV_IL_START <= line <= DEV_IL_START + N_EXT_IL
    decreases DEV_IL_START + N_EXT_IL - line
  {
    line < DEV_IL_START + N_EXT_IL &&
    if line in irq.mip then !NoneRaised(irq.banks[line - DEV_IL_START]) else Announces(irq, line + 1)
  }

  /** A send by `sender` would be handed to `dest`. */
  predicate Wakes(s: Sys, dest: Slot, sender: Word) {
    s.msgFree != [] && IsWaitingFor(s, dest, sender)
  }

  /** The event gives no message to a process in a queue, other than the answer that takes it out, and a process that
      is put into the clock queue has been marked by its request. */
  ghost predicate Attentive(s: Sys, e: Event)
    requires Inv(s) && Possible(s, e)
  {
    match e
    case Syscall(r, _) =>
      var p := s.current.value;
      if r.a0 == SENDMESSAGE then
        var target := Target(s, p, r.a1);
        IsPcbValid(s, target) && Wakes(s, target.slot, PcbPtr(p)) ==> !InQueue(s, target.slot)
      else if r.a0 == RECEIVEMESSAGE then InQueue(s, p) ==> NoneAccepted(s.pcbs[p].inbox, r.a1)
      else true
    case Interrupt(_, irq) =>
      Wakes(s, SSI, INTERRUPT_HANDLER_MSG) && (IL_TIMER in irq.mip || Announces(irq, DEV_IL_START)) ==> !InQueue(s, SSI)
    case SsiClockWait(sender) => Live(s, sender) ==> s.pcbs[sender].doIo
    case _ => true
  }

  /** Allocation, queues and flags are the same. */
  ghost predicate SameMarks(s: Sys, r: Sys) {
    SameQueues(s, r) && r.free == s.free && forall p: Slot | Live(s, p) :: r.pcbs[p].doIo == s.pcbs[p].doIo
  }

  lemma MarksFrame(s: Sys, r: Sys)
    requires SameMarks(s, r)
    ensures MarkedOk(r) <==> MarkedOk(s)
  {
    assert forall p: Slot :: InQueue(r, p) == InQueue(s, p);
  }

  /** A send by a process. */
  lemma SendMarked(s: Sys, dest: Slot, payload: Word, sender: Word, soft: bool)
    requires MarkedOk(s) && Live(s, dest)
    ensures MarkedOk(SendMessage(s, dest, payload, sender, soft).0) <==> (Wakes(s, dest, sender) ==> !InQueue(s, dest))
  {
    var r := SendMessage(s, dest, payload, sender, soft).0;
    SendFrame(s, dest, payload, sender, soft);
    assert forall p: Slot :: InQueue(r, p) == InQueue(s, p);
    if s.msgFree != [] {
      SendFlags(s, dest, payload, sender, soft);
    }
  }

  lemma SendFlags(s: Sys, dest: Slot, payload: Word, sender: Word, soft: bool)
    requires s.msgFree != []
    ensures var r := SendMessage(s, dest, payload, sender, soft).0;
      && (Wakes(s, dest, sender) ==> !r.pcbs[dest].doIo)
      && (forall p: Slot | !(p == dest && Wakes(s, dest, sender)) :: s.pcbs[p].doIo ==> r.pcbs[p].doIo)
      && (sender == INTERRUPT_HANDLER_MSG ==>
            forall p: Slot | !(p == dest && Wakes(s, dest, sender)) :: r.pcbs[p].doIo == s.pcbs[p].doIo)
  {
  }

  lemma SyscallSendMarked(s: Sys, r: Regs, soft: bool)
    requires MarkedOk(s) && s.current.Some?
    ensures var target := Target(s, s.current.value, r.a1);
      MarkedOk(SyscallSend(s, r, soft)) <==>
      (IsPcbValid(s, target) && Wakes(s, target.slot, PcbPtr(s.current.value)) ==> !InQueue(s, target.slot))
  {
    var target := Target(s, s.current.value, r.a1);
    var sender := PcbPtr(s.current.value);
    if IsPcbValid(s, target) {
      SendMarked(s, target.slot, r.a2, sender, soft);
      MarksFrame(SendMessage(s, target.slot, r.a2, sender, soft).0, SyscallSend(s, r, soft));
    } else {
      MarksFrame(s, SyscallSend(s, r, soft));
    }
  }

  lemma ReceiveMarked(s: Sys, r: Regs)
    requires MarkedOk(s) && s.current.Some? && Live(s, s.current.value)
    ensures MarkedOk(SyscallReceive(s, r)) <==>
      (InQueue(s, s.current.value) ==> NoneAccepted(s.pcbs[s.current.value].inbox, r.a1))
  {
    var p, n := s.current.value, SyscallReceive(s, r);
    PopIsFirst(s.pcbs[p].inbox, r.a1);
    assert forall q: Slot :: InQueue(n, q) == InQueue(s, q);
    assert forall q: Slot | q != p :: n.pcbs[q].doIo == s.pcbs[q].doIo;
    if NoneAccepted(s.pcbs[p].inbox, r.a1) {
      MarksFrame(s, n);
    } else {
      assert !n.pcbs[p].doIo;
    }
  }

  // ----- interrupts

  /** A message of the interrupt handler. */
  lemma HandlerMarked(s: Sys, payload: int)
    requires Live(s, SSI)
    ensures var r := SendMessageToSsi(s, payload);
      && (MarkedOk(r) <==> MarkedOk(s) && (Wakes(s, SSI, INTERRUPT_HANDLER_MSG) ==> !InQueue(s, SSI)))
      && !Wakes(r, SSI, INTERRUPT_HANDLER_MSG) && SameQueues(s, r) && r.free == s.free && r.mode == s.mode
  {
    var r := SendMessageToSsi(s, payload);
    SendFrame(s, SSI, Num(payload), INTERRUPT_HANDLER_MSG, false);
    assert forall p: Slot :: InQueue(r, p) == InQueue(s, p);
    if s.msgFree != [] {
      SendFlags(s, SSI, Num(payload), INTERRUPT_HANDLER_MSG, false);
    }
  }

  lemma {:induction false} LinesMarked(s: Sys, irq: Irq, line: int)
    requires Live(s, SSI) && irq.Valid() && DEV_IL_START <= line <= DEV_IL_START + N_EXT_IL && s.mode != Panicked
    ensures MarkedOk(LineIrqs(s, irq, line)) <==>
      MarkedOk(s) && (Wakes(s, SSI, INTERRUPT_HANDLER_MSG) && Announces(irq, line) ==> !InQueue(s, SSI))
    decreases DEV_IL_START + N_EXT_IL - line
  {
    if line < DEV_IL_START + N_EXT_IL {
      if line in irq.mip {
        var bank := irq.banks[line - DEV_IL_START];
        var n := FirstPending(bank, 0);
        if n < N_DEV_PER_IL {
          HandlerMarked(s, IrqPayload(line, n, bank[n]));
          LinesMarked(DeviceIrq(s, line, bank), irq, line + 1);
        } else {
          PanickedLines(DeviceIrq(s, line, bank), irq, line + 1);
          MarksFrame(s, DeviceIrq(s, line, bank));
        }
      } else {
        LinesMarked(s, irq, line + 1);
      }
    }
  }

  lemma {:induction false} PanickedLines(s: Sys, irq: Irq, line: int)
    requires irq.Valid() && DEV_IL_START <= line <= DEV_IL_START + N_EXT_IL && s.mode == Panicked
    ensures LineIrqs(s, irq, line) == s
    decreases DEV_IL_START + N_EXT_IL - line
  {
    if line < DEV_IL_START + N_EXT_IL {
      PanickedLines(s, irq, line + 1);
    }
  }

  lemma InterruptMarked(s: Sys, r: Regs, irq: Irq)
    requires MarkedOk(s) && Live(s, SSI) && irq.Valid() && s.mode != Panicked
    ensures MarkedOk(InterruptHandler(s, r, irq)) <==>
      (Wakes(s, SSI, INTERRUPT_HANDLER_MSG) && (IL_TIMER in irq.mip || Announces(irq, DEV_IL_START)) ==>
        !InQueue(s, SSI))
  {
    var s0 := s.(bios := r);
    MarksFrame(s, s0);
    assert Wakes(s0, SSI, INTERRUPT_HANDLER_MSG) == Wakes(s, SSI, INTERRUPT_HANDLER_MSG)
      && InQueue(s0, SSI) == InQueue(s, SSI);
    PendingMarked(s0, irq);
    SchedulerMarked(LineIrqs(TimerIrqs(s0, irq), irq, DEV_IL_START));
  }

  lemma PendingMarked(s: Sys, irq: Irq)
    requires MarkedOk(s) && Live(s, SSI) && irq.Valid() && s.mode != Panicked
    ensures MarkedOk(LineIrqs(TimerIrqs(s, irq), irq, DEV_IL_START)) <==>
      (Wakes(s, SSI, INTERRUPT_HANDLER_MSG) && (IL_TIMER in irq.mip || Announces(irq, DEV_IL_START)) ==>
        !InQueue(s, SSI))
  {
    TimersMarked(s, irq);
    LinesMarked(TimerIrqs(s, irq), irq, DEV_IL_START);
  }

  lemma SchedulerMarked(s: Sys)
    ensures MarkedOk(Scheduler(s)) <==> MarkedOk(s)
  {
    MarksFrame(s, Scheduler(s));
  }

  lemma TimersMarked(s: Sys, irq: Irq)
    requires Live(s, SSI)
    ensures var r := TimerIrqs(s, irq);
      && (MarkedOk(r) <==>
            MarkedOk(s) && (IL_TIMER in irq.mip && Wakes(s, SSI, INTERRUPT_HANDLER_MSG) ==> !InQueue(s, SSI)))
      && (Wakes(r, SSI, INTERRUPT_HANDLER_MSG) <==> IL_TIMER !in irq.mip && Wakes(s, SSI, INTERRUPT_HANDLER_MSG))
      && InQueue(r, SSI) == InQueue(s, SSI) && Live(r, SSI) && r.mode == s.mode
  {
    if IL_TIMER in irq.mip {
      HandlerMarked(s, CLOCK_PAYLOAD);
      PltMarks(SendMessageToSsi(s, CLOCK_PAYLOAD));
    } else {
      PltMarks(s);
    }
  }

  /** A preempted SSI was not waiting for a message. */
  lemma PltMarks(s: Sys)
    ensures var r := PltIrq(s);
      && (MarkedOk(r) <==> MarkedOk(s)) && SameQueues(s, r) && r.free == s.free && r.mode == s.mode
      && Wakes(r, SSI, INTERRUPT_HANDLER_MSG) == Wakes(s, SSI, INTERRUPT_HANDLER_MSG)
  {
    MarksFrame(s, PltIrq(s));
  }

  // ----- services of the SSI

  /** An answer takes its receiver out of the queue first. */
  lemma AnswerMarked(s: Sys, s0: Sys, p: Slot, payload: Word)
    requires MarkedOk(s) && s.current.Some? && !InQueue(s0, p)
    requires s0 == s.(dev := s0.dev, clock := s0.clock) && forall q: Slot | InQueue(s0, q) :: InQueue(s, q)
    ensures MarkedOk(SyscallSend(s0, ReplyRegs(p, payload), false))
  {
    SyscallSendMarked(s0, ReplyRegs(p, payload), false);
  }

  lemma AnswerDoIoMarked(s: Sys, payload: int)
    requires MarkedOk(s) && IoOk(s) && s.current.Some? && 0 <= AnswerQueue(payload) < MAXDEVICE
    ensures MarkedOk(AnswerDoIo(s, payload))
  {
    var n := AnswerQueue(payload);
    if s.dev[n] != [] {
      var p, s0 := s.dev[n][0], s.(dev := s.dev[n := s.dev[n][1..]]);
      assert p in s.dev[n] && forall k | 0 <= k < MAXDEVICE && k != n :: p !in s.dev[k];
      assert forall k, q | 0 <= k < MAXDEVICE && q in s0.dev[k] :: q in s.dev[k];
      AnswerMarked(s, s0, p, Num(Field(payload, 1)));
    }
  }

  lemma {:induction false} AnswerClockMarked(s: Sys)
    requires MarkedOk(s) && StructureOk(s) && s.current.Some?
    ensures MarkedOk(AnswerWaitForClock(s))
    decreases |s.clock|
  {
    if s.clock != [] {
      var p, s0 := s.clock[0], s.(clock := s.clock[1..]);
      assert p in s.clock && forall k | 0 <= k < MAXDEVICE :: p !in s.dev[k];
      AnswerMarked(s, s0, p, Num(0));
      DropClockStructure(s);
      SyscallSendStructure(s0, ReplyRegs(p, Num(0)), false);
      AnswerClockMarked(SyscallSend(s0, ReplyRegs(p, Num(0)), false));
    }
  }

  lemma PurgeMarked(s: Sys, freed: seq<Slot>, r: Sys)
    requires MarkedOk(s)
    requires var n := Purge(s, freed); SameQueues(n, r) && r.free == n.free && r.pcbs == n.pcbs
    ensures MarkedOk(r)
  {
    forall p: Slot | Live(r, p) && InQueue(r, p) ensures r.pcbs[p].doIo {
      assert InQueue(s, p);
    }
  }

  lemma TrapMarked(s: Sys, r: Regs)
    requires StructureOk(s) && MarkedOk(s) && s.current.Some? && s.mode == Running
    ensures MarkedOk(PassUpOrDie(s, r))
  {
    if s.pcbs[s.current.value].support || s.current == Some(SSI) {
      MarksFrame(s, PassUpOrDie(s, r));
    } else {
      TrapDies(s, r);
      MarksFrame(s, s.(bios := r));
      PurgeMarked(s.(bios := r), KilledByTrap(s), PassUpOrDie(s, r));
    }
  }

  /** A step keeps the queued processes marked if and only if it is attentive. */
  lemma StepMarked(s: Sys, e: Event)
    requires Inv(s) && MarkedOk(s) && Possible(s, e) && Legal(s, e)
    ensures MarkedOk(Step(s, e)) <==> Attentive(s, e)
  {
    match e
    case Syscall(r, soft) => SyscallMarked(s, r, soft);
    case Trap(r) => TrapMarked(s, r);
    case Interrupt(r, irq) => InterruptMarked(s, r, irq);
    case SsiCreate(sender, state, support) => CreateMarked(s, sender, state, support);
    case SsiTerminate(w) =>
      if w != PcbPtr(SSI) && IsPcbValid(s, w) {
        PurgeMarked(s, Killed(s, e), Step(s, e));
      } else {
        MarksFrame(s, Step(s, e));
      }
    case SsiDoIo(sender, addr) => DoIoMarked(s, sender, CommAddToNumber(addr));
    case SsiClockWait(sender) => ClockWaitMarked(s, sender);
    case SsiAnswerDevice(p) => AnswerDoIoMarked(s, p);
    case SsiAnswerClock => AnswerClockMarked(s);
  }

  lemma SyscallMarked(s: Sys, r: Regs, soft: bool)
    requires Inv(s) && MarkedOk(s) && s.mode == Running
    ensures MarkedOk(Step(s, Syscall(r, soft))) <==> Attentive(s, Syscall(r, soft))
  {
    if r.a0 == SENDMESSAGE {
      SyscallSendMarked(s, r, soft);
      SchedulerMarked(SyscallSend(s, r, soft));
    } else if r.a0 == RECEIVEMESSAGE {
      ReceiveMarked(s, r);
      SchedulerMarked(SyscallReceive(s, r));
    } else {
      TrapMarked(s, r);
    }
  }

  lemma CreateMarked(s: Sys, sender: Slot, state: Regs, support: bool)
    requires MarkedOk(s) && (s.free == [] || !InQueue(s, s.free[0]))
    ensures MarkedOk(CreateProcess(s, sender, state, support))
  {
    if s.free != [] {
      var r := CreateProcess(s, sender, state, support);
      assert s.free == [s.free[0]] + s.free[1..];
      forall p: Slot | Live(r, p) && InQueue(r, p) ensures r.pcbs[p].doIo {
        assert InQueue(s, p);
      }
    }
  }

  lemma DoIoMarked(s: Sys, sender: Slot, n: nat)
    requires MarkedOk(s) && n < MAXDEVICE
    ensures MarkedOk(DoIo(s, sender, n))
  {
    var r := DoIo(s, sender, n);
    forall p: Slot | p != sender && InQueue(r, p) ensures InQueue(s, p) {
      if InDevice(r, p) {
        var k :| 0 <= k < MAXDEVICE && p in r.dev[k];
        assert p in s.dev[k];
      }
    }
  }

  lemma ClockWaitMarked(s: Sys, sender: Slot)
    requires MarkedOk(s)
    ensures MarkedOk(WaitForClock(s, sender)) <==> (Live(s, sender) ==> s.pcbs[sender].doIo)
  {
    var r := WaitForClock(s, sender);
    assert InQueue(r, sender);
    assert forall p: Slot | p != sender :: InQueue(r, p) == InQueue(s, p);
  }

  // ----- over runs

  ghost predicate AttentiveRun(s: Sys, es: seq<Event>)
    requires Inv(s) && LegalRun(s, es)
    decreases |es|
  {
    es != [] ==> Attentive(s, es[0]) && (StepInv(s, es[0]); AttentiveRun(Step(s, es[0]), es[1..]))
  }

  lemma {:induction false} RunMarked(s: Sys, es: seq<Event>)
    requires Inv(s) && MarkedOk(s) && LegalRun(s, es) && AttentiveRun(s, es)
    ensures MarkedOk(Exec(s, es))
    decreases |es|
  {
    if es != [] {
      StepInv(s, es[0]);
      StepMarked(s, es[0]);
      RunMarked(Step(s, es[0]), es[1..]);
    }
  }

  /** Some run from boot whose steps all keep the count and the marks leads to `s`. */
  ghost predicate AttentiveReachable(s: Sys) {
    exists t: Table, es: seq<Event> ::
      LegalRun(Boot(t), es) && CountedRun(Boot(t), es) && AttentiveRun(Boot(t), es) && Exec(Boot(t), es) == s
  }

  lemma AttentiveInv(s: Sys)
    requires AttentiveReachable(s)
    ensures Inv(s) && SoftOk(s) && MarkedOk(s)
  {
    var t: Table, es: seq<Event> :|
      LegalRun(Boot(t), es) && CountedRun(Boot(t), es) && AttentiveRun(Boot(t), es) && Exec(Boot(t), es) == s;
    RunSoft(Boot(t), es);
    BootMarked(t);
    RunMarked(Boot(t), es);
  }

  lemma BootMarked(t: Table)
    ensures MarkedOk(Booted(t))
  {
    assert forall p: Slot :: !InQueue(Booted(t), p);
  }

  /** After attentive runs the machine does not panic for want of work while a blocked process is queued on a device
      or the clock: with nobody to run, it waits for the interrupt. */
  lemma NoWaiterLost(s: Sys, e: Event)
    requires AttentiveReachable(s) && Inv(s) && Possible(s, e) && Legal(s, e) && Counted(s, e) && Attentive(s, e)
    ensures var r := Step(s, e);
      && (r.mode == Panicked && !GivesUp(s, e) ==> forall p: Slot | Blocked(r, p) :: !InQueue(r, p))
      && (!GivesUp(s, e) && r.current.None? && !OnlySsi(r) && (exists p: Slot :: Blocked(r, p) && InQueue(r, p)) ==>
            r.mode == Waiting)
  {
    AttentiveInv(s);
    MarkedVerdict(s, e);
  }

  lemma MarkedVerdict(s: Sys, e: Event)
    requires Inv(s) && SoftOk(s) && MarkedOk(s) && Possible(s, e) && Legal(s, e) && Counted(s, e) && Attentive(s, e)
    ensures var r := Step(s, e);
      && (r.mode == Panicked && !GivesUp(s, e) ==> forall p: Slot | Blocked(r, p) :: !InQueue(r, p))
      && (!GivesUp(s, e) && r.current.None? && !OnlySsi(r) && (exists p: Slot :: Blocked(r, p) && InQueue(r, p)) ==>
            r.mode == Waiting)
  {
    StepVerdict(s, e);
    StepMarked(s, e);
    QueuedAreWaiters(Step(s, e));
    StepInv(s, e);
  }

  lemma QueuedAreWaiters(s: Sys)
    requires MarkedOk(s)
    ensures forall p: Slot | Blocked(s, p) && InQueue(s, p) :: p in Waiters(s)
  {
  }
}
