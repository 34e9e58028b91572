/** A process's registers survive everything that happens while it does not run. */
module Contexts {
  import opened Sequences
  import opened Devices
  import opened Kernel
  import opened Structure
  import opened Frames
  import opened Runs
  import opened Waiting
  import opened Soft
  import opened Verdict
  import opened Syscalls

  /** The registers that `p` goes on with: the processor's if it runs. */
  function RegsOf(s: Sys, p: Slot): Regs {
    if s.current == Some(p) then s.bios else s.pcbs[p].regs
  }

  predicate Undisturbed(s: Sys, n: Sys, p: Slot) {
    RegsOf(n, p) == RegsOf(s, p) && n.logs[p].rcvd == s.logs[p].rcvd && Blocked(n, p) == Blocked(s, p)
  }

  /** `p` came back from its RECEIVE: behind the system call, with the sender of the one message it received in a0. */
  predicate CameBack(s: Sys, n: Sys, p: Slot) {
    && Blocked(s, p) && !Blocked(n, p)
    && |n.logs[p].rcvd| == |s.logs[p].rcvd| + 1 && s.logs[p].rcvd <= n.logs[p].rcvd
    && var r, x := RegsOf(s, p), n.logs[p].rcvd[|s.logs[p].rcvd|].sender;
       (r.a1 == Num(0) || r.a1 == x) && RegsOf(n, p) == r.(a0 := x, pc := r.pc + 4)
  }

  /** All that can happen to a process that does not run. */
  predicate Kept(s: Sys, n: Sys, p: Slot) {
    Undisturbed(s, n, p) || CameBack(s, n, p)
  }

  lemma KeptTrans(s: Sys, m: Sys, n: Sys, p: Slot)
    requires Kept(s, m, p) && Kept(m, n, p)
    ensures Kept(s, n, p)
  {
  }

  // ----- one step

  lemma SendKept(s: Sys, dest: Slot, payload: Word, sender: Word, soft: bool, p: Slot)
    requires Live(s, dest) && s.current != Some(p)
    ensures var n := SendMessage(s, dest, payload, sender, soft).0;
      Kept(s, n, p) && n.current == s.current && n.free == s.free && n.bios == s.bios
  {
    SendFrame(s, dest, payload, sender, soft);
    if p == dest {
      ReceiverKept(s, dest, payload, sender, soft);
    } else {
      BystanderKept(s, dest, payload, sender, soft, p);
    }
  }

  lemma ReceiverKept(s: Sys, dest: Slot, payload: Word, sender: Word, soft: bool)
    requires Live(s, dest) && s.current != Some(dest)
    ensures Kept(s, SendMessage(s, dest, payload, sender, soft).0, dest)
  {
    if s.msgFree != [] {
      var n := SendMessage(s, dest, payload, sender, soft).0;
      SendWakes(s, dest, payload, sender, soft);
      assert n.current == s.current by { SendFrame(s, dest, payload, sender, soft); }
    }
  }

  lemma BystanderKept(s: Sys, dest: Slot, payload: Word, sender: Word, soft: bool, p: Slot)
    requires s.current != Some(p) && p != dest
    ensures Undisturbed(s, SendMessage(s, dest, payload, sender, soft).0, p)
  {
  }

  lemma SyscallSendKept(s: Sys, r: Regs, soft: bool, p: Slot)
    requires s.current.Some? && s.current != Some(p)
    ensures Kept(s, SyscallSend(s, r, soft), p) && SyscallSend(s, r, soft).current == s.current
  {
    var target := Target(s, s.current.value, r.a1);
    if IsPcbValid(s, target) {
      SendKept(s, target.slot, r.a2, PcbPtr(s.current.value), soft, p);
    }
  }

  lemma {:induction false} AnswerClockKept(s: Sys, p: Slot)
    requires s.current.Some? && s.current != Some(p)
    ensures Kept(s, AnswerWaitForClock(s), p) && AnswerWaitForClock(s).current == s.current
    decreases |s.clock|
  {
    if s.clock != [] {
      var s0 := s.(clock := s.clock[1..]);
      var s1 := SyscallSend(s0, ReplyRegs(s.clock[0], Num(0)), false);
      SyscallSendKept(s0, ReplyRegs(s.clock[0], Num(0)), false, p);
      AnswerClockKept(s1, p);
      KeptTrans(s, s1, AnswerWaitForClock(s1), p);
    }
  }

  lemma {:induction false} LinesKept(s: Sys, irq: Irq, line: int, p: Slot)
    requires Live(s, SSI) && irq.Valid() && DEV_IL_START <= line <= DEV_IL_START + N_EXT_IL && s.current != Some(p)
    ensures Kept(s, LineIrqs(s, irq, line), p) && LineIrqs(s, irq, line).current == s.current
    decreases DEV_IL_START + N_EXT_IL - line
  {
    if line < DEV_IL_START + N_EXT_IL {
      var bank := irq.banks[line - DEV_IL_START];
      var n := FirstPending(bank, 0);
      if n < N_DEV_PER_IL {
        SendKept(s, SSI, Num(IrqPayload(line, n, bank[n])), INTERRUPT_HANDLER_MSG, false, p);
      }
      var s1 := if line in irq.mip then DeviceIrq(s, line, bank) else s;
      LinesKept(s1, irq, line + 1, p);
      KeptTrans(s, s1, LineIrqs(s1, irq, line + 1), p);
    }
  }

  lemma TimersKept(s: Sys, irq: Irq, p: Slot)
    requires Live(s, SSI) && s.current != Some(p)
    ensures Kept(s, TimerIrqs(s, irq), p) && TimerIrqs(s, irq).current != Some(p) && Live(TimerIrqs(s, irq), SSI)
  {
    SendKept(s, SSI, Num(CLOCK_PAYLOAD), INTERRUPT_HANDLER_MSG, false, p);
    var s1 := if IL_TIMER in irq.mip then SendMessageToSsi(s, CLOCK_PAYLOAD) else s;
    assert Kept(s, s1, p) && s1.current == s.current && s1.free == s.free;
    PltKept(s1, p);
    KeptTrans(s, s1, PltIrq(s1), p);
  }

  lemma PltKept(s: Sys, p: Slot)
    requires s.current != Some(p)
    ensures Kept(s, PltIrq(s), p) && PltIrq(s).current == None && PltIrq(s).free == s.free
  {
  }

  lemma PendingKept(s: Sys, irq: Irq, p: Slot)
    requires Live(s, SSI) && irq.Valid() && s.current != Some(p)
    ensures var n := LineIrqs(TimerIrqs(s, irq), irq, DEV_IL_START); Kept(s, n, p) && n.current != Some(p)
  {
    var s1 := TimerIrqs(s, irq);
    TimersKept(s, irq, p);
    LinesKept(s1, irq, DEV_IL_START, p);
    KeptTrans(s, s1, LineIrqs(s1, irq, DEV_IL_START), p);
  }

  /** Dispatch gives the chosen process the registers that were saved for it. */
  lemma SchedulerKept(h: Sys, p: Slot)
    requires h.current != Some(p)
    ensures Undisturbed(h, Scheduler(h), p)
  {
    if h.ready != [] {
      assert p in h.ready <==> p == h.ready[0] || p in h.ready[1..];
    }
  }

  lemma TrapKept(s: Sys, r: Regs, p: Slot)
    requires Inv(s) && s.mode == Running && s.current != Some(p) && Live(s, p) && p !in KilledByTrap(s)
    ensures Kept(s, HandledTrap(s, r), p) && HandledTrap(s, r).current != Some(p)
  {
    var gone := KilledByTrap(s);
    assert p in Minus(s.ready, Elems(gone)) <==> p in s.ready;
  }

  lemma SyscallKept(s: Sys, r: Regs, soft: bool, p: Slot)
    requires Inv(s) && s.mode == Running && s.current != Some(p) && Live(s, p) && p !in Killed(s, Syscall(r, soft))
    ensures var n := Handled(s, Syscall(r, soft)); Kept(s, n, p) && n.current != Some(p)
  {
    if r.a0 == SENDMESSAGE {
      SyscallSendKept(s, r, soft, p);
    } else if r.a0 == RECEIVEMESSAGE {
      ReceiveKept(s, r, p);
    } else {
      TrapKept(s, r, p);
    }
  }

  lemma ReceiveKept(s: Sys, r: Regs, p: Slot)
    requires s.current.Some? && s.current != Some(p)
    ensures Kept(s, SyscallReceive(s, r), p) && SyscallReceive(s, r).current != Some(p)
  {
  }

  lemma HandledKept(s: Sys, e: Event, p: Slot)
    requires Inv(s) && Possible(s, e) && s.current != Some(p) && Live(s, p) && p !in Killed(s, e)
    ensures Kept(s, Handled(s, e), p) && Handled(s, e).current != Some(p)
  {
    match e
    case Syscall(r, soft) => SyscallKept(s, r, soft, p);
    case Trap(r) => TrapKept(s, r, p);
    case Interrupt(r, irq) => PendingKept(s.(bios := r), irq, p);
    case SsiAnswerDevice(payload) =>
      var n := AnswerQueue(payload);
      if s.dev[n] != [] {
        var s0 := s.(dev := s.dev[n := s.dev[n][1..]]);
        SyscallSendKept(s0, ReplyRegs(s.dev[n][0], Num(Field(payload, 1))), false, p);
      }
    case SsiAnswerClock => AnswerClockKept(s, p);
    case SsiCreate(_, _, _) =>
    case SsiTerminate(w) => assert p in Minus(s.ready, Elems(Killed(s, e))) <==> p in s.ready;
    case SsiDoIo(_, _) =>
    case SsiClockWait(_) =>
  }

  lemma StepKept(s: Sys, e: Event, p: Slot)
    requires Inv(s) && Possible(s, e) && s.current != Some(p) && Live(s, p) && p !in Killed(s, e)
    ensures Kept(s, Step(s, e), p)
  {
    HandledKept(s, e, p);
    StepSchedules(s, e);
    SchedulerKept(Handled(s, e), p);
    KeptTrans(s, Handled(s, e), Step(s, e), p);
  }

  // ----- leaving the processor

  lemma {:induction false} InterruptSaves(s: Sys, r: Regs, irq: Irq)
    requires Inv(s) && s.mode == Running && irq.Valid()
    ensures var p, n := s.current.value, InterruptHandler(s, r, irq);
      && RegsOf(n, p) == r && !Blocked(n, p) && n.logs[p].rcvd == s.logs[p].rcvd
      && (IL_CPUTIMER !in irq.mip ==> n.current == Some(p))
  {
    var p, s0 := s.current.value, s.(bios := r);
    var s1 := if IL_TIMER in irq.mip then SendMessageToSsi(s0, CLOCK_PAYLOAD) else s0;
    RunningSends(s0, SSI, Num(CLOCK_PAYLOAD), p);
    var s2 := TimerIrqs(s0, irq);
    assert RegsOf(s2, p) == r && !Blocked(s2, p) && s2.logs[p].rcvd == s.logs[p].rcvd;
    LinesRunning(s2, irq, DEV_IL_START, p);
    var h := LineIrqs(s2, irq, DEV_IL_START);
    if h.current != Some(p) {
      SchedulerKept(h, p);
    }
  }

  /** A message for the SSI leaves a process alone that runs or is ready. */
  lemma RunningSends(s: Sys, dest: Slot, payload: Word, p: Slot)
    requires Live(s, dest) && !Blocked(s, p)
    ensures var n := SendMessage(s, dest, payload, INTERRUPT_HANDLER_MSG, false).0;
      Undisturbed(s, n, p) && n.current == s.current && n.free == s.free
  {
    SendFrame(s, dest, payload, INTERRUPT_HANDLER_MSG, false);
    if s.msgFree != [] {
      SendWakes(s, dest, payload, INTERRUPT_HANDLER_MSG, false);
    }
  }

  lemma {:induction false} LinesRunning(s: Sys, irq: Irq, line: int, p: Slot)
    requires Live(s, SSI) && irq.Valid() && DEV_IL_START <= line <= DEV_IL_START + N_EXT_IL && !Blocked(s, p)
    ensures Undisturbed(s, LineIrqs(s, irq, line), p) && LineIrqs(s, irq, line).current == s.current
    decreases DEV_IL_START + N_EXT_IL - line
  {
    if line < DEV_IL_START + N_EXT_IL {
      var bank := irq.banks[line - DEV_IL_START];
      var n := FirstPending(bank, 0);
      if n < N_DEV_PER_IL {
        RunningSends(s, SSI, Num(IrqPayload(line, n, bank[n])), p);
      }
      var s1 := if line in irq.mip then DeviceIrq(s, line, bank) else s;
      LinesRunning(s1, irq, line + 1, p);
    }
  }

  /** The running process is taken off the processor only by the CPU timer, with its registers, or by a RECEIVE that
      finds nothing, with those of the system call, unless it dies. */
  lemma StepLeaves(s: Sys, e: Event)
    requires Inv(s) && Possible(s, e) && s.mode == Running && s.current.value !in Killed(s, e)
    ensures var p, n := s.current.value, Step(s, e);
      && (e.Interrupt? || e.Trap? ==> RegsOf(n, p) == e.regs && !Blocked(n, p))
      && (n.current != Some(p) ==>
            && (e.Interrupt? || (e.Syscall? && e.regs.a0 == Num(-2) && Blocked(n, p)))
            && RegsOf(n, p) == e.regs && n.logs[p].rcvd == s.logs[p].rcvd
            && (e.Interrupt? ==> IL_CPUTIMER in e.irq.mip))
  {
    match e
    case Syscall(r, soft) =>
      if r.a0 == RECEIVEMESSAGE { ReceiveStep(s, r, soft); }
      else if r.a0 == SENDMESSAGE { SendStep(s, r, soft); }
      else { TrapStays(s, r); }
    case Trap(r) => TrapStays(s, r);
    case Interrupt(r, irq) => InterruptSaves(s, r, irq);
    case SsiAnswerDevice(payload) => AnswerDoIoFrame(s, payload);
    case SsiAnswerClock => AnswerClockFrame(s);
    case SsiCreate(_, _, _) =>
    case SsiTerminate(_) =>
    case SsiDoIo(_, _) =>
    case SsiClockWait(_) =>
  }

  lemma TrapStays(s: Sys, r: Regs)
    requires Inv(s) && s.mode == Running && s.current.value !in KilledByTrap(s)
    ensures PassUpOrDie(s, r).current == s.current && PassUpOrDie(s, r).bios == r
  {
    var p := s.current.value;
    assert FamilyOk(s.pcbs, s.free, s.nextPid, p);
  }

  lemma PendingPreempts(s: Sys, r: Regs, irq: Irq)
    requires Inv(s) && s.mode == Running && irq.Valid() && 7 in irq.mip
    ensures var p, h := s.current.value, Handled(s, Interrupt(r, irq));
      && h.current == None && h.free == s.free && h.count == s.count && s.ready <= h.ready && p in h.ready
  {
    var p, s0 := s.current.value, s.(bios := r);
    var s1 := if IL_TIMER in irq.mip then SendMessageToSsi(s0, CLOCK_PAYLOAD) else s0;
    RunningSends(s0, SSI, Num(CLOCK_PAYLOAD), p);
    SendFrame(s0, SSI, Num(CLOCK_PAYLOAD), INTERRUPT_HANDLER_MSG, false);
    assert s1.current == Some(p);
    var s2 := TimerIrqs(s0, irq);
    assert s2.current == None && s2.ready == s1.ready + [p];
    LinesRunning(s2, irq, DEV_IL_START, p);
    LinesFrame(s2, irq, DEV_IL_START);
    LinesCount(s2, irq, DEV_IL_START);
  }

  lemma {:induction false} LinesCount(s: Sys, irq: Irq, line: int)
    requires irq.Valid() && DEV_IL_START <= line <= DEV_IL_START + N_EXT_IL
    ensures LineIrqs(s, irq, line).count == s.count
    decreases DEV_IL_START + N_EXT_IL - line
  {
    if line < DEV_IL_START + N_EXT_IL {
      var bank := irq.banks[line - DEV_IL_START];
      var n := FirstPending(bank, 0);
      if n < N_DEV_PER_IL {
        SendFrame(s, SSI, Num(IrqPayload(line, n, bank[n])), INTERRUPT_HANDLER_MSG, false);
      }
      LinesCount(if line in irq.mip then DeviceIrq(s, line, bank) else s, irq, line + 1);
    }
  }

  /** The CPU timer: whoever was first in the ready queue runs, with the registers saved for it, and the process that
      ran waits in the queue with its own, unless the interrupt panics. */
  lemma TimerPreempts(s: Sys, r: Regs, irq: Irq)
    requires Inv(s) && s.mode == Running && irq.Valid() && 7 in irq.mip && s.ready != []
    requires !(exists line :: Spurious(irq, line))
    ensures var p, q, n := s.current.value, s.ready[0], Step(s, Interrupt(r, irq));
      && n.mode == Running && n.current == Some(q) && n.bios == s.pcbs[q].regs
      && p in n.ready && n.pcbs[p].regs == r
  {
    var p, q, e := s.current.value, s.ready[0], Interrupt(r, irq);
    var h, n := Handled(s, e), Step(s, e);
    PendingPreempts(s, r, irq);
    HandledMode(s, e);
    assert p != q && Live(s, p) && Live(s, q);
    LastOne(s);
    assert h.ready[0] == q && n == Dispatch(h) by { StepSchedules(s, e); }
    assert p in h.ready[1..];
    StepLeaves(s, e);
    StepKept(s, e, q);
  }

  // ----- over runs

  /** Until the last of the events `p` does not run, and none of them kills it. */
  ghost predicate Away(s: Sys, es: seq<Event>, p: Slot)
    requires Inv(s) && LegalRun(s, es)
    decreases |es|
  {
    es != [] ==>
      && s.current != Some(p) && p !in Killed(s, es[0])
      && (StepInv(s, es[0]); Away(Step(s, es[0]), es[1..], p))
  }

  /** So between the first event and the last. */
  ghost predicate AwayAfter(s: Sys, es: seq<Event>, p: Slot)
    requires Inv(s) && LegalRun(s, es) && es != []
  {
    StepInv(s, es[0]);
    Away(Step(s, es[0]), es[1..], p)
  }

  lemma StaysLive(s: Sys, e: Event, p: Slot)
    requires Inv(s) && Possible(s, e) && Live(s, p) && p !in Killed(s, e)
    ensures Live(Step(s, e), p)
  {
    HandledLive(s, e, p);
    StepSchedules(s, e);
    SchedulerLive(Handled(s, e), Step(s, e), p);
  }

  lemma SchedulerLive(h: Sys, n: Sys, p: Slot)
    requires n == Scheduler(h) && Live(h, p)
    ensures Live(n, p)
  {
  }

  lemma HandledLive(s: Sys, e: Event, p: Slot)
    requires Inv(s) && Possible(s, e) && Live(s, p) && p !in Killed(s, e)
    ensures Live(Handled(s, e), p)
  {
    match e
    case Syscall(r, soft) => SyscallLive(s, r, soft, p);
    case Interrupt(r, irq) => PendingFrame(s.(bios := r), irq);
    case SsiAnswerDevice(payload) => AnswerDoIoFrame(s, payload);
    case SsiAnswerClock => AnswerClockFrame(s);
    case _ =>
  }

  lemma SyscallLive(s: Sys, r: Regs, soft: bool, p: Slot)
    requires Inv(s) && s.mode == Running && Live(s, p) && p !in Killed(s, Syscall(r, soft))
    ensures Live(Handled(s, Syscall(r, soft)), p)
  {
    if r.a0 == SENDMESSAGE {
      SyscallSendAppends(s, r, soft);
    }
  }

  /** While a process does not run, its registers stay what they are, except that it comes back from its RECEIVE. */
  lemma {:induction false} WhileAway(s: Sys, es: seq<Event>, p: Slot)
    requires Inv(s) && LegalRun(s, es) && Live(s, p) && Away(s, es, p)
    ensures Kept(s, Exec(s, es), p)
    decreases |es|
  {
    if es != [] {
      var n := Step(s, es[0]);
      StepInv(s, es[0]);
      StepKept(s, es[0], p);
      StaysLive(s, es[0], p);
      WhileAway(n, es[1..], p);
      KeptTrans(s, n, Exec(n, es[1..]), p);
    }
  }

  /** A process that was taken off the processor and runs again has the registers that it had when the timer
      interrupted it, or those of its RECEIVE with the sender in a0 and the system call behind it, where that sender is
      one that the RECEIVE accepts and its message the only one received meanwhile. It can leave in no other way. */
  lemma ResumesWhereItLeft(s: Sys, es: seq<Event>, p: Slot)
    requires Inv(s) && LegalRun(s, es) && es != [] && s.current == Some(p) && s.mode == Running
    requires p !in Killed(s, es[0]) && AwayAfter(s, es, p)
    requires Exec(s, es).current == Some(p)
    ensures es[0].Interrupt? ==> Exec(s, es).bios == es[0].regs
    ensures |es| > 1 ==>
      (es[0].Interrupt? && IL_CPUTIMER in es[0].irq.mip) || (es[0].Syscall? && es[0].regs.a0 == Num(-2))
    ensures |es| > 1 && es[0].Syscall? ==>
      exists m: Packet ::
        && Exec(s, es).logs[p].rcvd == s.logs[p].rcvd + [m]
        && (es[0].regs.a1 == Num(0) || es[0].regs.a1 == m.sender)
        && Exec(s, es).bios == es[0].regs.(a0 := m.sender, pc := es[0].regs.pc + 4)
  {
    var e, n, x := es[0], Step(s, es[0]), Exec(s, es);
    StepInv(s, e);
    StepLeaves(s, e);
    StaysLive(s, e, p);
    WhileAway(n, es[1..], p);
    if |es| > 1 && e.Syscall? {
      assert CameBack(n, x, p);
      var k := |s.logs[p].rcvd|;
      assert x.logs[p].rcvd == s.logs[p].rcvd + [x.logs[p].rcvd[k]];
    }
  }

  /** A new process starts with the registers given at its creation. */
  lemma StartsAsCreated(s: Sys, es: seq<Event>, p: Slot)
    requires Inv(s) && LegalRun(s, es) && es != [] && es[0].SsiCreate? && s.free != [] && s.free[0] == p
    requires AwayAfter(s, es, p) && Exec(s, es).current == Some(p)
    ensures Exec(s, es).bios == es[0].state
  {
    var n := Step(s, es[0]);
    StepInv(s, es[0]);
    assert s.free == [p] + s.free[1..];
    assert Live(n, p) && !Blocked(n, p) && RegsOf(n, p) == es[0].state;
    WhileAway(n, es[1..], p);
  }
}
