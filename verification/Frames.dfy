/** What handlers and answers leave alone: they wake processes, and change no allocation and no other queue. */
module Frames {
  import opened Devices
  import opened Kernel
  import opened Structure

  /** Who is blocked in `r` was so in `s`, with the same saved registers. */
  ghost predicate NobodyBlocks(s: Sys, r: Sys) {
    forall p: Slot | Blocked(r, p) :: Blocked(s, p) && r.pcbs[p].regs == s.pcbs[p].regs
  }

  /** `r` is allocated like `s`, its ready queue only got longer, and nobody was blocked. */
  ghost predicate Appends(s: Sys, r: Sys) {
    r.free == s.free && r.nextPid == s.nextPid && s.ready <= r.ready && NobodyBlocks(s, r)
  }

  lemma SyscallSendAppends(s: Sys, r: Regs, soft: bool)
    requires s.current.Some?
    ensures var n := SyscallSend(s, r, soft);
      Appends(s, n) && n.dev == s.dev && n.clock == s.clock && n.current == s.current && n.mode == s.mode
  {
    SyscallSendFrame(s, r, soft);
    var target := Target(s, s.current.value, r.a1);
    if IsPcbValid(s, target) {
      SendFrame(s, target.slot, r.a2, PcbPtr(s.current.value), soft);
    }
  }

  lemma AnswerDoIoFrame(s: Sys, p: int)
    requires s.current.Some? && 0 <= AnswerQueue(p) < MAXDEVICE
    ensures var n, r := AnswerQueue(p), AnswerDoIo(s, p);
      && Appends(s, r) && r.current == s.current && r.mode == s.mode
      && r.dev == if s.dev[n] == [] then s.dev else s.dev[n := s.dev[n][1..]]
  {
    var n := AnswerQueue(p);
    if s.dev[n] != [] {
      SyscallSendAppends(s.(dev := s.dev[n := s.dev[n][1..]]), ReplyRegs(s.dev[n][0], Num(Field(p, 1))), false);
    }
  }

  lemma {:induction false} AnswerClockFrame(s: Sys)
    requires s.current.Some?
    ensures var r := AnswerWaitForClock(s);
      Appends(s, r) && r.dev == s.dev && r.current == s.current && r.mode == s.mode
    decreases |s.clock|
  {
    if s.clock != [] {
      var s0 := s.(clock := s.clock[1..]);
      SyscallSendAppends(s0, ReplyRegs(s.clock[0], Num(0)), false);
      AnswerClockFrame(SyscallSend(s0, ReplyRegs(s.clock[0], Num(0)), false));
    }
  }

  lemma TimersFrame(s: Sys, irq: Irq)
    ensures var r := TimerIrqs(s, irq); Appends(s, r) && r.dev == s.dev && r.mode == s.mode
  {
    SendFrame(s, SSI, Num(CLOCK_PAYLOAD), INTERRUPT_HANDLER_MSG, false);
  }

  lemma {:induction false} LinesFrame(s: Sys, irq: Irq, line: int)
    requires irq.Valid() && DEV_IL_START <= line <= DEV_IL_START + N_EXT_IL
    ensures var r := LineIrqs(s, irq, line); Appends(s, r) && r.dev == s.dev
    decreases DEV_IL_START + N_EXT_IL - line
  {
    if line < DEV_IL_START + N_EXT_IL {
      var bank := irq.banks[line - DEV_IL_START];
      var n := FirstPending(bank, 0);
      if n < N_DEV_PER_IL {
        SendFrame(s, SSI, Num(IrqPayload(line, n, bank[n])), INTERRUPT_HANDLER_MSG, false);
      }
      LinesFrame(if line in irq.mip then DeviceIrq(s, line, bank) else s, irq, line + 1);
    }
  }

  /** All that an interrupt does before the scheduler is called. */
  lemma PendingFrame(s: Sys, irq: Irq)
    requires irq.Valid()
    ensures var r := LineIrqs(TimerIrqs(s, irq), irq, DEV_IL_START); Appends(s, r) && r.dev == s.dev
  {
    TimersFrame(s, irq);
    LinesFrame(TimerIrqs(s, irq), irq, DEV_IL_START);
  }

  lemma SchedulerFrame(s: Sys)
    ensures Scheduler(s).nextPid == s.nextPid && Scheduler(s).dev == s.dev
    ensures Scheduler(s).mode == Running ==> Scheduler(s).current.Some?
  {
  }

  lemma InterruptFrame(s: Sys, r: Regs, irq: Irq)
    requires irq.Valid()
    ensures InterruptHandler(s, r, irq).nextPid == s.nextPid && InterruptHandler(s, r, irq).dev == s.dev
  {
    PendingFrame(s.(bios := r), irq);
    SchedulerFrame(LineIrqs(TimerIrqs(s.(bios := r), irq), irq, DEV_IL_START));
  }
}
