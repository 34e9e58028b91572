/** The nucleus writes to memory only what receivers asked for. */
module Memory {
  import opened Devices
  import opened Kernel
  import opened Structure
  import opened Frames
  import opened Runs
  import opened Waiting
  import opened Syscalls

  predicate SameWord(s: Sys, n: Sys, w: Word) {
    (w in n.mem <==> w in s.mem) && (w in s.mem ==> n.mem[w] == s.mem[w])
  }

  /** No process is in a RECEIVE that stores its payload at `w`. */
  ghost predicate Unwanted(s: Sys, w: Word) {
    forall p: Slot | Blocked(s, p) :: s.pcbs[p].regs.a2 != w
  }

  lemma SendWord(s: Sys, dest: Slot, payload: Word, sender: Word, soft: bool, w: Word)
    requires Live(s, dest) && Unwanted(s, w)
    ensures var n := SendMessage(s, dest, payload, sender, soft).0; SameWord(s, n, w) && Unwanted(n, w)
    ensures Live(SendMessage(s, dest, payload, sender, soft).0, SSI) <==> Live(s, SSI)
  {
    SendFrame(s, dest, payload, sender, soft);
    SendUnwanted(s, dest, payload, sender, soft, w);
    if s.msgFree != [] {
      SendWakes(s, dest, payload, sender, soft);
    }
  }

  lemma SendUnwanted(s: Sys, dest: Slot, payload: Word, sender: Word, soft: bool, w: Word)
    requires Unwanted(s, w)
    ensures Unwanted(SendMessage(s, dest, payload, sender, soft).0, w)
  {
  }

  lemma SyscallSendWord(s: Sys, r: Regs, soft: bool, w: Word)
    requires s.current.Some? && Unwanted(s, w)
    ensures SameWord(s, SyscallSend(s, r, soft), w) && Unwanted(SyscallSend(s, r, soft), w)
  {
    SyscallSendFrame(s, r, soft);
    var target := Target(s, s.current.value, r.a1);
    if IsPcbValid(s, target) {
      SendWord(s, target.slot, r.a2, PcbPtr(s.current.value), soft, w);
    }
  }

  lemma {:induction false} AnswerClockWord(s: Sys, w: Word)
    requires s.current.Some? && Unwanted(s, w)
    ensures SameWord(s, AnswerWaitForClock(s), w)
    decreases |s.clock|
  {
    if s.clock != [] {
      var s0 := s.(clock := s.clock[1..]);
      assert Unwanted(s0, w);
      SyscallSendFrame(s0, ReplyRegs(s.clock[0], Num(0)), false);
      SyscallSendWord(s0, ReplyRegs(s.clock[0], Num(0)), false, w);
      AnswerClockWord(SyscallSend(s0, ReplyRegs(s.clock[0], Num(0)), false), w);
    }
  }

  lemma {:induction false} LinesWord(s: Sys, irq: Irq, line: int, w: Word)
    requires Live(s, SSI) && irq.Valid() && DEV_IL_START <= line <= DEV_IL_START + N_EXT_IL && Unwanted(s, w)
    ensures SameWord(s, LineIrqs(s, irq, line), w)
    decreases DEV_IL_START + N_EXT_IL - line
  {
    if line < DEV_IL_START + N_EXT_IL {
      var bank := irq.banks[line - DEV_IL_START];
      var n := FirstPending(bank, 0);
      if n < N_DEV_PER_IL {
        SendWord(s, SSI, Num(IrqPayload(line, n, bank[n])), INTERRUPT_HANDLER_MSG, false, w);
      }
      var s1 := if line in irq.mip then DeviceIrq(s, line, bank) else s;
      assert Unwanted(s1, w);
      LinesWord(s1, irq, line + 1, w);
    }
  }

  lemma PendingWord(s: Sys, irq: Irq, w: Word)
    requires Live(s, SSI) && irq.Valid() && Unwanted(s, w)
    ensures SameWord(s, LineIrqs(TimerIrqs(s, irq), irq, DEV_IL_START), w)
  {
    SendWord(s, SSI, Num(CLOCK_PAYLOAD), INTERRUPT_HANDLER_MSG, false, w);
    assert Unwanted(TimerIrqs(s, irq), w) && SameWord(s, TimerIrqs(s, irq), w);
    TimersFrame(s, irq);
    LinesWord(TimerIrqs(s, irq), irq, DEV_IL_START, w);
  }

  lemma HandledWord(s: Sys, e: Event, w: Word)
    requires Inv(s) && Possible(s, e) && Unwanted(s, w)
    requires e.Syscall? && e.regs.a0 == Num(-2) ==> e.regs.a2 != w
    ensures SameWord(s, Handled(s, e), w)
  {
    match e
    case Syscall(r, soft) => SyscallWord(s, r, soft, w);
    case Interrupt(r, irq) => PendingWord(s.(bios := r), irq, w);
    case SsiAnswerDevice(payload) =>
      var n := AnswerQueue(payload);
      if s.dev[n] != [] {
        var s0 := s.(dev := s.dev[n := s.dev[n][1..]]);
        assert Unwanted(s0, w);
        SyscallSendWord(s0, ReplyRegs(s.dev[n][0], Num(Field(payload, 1))), false, w);
      }
    case SsiAnswerClock => AnswerClockWord(s, w);
    case _ =>
  }

  lemma SyscallWord(s: Sys, r: Regs, soft: bool, w: Word)
    requires Inv(s) && s.mode == Running && Unwanted(s, w) && (r.a0 == Num(-2) ==> r.a2 != w)
    ensures SameWord(s, Handled(s, Syscall(r, soft)), w)
  {
    if r.a0 == SENDMESSAGE {
      SyscallSendWord(s, r, soft, w);
    }
  }

  lemma SchedulerWord(h: Sys, n: Sys, w: Word)
    requires n == Scheduler(h)
    ensures SameWord(h, n, w)
  {
  }

  /** The nucleus writes a word of memory only as the payload of a process that receives a message in a RECEIVE which
      asks for it there. */
  lemma StepWord(s: Sys, e: Event, w: Word)
    requires Inv(s) && Possible(s, e) && Unwanted(s, w)
    requires e.Syscall? && e.regs.a0 == Num(-2) ==> e.regs.a2 != w
    ensures SameWord(s, Step(s, e), w)
  {
    HandledWord(s, e, w);
    StepSchedules(s, e);
    SchedulerWord(Handled(s, e), Step(s, e), w);
  }
}
