/** What a process has from its creation on as long as it lives. */
module Origins {
  import opened Sequences
  import opened Devices
  import opened Kernel
  import opened Structure
  import opened Runs
  import opened Waiting
  import opened Contexts

  predicate SameOrigin(s: Sys, n: Sys, p: Slot) {
    n.pcbs[p].parent == s.pcbs[p].parent && n.pcbs[p].support == s.pcbs[p].support && n.pcbs[p].pid == s.pcbs[p].pid
  }

  lemma SendOrigin(s: Sys, dest: Slot, payload: Word, sender: Word, soft: bool, p: Slot)
    ensures SameOrigin(s, SendMessage(s, dest, payload, sender, soft).0, p)
  {
    SendFrame(s, dest, payload, sender, soft);
  }

  lemma SyscallSendOrigin(s: Sys, r: Regs, soft: bool, p: Slot)
    requires s.current.Some?
    ensures SameOrigin(s, SyscallSend(s, r, soft), p)
  {
    SyscallSendFrame(s, r, soft);
  }

  lemma {:induction false} AnswerClockOrigin(s: Sys, p: Slot)
    requires s.current.Some?
    ensures SameOrigin(s, AnswerWaitForClock(s), p)
    decreases |s.clock|
  {
    if s.clock != [] {
      var s0 := s.(clock := s.clock[1..]);
      SyscallSendFrame(s0, ReplyRegs(s.clock[0], Num(0)), false);
      AnswerClockOrigin(SyscallSend(s0, ReplyRegs(s.clock[0], Num(0)), false), p);
    }
  }

  lemma {:induction false} LinesOrigin(s: Sys, irq: Irq, line: int, p: Slot)
    requires irq.Valid() && DEV_IL_START <= line <= DEV_IL_START + N_EXT_IL
    ensures SameOrigin(s, LineIrqs(s, irq, line), p)
    decreases DEV_IL_START + N_EXT_IL - line
  {
    if line < DEV_IL_START + N_EXT_IL {
      var bank := irq.banks[line - DEV_IL_START];
      var n := FirstPending(bank, 0);
      if n < N_DEV_PER_IL {
        SendOrigin(s, SSI, Num(IrqPayload(line, n, bank[n])), INTERRUPT_HANDLER_MSG, false, p);
      }
      LinesOrigin(if line in irq.mip then DeviceIrq(s, line, bank) else s, irq, line + 1, p);
    }
  }

  lemma PendingOrigin(s: Sys, irq: Irq, p: Slot)
    requires irq.Valid()
    ensures SameOrigin(s, LineIrqs(TimerIrqs(s, irq), irq, DEV_IL_START), p)
  {
    SendOrigin(s, SSI, Num(CLOCK_PAYLOAD), INTERRUPT_HANDLER_MSG, false, p);
    assert SameOrigin(s, TimerIrqs(s, irq), p);
    LinesOrigin(TimerIrqs(s, irq), irq, DEV_IL_START, p);
  }

  lemma SchedulerOrigin(h: Sys, n: Sys, p: Slot)
    requires n == Scheduler(h)
    ensures SameOrigin(h, n, p)
  {
  }

  lemma SyscallOrigin(s: Sys, r: Regs, soft: bool, p: Slot)
    requires Inv(s) && s.mode == Running
    ensures SameOrigin(s, Handled(s, Syscall(r, soft)), p)
  {
    if r.a0 == SENDMESSAGE {
      SyscallSendOrigin(s, r, soft, p);
    } else if r.a0 == RECEIVEMESSAGE {
      ReceiveOrigin(s, r, p);
    }
  }

  lemma ReceiveOrigin(s: Sys, r: Regs, p: Slot)
    requires s.current.Some?
    ensures SameOrigin(s, SyscallReceive(s, r), p)
  {
  }

  lemma HandledOrigin(s: Sys, e: Event, p: Slot)
    requires Inv(s) && Possible(s, e) && Live(s, p)
    ensures SameOrigin(s, Handled(s, e), p)
  {
    match e
    case Syscall(r, soft) => SyscallOrigin(s, r, soft, p);
    case Interrupt(r, irq) => PendingOrigin(s.(bios := r), irq, p);
    case SsiAnswerDevice(payload) =>
      var n := AnswerQueue(payload);
      if s.dev[n] != [] {
        var s0 := s.(dev := s.dev[n := s.dev[n][1..]]);
        SyscallSendOrigin(s0, ReplyRegs(s.dev[n][0], Num(Field(payload, 1))), false, p);
      }
    case SsiAnswerClock => AnswerClockOrigin(s, p);
    case _ =>
  }

  /** A process keeps its parent, its support structure and its pid as long as it lives. */
  lemma {:induction false} OriginKept(s: Sys, es: seq<Event>, p: Slot)
    requires Inv(s) && LegalRun(s, es) && Live(s, p) && !IsKilled(s, es, p)
    ensures Live(Exec(s, es), p) && SameOrigin(s, Exec(s, es), p)
    decreases |es|
  {
    if es != [] {
      StepInv(s, es[0]);
      HandledOrigin(s, es[0], p);
      StepSchedules(s, es[0]);
      SchedulerOrigin(Handled(s, es[0]), Step(s, es[0]), p);
      StaysLive(s, es[0], p);
      OriginKept(Step(s, es[0]), es[1..], p);
    }
  }

  /** They are those of its creation: the requester, who has it as its last child then, and what was asked for. */
  lemma BornOf(s: Sys, es: seq<Event>, p: Slot)
    requires Inv(s) && LegalRun(s, es) && es != [] && es[0].SsiCreate? && s.free != [] && s.free[0] == p
    requires !IsKilled(s, es, p)
    ensures var e, n, x := es[0], Step(s, es[0]), Exec(s, es);
      && Live(x, p) && x.pcbs[p].parent == Some(e.sender)
      && x.pcbs[p].support == e.support && x.pcbs[p].pid == s.nextPid
      && n.pcbs[e.sender].kids == s.pcbs[e.sender].kids + [p] && n.ready == s.ready + [p]
  {
    StepInv(s, es[0]);
    assert s.free == [p] + s.free[1..] && p != es[0].sender;
    OriginKept(Step(s, es[0]), es[1..], p);
  }
}
