/** When the machine panics, halts or idles: exactly, for every step of every run. */
module Verdict {
  import opened Sequences
  import opened Devices
  import opened Kernel
  import opened Structure
  import opened Frames
  import opened Soft
  import opened Runs
  import opened Theorems
  import opened Waiting

  predicate NoneRaised(bank: Bank) {
    forall k | 0 <= k < N_DEV_PER_IL :: !bank[k].pending
  }

  /** The line is pending, but none of its devices is. */
  predicate Spurious(irq: Irq, line: int)
    requires irq.Valid()
  {
    DEV_IL_START <= line < DEV_IL_START + N_EXT_IL && line in irq.mip && NoneRaised(irq.banks[line - DEV_IL_START])
  }

  /** The event makes its own handler panic: the SSI is to die, or nobody raised the interrupt. */
  ghost predicate GivesUp(s: Sys, e: Event) {
    match e
    case SsiTerminate(w) => w == PcbPtr(SSI)
    case Trap(_) => s.current == Some(SSI) && !s.pcbs[SSI].support
    case Syscall(r, _) =>
      r.a0 != SENDMESSAGE && r.a0 != RECEIVEMESSAGE && s.current == Some(SSI) && !s.pcbs[SSI].support
    case Interrupt(_, irq) => irq.Valid() && exists line :: Spurious(irq, line)
    case _ => false
  }

  /** Processes other than the SSI are left, all blocked, and none has its request flag set. */
  predicate Deadlocked(s: Sys) {
    s.current.None? && s.ready == [] && !OnlySsi(s) && Waiters(s) == {}
  }

  lemma DeviceMode(s: Sys, line: int, bank: Bank)
    ensures DeviceIrq(s, line, bank).mode ==
      if NoneRaised(bank) then Panicked else s.mode
  {
    var n := FirstPending(bank, 0);
    if n < N_DEV_PER_IL {
      SendFrame(s, SSI, Num(IrqPayload(line, n, bank[n])), INTERRUPT_HANDLER_MSG, false);
    }
  }

  lemma SpuriousNext(irq: Irq, line: int)
    requires irq.Valid()
    ensures (exists k | line <= k :: Spurious(irq, k)) <==>
      Spurious(irq, line) || exists k | line + 1 <= k :: Spurious(irq, k)
  {
  }

  lemma {:induction false} LinesMode(s: Sys, irq: Irq, line: int)
    requires irq.Valid() && DEV_IL_START <= line <= DEV_IL_START + N_EXT_IL
    ensures LineIrqs(s, irq, line).mode == if exists k | line <= k :: Spurious(irq, k) then Panicked else s.mode
    decreases DEV_IL_START + N_EXT_IL - line
  {
    if line < DEV_IL_START + N_EXT_IL {
      var bank := irq.banks[line - DEV_IL_START];
      DeviceMode(s, line, bank);
      LinesMode(if line in irq.mip then DeviceIrq(s, line, bank) else s, irq, line + 1);
      SpuriousNext(irq, line);
    }
  }

  /** A handler panics by itself exactly if it gives up. */
  lemma HandledMode(s: Sys, e: Event)
    requires Inv(s) && Possible(s, e)
    ensures Handled(s, e).mode == Panicked <==> GivesUp(s, e)
  {
    match e
    case Syscall(r, soft) => SyscallSendAppends(s, r, soft);
    case Trap(r) =>
    case Interrupt(r, irq) =>
      TimersFrame(s.(bios := r), irq);
      LinesMode(TimerIrqs(s.(bios := r), irq), irq, DEV_IL_START);
    case SsiAnswerDevice(p) => AnswerDoIoFrame(s, p);
    case SsiAnswerClock => AnswerClockFrame(s);
    case SsiCreate(_, _, _) =>
    case SsiTerminate(_) =>
    case SsiDoIo(_, _) =>
    case SsiClockWait(_) =>
  }

  /** How the machine comes to rest after a step: it panics exactly if the handler gives up or everybody left is
      deadlocked, halts exactly if only the SSI is left, idles exactly if somebody blocked has its flag set. */
  lemma StepVerdict(s: Sys, e: Event)
    requires Inv(s) && SoftOk(s) && Possible(s, e) && Legal(s, e) && Counted(s, e)
    ensures var r := Step(s, e);
      && (r.mode == Panicked <==> GivesUp(s, e) || Deadlocked(r))
      && (r.mode == Halted <==> !GivesUp(s, e) && r.current.None? && OnlySsi(r))
      && (r.mode == Waiting <==> !GivesUp(s, e) && r.current.None? && r.ready == [] && !OnlySsi(r) && Waiters(r) != {})
  {
    var r := Step(s, e);
    StepInv(s, e);
    StepSoftExact(s, e);
    StepSchedules(s, e);
    HandledMode(s, e);
    LastOne(r);
    RestVerdict(Handled(s, e), r);
  }

  lemma RestVerdict(h: Sys, r: Sys)
    requires r == Scheduler(h) && SoftOk(r) && (r.count == 1 <==> OnlySsi(r))
    ensures r.mode == Panicked <==> h.mode == Panicked || Deadlocked(r)
    ensures r.mode == Halted <==> h.mode != Panicked && r.current.None? && OnlySsi(r)
    ensures r.mode == Waiting <==>
      h.mode != Panicked && r.current.None? && r.ready == [] && !OnlySsi(r) && Waiters(r) != {}
  {
    assert r.soft == 0 <==> Waiters(r) == {};
  }

  /** The same for every step from a state that a counted run from boot reaches. */
  lemma RunVerdict(s: Sys, e: Event)
    requires CountedReachable(s) && Inv(s) && Possible(s, e) && Legal(s, e) && Counted(s, e)
    ensures var r := Step(s, e);
      && (r.mode == Panicked <==> GivesUp(s, e) || Deadlocked(r))
      && (r.mode == Halted <==> !GivesUp(s, e) && r.current.None? && OnlySsi(r))
      && (r.mode == Waiting <==> !GivesUp(s, e) && r.current.None? && r.ready == [] && !OnlySsi(r) && Waiters(r) != {})
  {
    CountedInv(s);
    StepVerdict(s, e);
  }
}
