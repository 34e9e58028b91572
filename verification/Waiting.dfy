/** Dispatch is first come, first served: a ready process is overtaken by nobody. */
module Waiting {
  import opened Sequences
  import opened Devices
  import opened Kernel
  import opened Frames
  import opened Runs

  /** The state that the event's handler passes to the scheduler. */
  ghost function Handled(s: Sys, e: Event): Sys
    requires Inv(s) && Possible(s, e)
  {
    match e
    case Syscall(r, soft) =>
      if r.a0 == SENDMESSAGE then SyscallSend(s, r, soft)
      else if r.a0 == RECEIVEMESSAGE then SyscallReceive(s, r)
      else HandledTrap(s, r)
    case Trap(r) => HandledTrap(s, r)
    case Interrupt(r, irq) => LineIrqs(TimerIrqs(s.(bios := r), irq), irq, DEV_IL_START)
    case _ => Step(s, e)
  }

  ghost function HandledTrap(s: Sys, r: Regs): Sys
    requires Inv(s) && s.mode == Running
  {
    if s.pcbs[s.current.value].support || s.current == Some(SSI) then PassUpOrDie(s, r)
    else Purge(s.(bios := r), KilledByTrap(s)).(current := None)
  }

  /** The event ends in a dispatch from the ready queue. */
  ghost predicate Dispatches(s: Sys, e: Event)
    requires Inv(s) && Possible(s, e)
  {
    Handled(s, e).current.None? && Step(s, e).mode == Running
  }

  lemma TrapSchedules(s: Sys, r: Regs)
    requires Inv(s) && s.mode == Running
    ensures PassUpOrDie(s, r) == Scheduler(HandledTrap(s, r))
  {
    if !s.pcbs[s.current.value].support && s.current != Some(SSI) {
      TrapDies(s, r);
    }
  }

  /** Every event ends in the scheduler, or leaves the running process running. */
  lemma StepSchedules(s: Sys, e: Event)
    requires Inv(s) && Possible(s, e)
    ensures Step(s, e) == Scheduler(Handled(s, e))
  {
    match e
    case Syscall(r, soft) => TrapSchedules(s, r);
    case Trap(r) => TrapSchedules(s, r);
    case Interrupt(_, _) =>
    case SsiAnswerDevice(p) => AnswerDoIoFrame(s, p);
    case SsiAnswerClock => AnswerClockFrame(s);
    case SsiCreate(_, _, _) =>
    case SsiTerminate(_) =>
    case SsiDoIo(_, _) =>
    case SsiClockWait(_) =>
  }

  /** Handlers append to the ready queue, or take killed processes out of it. */
  lemma HandledReady(s: Sys, e: Event)
    requires Inv(s) && Possible(s, e)
    ensures s.ready <= Handled(s, e).ready || Handled(s, e).ready == Minus(s.ready, Elems(Killed(s, e)))
  {
    match e
    case Syscall(r, soft) => SyscallSendAppends(s, r, soft);
    case Trap(r) =>
    case Interrupt(r, irq) => PendingFrame(s.(bios := r), irq);
    case SsiAnswerDevice(p) => AnswerDoIoFrame(s, p);
    case SsiAnswerClock => AnswerClockFrame(s);
    case SsiCreate(_, _, _) =>
    case SsiTerminate(_) =>
    case SsiDoIo(_, _) =>
    case SsiClockWait(_) =>
  }

  /** In one step a surviving ready process keeps its place or moves up, by one whenever the step dispatches
      from the queue; if it was first then, it runs. */
  lemma StepMovesUp(s: Sys, e: Event, p: Slot)
    requires Inv(s) && Possible(s, e) && p in s.ready && p !in Killed(s, e)
    ensures var r := Step(s, e);
      if Dispatches(s, e) then
        r.current == Some(p) || (p in r.ready && Position(r.ready, p) + 1 <= Position(s.ready, p))
      else p in r.ready && Position(r.ready, p) <= Position(s.ready, p)
  {
    HandledMovesUp(s, e, p);
    StepSchedules(s, e);
    SchedulerMovesUp(Handled(s, e), p);
  }

  lemma HandledMovesUp(s: Sys, e: Event, p: Slot)
    requires Inv(s) && Possible(s, e) && p in s.ready && p !in Killed(s, e)
    ensures p in Handled(s, e).ready && Position(Handled(s, e).ready, p) <= Position(s.ready, p)
  {
    HandledReady(s, e);
    ReadyMovesUp(s.ready, Handled(s, e).ready, Elems(Killed(s, e)), p);
  }

  lemma ReadyMovesUp(a: seq<Slot>, b: seq<Slot>, gone: set<Slot>, p: Slot)
    requires p in a && p !in gone && (a <= b || b == Minus(a, gone))
    ensures p in b && Position(b, p) <= Position(a, p)
  {
    if a <= b {
      assert b == a + b[|a|..];
      PositionConcat(a, b[|a|..], p);
    } else {
      PositionMinus(a, gone, p);
    }
  }

  lemma SchedulerMovesUp(h: Sys, p: Slot)
    requires p in h.ready
    ensures var r := Scheduler(h);
      if h.current.None? && r.mode == Running then
        r.current == Some(p) || (p in r.ready && Position(r.ready, p) + 1 == Position(h.ready, p))
      else r.ready == h.ready
  {
    if h.ready[0] != p {
      assert h.ready[1..][Position(h.ready, p) - 1] == p;
    }
  }

  // ----- over runs

  /** `p` runs after some event of the run. */
  ghost predicate GetsToRun(s: Sys, es: seq<Event>, p: Slot)
    requires Inv(s) && LegalRun(s, es)
    decreases |es|
  {
    es != [] && (StepInv(s, es[0]); Step(s, es[0]).current == Some(p) || GetsToRun(Step(s, es[0]), es[1..], p))
  }

  ghost predicate IsKilled(s: Sys, es: seq<Event>, p: Slot)
    requires Inv(s) && LegalRun(s, es)
    decreases |es|
  {
    es != [] && (StepInv(s, es[0]); p in Killed(s, es[0]) || IsKilled(Step(s, es[0]), es[1..], p))
  }

  /** How many times the run dispatches from the ready queue. */
  ghost function DispatchCount(s: Sys, es: seq<Event>): nat
    requires Inv(s) && LegalRun(s, es)
    decreases |es|
  {
    if es == [] then 0
    else StepInv(s, es[0]);
         (if Dispatches(s, es[0]) then 1 else 0) + DispatchCount(Step(s, es[0]), es[1..])
  }

  /** While `p` waits, every dispatch brings it one place closer. */
  lemma {:induction false} WaitShrinks(s: Sys, es: seq<Event>, p: Slot)
    requires Inv(s) && LegalRun(s, es) && p in s.ready
    requires !GetsToRun(s, es, p) && !IsKilled(s, es, p)
    ensures p in Exec(s, es).ready && Position(Exec(s, es).ready, p) + DispatchCount(s, es) <= Position(s.ready, p)
    decreases |es|
  {
    if es != [] {
      StepInv(s, es[0]);
      StepMovesUp(s, es[0], p);
      WaitShrinks(Step(s, es[0]), es[1..], p);
    }
  }

  /** Bounded waiting: a ready process at position k that nobody kills runs within k+1 dispatches. */
  lemma BoundedWaiting(s: Sys, es: seq<Event>, p: Slot)
    requires Inv(s) && LegalRun(s, es) && p in s.ready
    ensures DispatchCount(s, es) >= Position(s.ready, p) + 1 ==> GetsToRun(s, es, p) || IsKilled(s, es, p)
  {
    if !GetsToRun(s, es, p) && !IsKilled(s, es, p) {
      WaitShrinks(s, es, p);
    }
  }
}
