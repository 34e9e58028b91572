/** The queue of a device over a run: exactly its outstanding requesters, in the order of their requests. */
module Turns {
  import opened Sequences
  import opened Devices
  import opened Kernel
  import opened Structure
  import opened Frames
  import opened Runs
  import opened Theorems
  import opened Answers
  import opened Waiting

  /** The event is a request of `p` to the device of queue `n`. */
  predicate Asks(e: Event, n: nat, p: Slot) {
    e.SsiDoIo? && e.sender == p && CommAddToNumber(e.commandAddr) == n
  }

  /** Which of the first `m` events is p's last request for `n`; -1 if none. */
  function LastAsk(es: seq<Event>, m: nat, n: nat, p: Slot): (k: int)
    requires m <= |es|
    ensures -1 <= k < m && (k >= 0 ==> Asks(es[k], n, p))
    ensures forall j | k < j < m :: !Asks(es[j], n, p)
  {
    if m == 0 then -1 else if Asks(es[m - 1], n, p) then m - 1 else LastAsk(es, m - 1, n, p)
  }

  /** The event answers `p` for `n`, or kills it. */
  ghost predicate Leaves(s: Sys, e: Event, n: nat, p: Slot)
    requires StructureOk(s) && n < MAXDEVICE
  {
    || p in Killed(s, e)
    || (e.SsiAnswerDevice? && AnswerQueue(e.payload) == n && s.dev[n] != [] && s.dev[n][0] == p)
  }

  /** After `m` events, `p` has asked for `n` and has been neither answered nor killed since. */
  ghost predicate Outstanding(s: Sys, es: seq<Event>, m: nat, n: nat, p: Slot)
    requires Inv(s) && LegalRun(s, es) && m <= |es| && n < MAXDEVICE
    decreases m
  {
    m > 0 &&
    (RunAt(s, es, m - 1);
     || Asks(es[m - 1], n, p)
     || (Outstanding(s, es, m - 1, n, p) && !Leaves(Exec(s, es[..m - 1]), es[m - 1], n, p)))
  }

  /** What a step does to queue `n`. */
  ghost function QueueAfter(s: Sys, e: Event, n: nat): seq<Slot>
    requires StructureOk(s) && n < MAXDEVICE
  {
    if e.SsiDoIo? && CommAddToNumber(e.commandAddr) == n then Without(s.dev[n], e.sender) + [e.sender]
    else if e.SsiAnswerDevice? && AnswerQueue(e.payload) == n && s.dev[n] != [] then s.dev[n][1..]
    else Minus(s.dev[n], Elems(Killed(s, e)))
  }

  lemma TrapDev(s: Sys, r: Regs, n: nat)
    requires StructureOk(s) && s.current.Some? && s.mode == Running && n < MAXDEVICE
    ensures PassUpOrDie(s, r).dev[n] == Minus(s.dev[n], Elems(KilledByTrap(s)))
  {
    if s.pcbs[s.current.value].support || s.current == Some(SSI) {
      MinusNothing(s.dev[n], Elems<Slot>([]));
    } else {
      TrapDies(s, r);
    }
  }

  lemma SyscallDev(s: Sys, r: Regs, soft: bool, n: nat)
    requires Inv(s) && s.mode == Running && n < MAXDEVICE
    ensures Step(s, Syscall(r, soft)).dev[n] == Minus(s.dev[n], Elems(Killed(s, Syscall(r, soft))))
  {
    MinusNothing(s.dev[n], Elems<Slot>([]));
    if r.a0 == SENDMESSAGE {
      SyscallSendAppends(s, r, soft);
      SchedulerFrame(SyscallSend(s, r, soft));
    } else if r.a0 == RECEIVEMESSAGE {
      SchedulerFrame(SyscallReceive(s, r));
    } else {
      TrapDev(s, r, n);
    }
  }

  lemma QueueStep(s: Sys, e: Event, n: nat)
    requires Inv(s) && Possible(s, e) && n < MAXDEVICE
    ensures Step(s, e).dev[n] == QueueAfter(s, e, n)
  {
    assert Minus(s.dev[n], Elems<Slot>([])) == s.dev[n] by { MinusNothing(s.dev[n], Elems<Slot>([])); }
    match e
    case Syscall(r, soft) => SyscallDev(s, r, soft, n);
    case Trap(r) => TrapDev(s, r, n);
    case Interrupt(r, irq) => InterruptFrame(s, r, irq);
    case SsiAnswerDevice(p) => AnswerDoIoFrame(s, p);
    case SsiAnswerClock => AnswerClockFrame(s);
    case SsiCreate(_, _, _) =>
    case SsiTerminate(_) =>
    case SsiDoIo(_, _) =>
    case SsiClockWait(_) =>
  }

  /** The members of `q` have all asked for `n`, one after the other. */
  ghost predicate InTurn(q: seq<Slot>, es: seq<Event>, m: nat, n: nat)
    requires m <= |es|
  {
    && (forall i | 0 <= i < |q| :: LastAsk(es, m, n, q[i]) >= 0)
    && forall i, j | 0 <= i < j < |q| :: LastAsk(es, m, n, q[i]) < LastAsk(es, m, n, q[j])
  }

  lemma MinusInTurn(q: seq<Slot>, gone: set<Slot>, es: seq<Event>, m: nat, n: nat)
    requires m <= |es| && InTurn(q, es, m, n)
    ensures InTurn(Minus(q, gone), es, m, n)
  {
    var u := Minus(q, gone);
    forall i | 0 <= i < |u| ensures LastAsk(es, m, n, u[i]) >= 0 {
      assert u[i] in q;
    }
    forall i, j | 0 <= i < j < |u| ensures LastAsk(es, m, n, u[i]) < LastAsk(es, m, n, u[j]) {
      var k, l := MinusOrder(q, gone, i, j);
    }
  }

  /** The queue stays in the order of the requests. */
  lemma QueueInTurn(s: Sys, es: seq<Event>, m: nat, n: nat)
    requires Inv(s) && m < |es| && Possible(s, es[m]) && n < MAXDEVICE && InTurn(s.dev[n], es, m, n)
    ensures InTurn(Step(s, es[m]).dev[n], es, m + 1, n)
  {
    var e := es[m];
    QueueStep(s, e, n);
    if e.SsiDoIo? && CommAddToNumber(e.commandAddr) == n {
      MinusInTurn(s.dev[n], {e.sender}, es, m, n);
      AskerInTurn(Without(s.dev[n], e.sender), es, m, n, e.sender);
    } else {
      MinusInTurn(s.dev[n], Elems(Killed(s, e)), es, m, n);
      StillInTurn(QueueAfter(s, e, n), es, m, n);
    }
  }

  /** The last to ask is behind all others. */
  lemma AskerInTurn(q: seq<Slot>, es: seq<Event>, m: nat, n: nat, p: Slot)
    requires m < |es| && Asks(es[m], n, p) && p !in q && InTurn(q, es, m, n)
    ensures InTurn(q + [p], es, m + 1, n)
  {
    forall i | 0 <= i < |q| ensures LastAsk(es, m + 1, n, q[i]) == LastAsk(es, m, n, q[i]) {
      assert q[i] in q;
    }
  }

  lemma StillInTurn(q: seq<Slot>, es: seq<Event>, m: nat, n: nat)
    requires m < |es| && InTurn(q, es, m, n) && !(es[m].SsiDoIo? && CommAddToNumber(es[m].commandAddr) == n)
    ensures InTurn(q, es, m + 1, n)
  {
    assert forall p: Slot :: LastAsk(es, m + 1, n, p) == LastAsk(es, m, n, p);
  }

  /** After `m` events the queue of `n` is in the order of the requests and holds exactly the outstanding ones. */
  ghost predicate QueueOk(s: Sys, es: seq<Event>, m: nat, n: nat)
    requires Inv(s) && LegalRun(s, es) && m <= |es| && n < MAXDEVICE
  {
    RunPrefix(s, es, m);
    && InTurn(Exec(s, es[..m]).dev[n], es, m, n)
    && forall p: Slot :: p in Exec(s, es[..m]).dev[n] <==> Outstanding(s, es, m, n, p)
  }

  lemma QueueNext(s: Sys, es: seq<Event>, m: nat, n: nat)
    requires Inv(s) && LegalRun(s, es) && m < |es| && n < MAXDEVICE && QueueOk(s, es, m, n)
    ensures QueueOk(s, es, m + 1, n)
  {
    RunAt(s, es, m);
    var r := Exec(s, es[..m]);
    QueueInTurn(r, es, m, n);
    QueueStep(r, es[m], n);
    forall p: Slot ensures p in Step(r, es[m]).dev[n] <==> Outstanding(s, es, m + 1, n, p) {
      StaysQueued(r, es[m], n, p);
    }
  }

  lemma {:induction false} QueueOverRun(s: Sys, es: seq<Event>, m: nat, n: nat)
    requires Inv(s) && LegalRun(s, es) && m <= |es| && n < MAXDEVICE && s.dev[n] == []
    ensures QueueOk(s, es, m, n)
    decreases m
  {
    if m == 0 {
      assert es[..0] == [];
    } else {
      QueueOverRun(s, es, m - 1, n);
      QueueNext(s, es, m - 1, n);
    }
  }

  lemma StaysQueued(s: Sys, e: Event, n: nat, p: Slot)
    requires StructureOk(s) && n < MAXDEVICE
    ensures p in QueueAfter(s, e, n) <==> Asks(e, n, p) || (p in s.dev[n] && !Leaves(s, e, n, p))
  {
    assert NoDup(s.dev[n]);
    if s.dev[n] != [] {
      assert s.dev[n] == [s.dev[n][0]] + s.dev[n][1..];
    }
  }

  /** After any run from boot: when a (sub)device with outstanding requesters completes, the one that asked first is
      taken off the queue and, if a message is free and it is still alive, sent the status; nobody else is. */
  lemma OldestServed(t: Table, es: seq<Event>, d: SubDevice, reg: DevReg)
    requires LegalRun(Boot(t), es) && Exec(Boot(t), es).current == Some(SSI)
    requires d.Valid()
    requires d.line == 21 ==> (d.transm <==> reg.transmStatus % 256 != 1 && reg.transmStatus % 256 != 3)
    ensures 0 <= CommAddToNumber(d.CommandAddr()) < MAXDEVICE
    ensures 0 <= AnswerQueue(IrqPayload(d.line, d.number, reg)) < MAXDEVICE
    ensures var n, s := CommAddToNumber(d.CommandAddr()), Exec(Boot(t), es);
      var r := AnswerDoIo(s, IrqPayload(d.line, d.number, reg));
      var status := if d.line != 21 then reg.status else if d.transm then reg.transmStatus else reg.recvStatus;
      && (forall p: Slot :: p in s.dev[n] <==> Outstanding(Boot(t), es, |es|, n, p))
      && (s.dev[n] == [] ==> r == s)
      && (s.dev[n] != [] ==>
            var p := s.dev[n][0];
            && 0 <= LastAsk(es, |es|, n, p)
            && (forall q | q in s.dev[n] && q != p :: LastAsk(es, |es|, n, p) < LastAsk(es, |es|, n, q))
            && r.dev == s.dev[n := s.dev[n][1..]] && OneAnswer(s, r, p, Num(status % 256)))
  {
    var n, s := CommAddToNumber(d.CommandAddr()), Exec(Boot(t), es);
    DeviceAnswer(s, d, reg);
    QueueAtEnd(t, es, n);
    if s.dev[n] != [] {
      HeadAskedFirst(s.dev[n], es, n);
    }
  }

  lemma QueueAtEnd(t: Table, es: seq<Event>, n: nat)
    requires LegalRun(Boot(t), es) && n < MAXDEVICE
    ensures InTurn(Exec(Boot(t), es).dev[n], es, |es|, n)
    ensures forall p: Slot :: p in Exec(Boot(t), es).dev[n] <==> Outstanding(Boot(t), es, |es|, n, p)
  {
    assert es[..|es|] == es;
    assert Booted(t).dev[n] == [];
    QueueOverRun(Boot(t), es, |es|, n);
  }

  lemma HeadAskedFirst(q: seq<Slot>, es: seq<Event>, n: nat)
    requires InTurn(q, es, |es|, n) && q != []
    ensures 0 <= LastAsk(es, |es|, n, q[0])
    ensures forall p | p in q && p != q[0] :: LastAsk(es, |es|, n, q[0]) < LastAsk(es, |es|, n, p)
  {
    forall p | p in q && p != q[0] ensures LastAsk(es, |es|, n, q[0]) < LastAsk(es, |es|, n, p) {
      var j :| 0 <= j < |q| && q[j] == p;
    }
  }

  // ----- the clock queue

  /** Who has asked for the next tick, in order. */
  function ClockAskers(es: seq<Event>): seq<Slot> {
    if es == [] then []
    else
      var e, before := es[|es| - 1], ClockAskers(es[..|es| - 1]);
      match e
      case SsiClockWait(sender) => before + [sender]
      case SsiAnswerClock => []
      case _ => before
  }

  /** Only a CLOCKWAIT and the tick change the clock queue. */
  ghost function ClockAfter(s: Sys, e: Event): seq<Slot> {
    match e
    case SsiClockWait(sender) => s.clock + [sender]
    case SsiAnswerClock => []
    case _ => s.clock
  }

  lemma {:induction false} TickEmpties(s: Sys)
    requires s.current.Some?
    ensures AnswerWaitForClock(s).clock == []
    decreases |s.clock|
  {
    if s.clock != [] {
      var s0 := s.(clock := s.clock[1..]);
      SyscallSendFrame(s0, ReplyRegs(s.clock[0], Num(0)), false);
      TickEmpties(SyscallSend(s0, ReplyRegs(s.clock[0], Num(0)), false));
    }
  }

  lemma SyscallClock(s: Sys, r: Regs, soft: bool)
    requires Inv(s) && s.mode == Running
    ensures Handled(s, Syscall(r, soft)).clock == s.clock
  {
    if r.a0 == SENDMESSAGE {
      SyscallSendFrame(s, r, soft);
    }
  }

  lemma {:induction false} LinesClock(s: Sys, irq: Irq, line: int)
    requires irq.Valid() && DEV_IL_START <= line <= DEV_IL_START + N_EXT_IL
    ensures LineIrqs(s, irq, line).clock == s.clock
    decreases DEV_IL_START + N_EXT_IL - line
  {
    if line < DEV_IL_START + N_EXT_IL {
      var bank := irq.banks[line - DEV_IL_START];
      var n := FirstPending(bank, 0);
      if n < N_DEV_PER_IL {
        SendFrame(s, SSI, Num(IrqPayload(line, n, bank[n])), INTERRUPT_HANDLER_MSG, false);
      }
      LinesClock(if line in irq.mip then DeviceIrq(s, line, bank) else s, irq, line + 1);
    }
  }

  lemma PendingClock(s: Sys, irq: Irq)
    requires irq.Valid()
    ensures LineIrqs(TimerIrqs(s, irq), irq, DEV_IL_START).clock == s.clock
  {
    SendFrame(s, SSI, Num(CLOCK_PAYLOAD), INTERRUPT_HANDLER_MSG, false);
    assert TimerIrqs(s, irq).clock == s.clock;
    LinesClock(TimerIrqs(s, irq), irq, DEV_IL_START);
  }

  lemma HandledClock(s: Sys, e: Event)
    requires Inv(s) && Possible(s, e)
    ensures Handled(s, e).clock == ClockAfter(s, e)
  {
    match e
    case Syscall(r, soft) => SyscallClock(s, r, soft);
    case Interrupt(r, irq) => PendingClock(s.(bios := r), irq);
    case SsiAnswerDevice(p) =>
      var n := AnswerQueue(p);
      if s.dev[n] != [] {
        var s0 := s.(dev := s.dev[n := s.dev[n][1..]]);
        SyscallSendFrame(s0, ReplyRegs(s.dev[n][0], Num(Field(p, 1))), false);
      }
    case SsiAnswerClock => TickEmpties(s);
    case _ =>
  }

  lemma SchedulerClock(h: Sys, n: Sys)
    requires n == Scheduler(h)
    ensures n.clock == h.clock
  {
  }

  lemma ClockStep(s: Sys, e: Event)
    requires Inv(s) && Possible(s, e)
    ensures Step(s, e).clock == ClockAfter(s, e)
  {
    HandledClock(s, e);
    StepSchedules(s, e);
    SchedulerClock(Handled(s, e), Step(s, e));
  }

  lemma {:induction false} ClockOverRun(s: Sys, es: seq<Event>)
    requires Inv(s) && LegalRun(s, es) && s.clock == []
    ensures Exec(s, es).clock == ClockAskers(es)
    decreases |es|
  {
    if es != [] {
      var m := |es| - 1;
      RunAt(s, es, m);
      assert es[..m + 1] == es;
      ClockOverRun(s, es[..m]);
      ClockStep(Exec(s, es[..m]), es[m]);
    }
  }

  /** After any run from boot, with enough messages, the tick sends one answer to each process that has asked for it
      since the last tick and is alive, and to nobody else; those that await it become ready in the order in which they
      asked. */
  lemma TickServesAskers(t: Table, es: seq<Event>)
    requires LegalRun(Boot(t), es) && Exec(Boot(t), es).current == Some(SSI)
    ensures var s, r := Exec(Boot(t), es), AnswerWaitForClock(Exec(Boot(t), es));
      && (|s.msgFree| >= |ClockAskers(es)| ==> EachAnswered(s, r, ClockAskers(es)))
      && (s.msgFree != [] && AllAwait(s, ClockAskers(es)) ==> AllWoken(s, ClockAskers(es), r))
  {
    var s := Exec(Boot(t), es);
    ClockOverRun(Boot(t), es);
    if |s.msgFree| >= |s.clock| {
      ClockAnswersAll(s);
    }
    if s.msgFree != [] && AllAwait(s, s.clock) {
      ClockWakesAll(s);
    }
  }
}
