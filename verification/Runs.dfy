/** The nucleus as a transition system: what every step and so every run keeps. */
module Runs {
  import opened Sequences
  import opened Devices
  import opened Kernel
  import opened Structure
  import opened Frames
  import opened Mail
  import opened Pool

  /** What can happen next. The registers are those of the interrupted process, so between two events it may
      have computed anything; the SSI's services take any arguments, not only those of its last request. */
  datatype Event =
    | Syscall(regs: Regs, softblocking: bool)
    | Trap(regs: Regs)
    | Interrupt(regs: Regs, irq: Irq)
    | SsiCreate(sender: Slot, state: Regs, support: bool)
    | SsiTerminate(target: Word)
    | SsiDoIo(sender: Slot, commandAddr: int)
    | SsiClockWait(sender: Slot)
    | SsiAnswerDevice(payload: int)
    | SsiAnswerClock

  /** The hardware and the SSI's program allow the event. */
  predicate Possible(s: Sys, e: Event) {
    match e
    case Syscall(_, _) => s.mode == Running
    case Trap(_) => s.mode == Running
    case Interrupt(_, irq) =>
      irq.Valid() && (s.mode == Running || (s.mode == Waiting && IL_CPUTIMER !in irq.mip))
    case SsiDoIo(_, addr) => s.mode == Running && s.current == Some(SSI) && 0 <= CommAddToNumber(addr) < MAXDEVICE
    case SsiAnswerDevice(p) => s.mode == Running && s.current == Some(SSI) && 0 <= AnswerQueue(p) < MAXDEVICE
    case _ => s.mode == Running && s.current == Some(SSI)
  }

  ghost predicate Inv(s: Sys) {
    && StructureOk(s)
    && AllMailOk(s)
    && PoolOk(s)
    && InReceive(s)
    && (s.mode == Running ==> s.current.Some?)
  }

  /** Whoever is blocked was saved in a RECEIVE: a sender that finds a process neither ready nor running may deliver. */
  ghost predicate InReceive(s: Sys) {
    forall p: Slot | Blocked(s, p) :: s.pcbs[p].regs.a0 == RECEIVEMESSAGE
  }

  /** The processes that the event kills, last freed first. */
  ghost function Killed(s: Sys, e: Event): seq<Slot>
    requires StructureOk(s)
  {
    match e
    case SsiTerminate(w) =>
      if w != PcbPtr(SSI) && IsPcbValid(s, w) then Freed(s.pcbs, s.free, s.nextPid, w.slot) else []
    case Trap(_) => KilledByTrap(s)
    case Syscall(r, _) => if r.a0 != SENDMESSAGE && r.a0 != RECEIVEMESSAGE then KilledByTrap(s) else []
    case _ => []
  }

  ghost function KilledByTrap(s: Sys): seq<Slot>
    requires StructureOk(s)
  {
    if s.current.Some? && s.current != Some(SSI) && !s.pcbs[s.current.value].support then
      Freed(s.pcbs, s.free, s.nextPid, s.current.value)
    else []
  }

  /** The conditions under which the code keeps its structures: a process has one device or clock request at a time,
      a parent is alive when its child is created, and an entry is not allocated while it is still queued. */
  ghost predicate Legal(s: Sys, e: Event)
    requires StructureOk(s)
  {
    match e
    case SsiCreate(sender, _, _) => s.free == [] || (Live(s, sender) && !InQueue(s, s.free[0]))
    case SsiDoIo(sender, addr) =>
      && sender !in s.clock
      && forall m | 0 <= m < MAXDEVICE && m != CommAddToNumber(addr) :: sender !in s.dev[m]
    case SsiClockWait(sender) => !InQueue(s, sender)
    case _ => true
  }

  ghost function Step(s: Sys, e: Event): Sys
    requires Inv(s) && Possible(s, e)
  {
    match e
    case Syscall(r, soft) =>
      if r.a0 == SENDMESSAGE then Scheduler(SyscallSend(s, r, soft))
      else if r.a0 == RECEIVEMESSAGE then Scheduler(SyscallReceive(s, r))
      else PassUpOrDie(s, r)
    case Trap(r) => PassUpOrDie(s, r)
    case Interrupt(r, irq) => InterruptHandler(s, r, irq)
    case SsiCreate(sender, state, support) => CreateProcess(s, sender, state, support)
    case SsiTerminate(w) => TerminateProcess(s, w)
    case SsiDoIo(sender, addr) => DoIo(s, sender, CommAddToNumber(addr))
    case SsiClockWait(sender) => WaitForClock(s, sender)
    case SsiAnswerDevice(p) => AnswerDoIo(s, p)
    case SsiAnswerClock => AnswerWaitForClock(s)
  }

  // ----- one step

  /** A trap without support structure: the running process dies with its progeny, then somebody else is chosen. */
  lemma TrapDies(s: Sys, r: Regs)
    requires StructureOk(s) && s.current.Some? && s.current != Some(SSI) && !s.pcbs[s.current.value].support
    requires s.mode == Running
    ensures PassUpOrDie(s, r) == Scheduler(Purge(s.(bios := r), KilledByTrap(s)).(current := None))
  {
  }

  lemma DropQueueStructure(s: Sys, n: nat)
    requires StructureOk(s) && n < MAXDEVICE && s.dev[n] != []
    ensures StructureOk(s.(dev := s.dev[n := s.dev[n][1..]]))
  {
    var r := s.(dev := s.dev[n := s.dev[n][1..]]);
    TreeFrame(s, r);
    assert forall x | x in r.dev[n] :: x in s.dev[n];
    assert NoDup(r.dev[n]);
  }

  lemma DropClockStructure(s: Sys)
    requires StructureOk(s) && s.clock != []
    ensures StructureOk(s.(clock := s.clock[1..]))
  {
    TreeFrame(s, s.(clock := s.clock[1..]));
    assert forall x | x in s.clock[1..] :: x in s.clock;
  }

  /** A trap keeps the structure, whoever dies of it. */
  lemma TrapStructure(s: Sys, r: Regs)
    requires StructureOk(s) && s.current.Some? && s.mode == Running
    ensures StructureOk(PassUpOrDie(s, r))
  {
    var p := s.current.value;
    if s.pcbs[p].support || p == SSI {
      RelabelStructure(s, PassUpOrDie(s, r));
    } else {
      TrapDies(s, r);
      TrapKillStructure(s, r);
      SchedulerStructure(Purge(s.(bios := r), KilledByTrap(s)).(current := None));
    }
  }

  lemma TrapKillStructure(s: Sys, r: Regs)
    requires StructureOk(s) && s.current.Some? && s.current != Some(SSI) && !s.pcbs[s.current.value].support
    ensures StructureOk(Purge(s.(bios := r), KilledByTrap(s)).(current := None))
  {
    var s0 := s.(bios := r, current := None);
    IdleStructure(s, s0);
    TerminatedStructure(s0, s.current.value);
    PurgeCurrent(s.(bios := r), KilledByTrap(s));
  }

  lemma PurgeCurrent(s: Sys, freed: seq<Slot>)
    ensures Purge(s, freed).(current := None) == Purge(s.(current := None), freed)
  {
    DiscountIgnoresCurrent(s, Elems(freed));
  }

  lemma DiscountIgnoresCurrent(s: Sys, gone: set<Slot>)
    ensures Discounted(s.(current := None), gone) == Discounted(s, gone)
  {
  }

  /** Descheduling somebody keeps the structure. */
  lemma IdleStructure(s: Sys, r: Sys)
    requires StructureOk(s) && SameTree(s, r) && SameQueues(s, r) && r.ready == s.ready && r.current == None
    ensures StructureOk(r)
  {
    TreeFrame(s, r);
  }

  lemma {:induction false} AnswerClockStructure(s: Sys)
    requires StructureOk(s) && s.current.Some?
    ensures StructureOk(AnswerWaitForClock(s))
    decreases |s.clock|
  {
    if s.clock != [] {
      var s0 := s.(clock := s.clock[1..]);
      DropClockStructure(s);
      SyscallSendStructure(s0, ReplyRegs(s.clock[0], Num(0)), false);
      AnswerClockStructure(SyscallSend(s0, ReplyRegs(s.clock[0], Num(0)), false));
    }
  }

  /** A step keeps the structure if and only if its condition holds. */
  lemma StepStructure(s: Sys, e: Event)
    requires Inv(s) && Possible(s, e)
    ensures StructureOk(Step(s, e)) <==> Legal(s, e)
  {
    match e
    case Syscall(r, soft) =>
      if r.a0 == SENDMESSAGE {
        SyscallSendStructure(s, r, soft);
        SchedulerStructure(SyscallSend(s, r, soft));
      } else if r.a0 == RECEIVEMESSAGE {
        ReceiveStructure(s, r);
        SchedulerStructure(SyscallReceive(s, r));
      } else {
        TrapStructure(s, r);
      }
    case Trap(r) => TrapStructure(s, r);
    case Interrupt(r, irq) => InterruptStructure(s, r, irq);
    case SsiCreate(sender, state, support) =>
      if s.free != [] { CreateStructure(s, sender, state, support); }
    case SsiTerminate(w) =>
      if w == PcbPtr(SSI) {
        RelabelStructure(s, Step(s, e));
      } else if IsPcbValid(s, w) {
        SsiSurvives(s, w.slot);
        TerminatedStructure(s, w.slot);
      }
    case SsiDoIo(sender, addr) => DoIoStructure(s, sender, CommAddToNumber(addr));
    case SsiClockWait(sender) => WaitForClockStructure(s, sender);
    case SsiAnswerDevice(p) =>
      var n := AnswerQueue(p);
      if s.dev[n] != [] {
        DropQueueStructure(s, n);
        SyscallSendStructure(s.(dev := s.dev[n := s.dev[n][1..]]), ReplyRegs(s.dev[n][0], Num(Field(p, 1))), false);
      }
    case SsiAnswerClock => AnswerClockStructure(s);
  }

  lemma TrapMail(s: Sys, r: Regs)
    requires StructureOk(s) && AllMailOk(s) && s.current.Some? && s.mode == Running
    ensures AllMailOk(PassUpOrDie(s, r))
  {
    var p := s.current.value;
    if s.pcbs[p].support || p == SSI {
      AllMailFrame(s, PassUpOrDie(s, r));
    } else {
      TrapDies(s, r);
      var k := Purge(s.(bios := r), KilledByTrap(s)).(current := None);
      AllMailFrame(s, k);
      SchedulerMail(k);
    }
  }

  lemma {:induction false} AnswerClockMail(s: Sys)
    requires AllMailOk(s) && s.current.Some?
    ensures AllMailOk(AnswerWaitForClock(s))
    decreases |s.clock|
  {
    if s.clock != [] {
      var s0 := s.(clock := s.clock[1..]);
      AllMailFrame(s, s0);
      SyscallSendMail(s0, ReplyRegs(s.clock[0], Num(0)), false);
      AnswerClockMail(SyscallSend(s0, ReplyRegs(s.clock[0], Num(0)), false));
    }
  }

  lemma StepMail(s: Sys, e: Event)
    requires Inv(s) && Possible(s, e)
    ensures AllMailOk(Step(s, e))
  {
    match e
    case Syscall(r, soft) =>
      if r.a0 == SENDMESSAGE {
        SyscallSendMail(s, r, soft);
        SchedulerMail(SyscallSend(s, r, soft));
      } else if r.a0 == RECEIVEMESSAGE {
        ReceiveMail(s, r);
        SchedulerMail(SyscallReceive(s, r));
      } else {
        TrapMail(s, r);
      }
    case Trap(r) => TrapMail(s, r);
    case Interrupt(r, irq) => InterruptMail(s, r, irq);
    case SsiCreate(sender, state, support) => CreateMail(s, sender, state, support);
    case SsiTerminate(w) =>
      if w == PcbPtr(SSI) {
        AllMailFrame(s, Step(s, e));
      } else if IsPcbValid(s, w) {
        TerminatedMail(s, w.slot);
      }
    case SsiDoIo(sender, addr) => AllMailFrame(s, Step(s, e));
    case SsiClockWait(sender) => AllMailFrame(s, Step(s, e));
    case SsiAnswerDevice(p) =>
      var n := AnswerQueue(p);
      if s.dev[n] != [] {
        var s0 := s.(dev := s.dev[n := s.dev[n][1..]]);
        AllMailFrame(s, s0);
        SyscallSendMail(s0, ReplyRegs(s.dev[n][0], Num(Field(p, 1))), false);
      }
    case SsiAnswerClock => AnswerClockMail(s);
  }

  // ----- the message pool

  ghost predicate LostWith(s: Sys, e: Event, id: MsgId)
    requires StructureOk(s)
  {
    exists q: Slot | q in Killed(s, e) :: id in IdsAt(s, q)
  }

  ghost predicate StrandsExactly(s: Sys, r: Sys, e: Event)
    requires StructureOk(s)
  {
    forall id: MsgId :: Stranded(r, id) <==> Stranded(s, id) || LostWith(s, e, id)
  }

  lemma TrapPool(s: Sys, e: Event, r: Regs)
    requires StructureOk(s) && PoolOk(s) && s.current.Some? && s.mode == Running && Killed(s, e) == KilledByTrap(s)
    ensures PoolOk(PassUpOrDie(s, r)) && StrandsExactly(s, PassUpOrDie(s, r), e)
  {
    var p := s.current.value;
    var n := PassUpOrDie(s, r);
    if s.pcbs[p].support || p == SSI {
      PoolFrame(s, n);
    } else {
      TrapDies(s, r);
      TerminatedPool(s, p);
      TrapInboxes(s, r, KilledByTrap(s));
      PoolFrame(Terminated(s, p), n);
    }
  }

  lemma TrapInboxes(s: Sys, r: Regs, freed: seq<Slot>)
    ensures var n, k := Scheduler(Purge(s.(bios := r), freed).(current := None)), Purge(s, freed);
      n.free == k.free && n.msgFree == k.msgFree && forall q: Slot :: n.pcbs[q].inbox == k.pcbs[q].inbox
  {
  }

  lemma SendPoolAny(s: Sys, dest: Slot, payload: Word, sender: Word, soft: bool)
    requires PoolOk(s) && Live(s, dest)
    ensures var r := SendMessage(s, dest, payload, sender, soft).0; PoolOk(r) && SameStranded(s, r)
  {
    if s.msgFree != [] {
      SendPool(s, dest, payload, sender, soft);
    }
  }

  lemma {:induction false} LinesPool(s: Sys, irq: Irq, line: int)
    requires PoolOk(s) && Live(s, SSI) && irq.Valid() && DEV_IL_START <= line <= DEV_IL_START + N_EXT_IL
    ensures PoolOk(LineIrqs(s, irq, line)) && SameStranded(s, LineIrqs(s, irq, line))
    decreases DEV_IL_START + N_EXT_IL - line
  {
    if line < DEV_IL_START + N_EXT_IL {
      var s1 := if line in irq.mip then DeviceIrq(s, line, irq.banks[line - DEV_IL_START]) else s;
      if line in irq.mip {
        var bank := irq.banks[line - DEV_IL_START];
        var n := FirstPending(bank, 0);
        if s.mode != Panicked && n < N_DEV_PER_IL {
          SendPoolAny(s, SSI, Num(IrqPayload(line, n, bank[n])), INTERRUPT_HANDLER_MSG, false);
        } else {
          PoolFrame(s, s1);
        }
      }
      LinesPool(s1, irq, line + 1);
    }
  }

  lemma TimersPool(s: Sys, irq: Irq)
    requires PoolOk(s) && Live(s, SSI) && irq.Valid()
    ensures PoolOk(TimerIrqs(s, irq)) && SameStranded(s, TimerIrqs(s, irq)) && Live(TimerIrqs(s, irq), SSI)
  {
    var s1 := if IL_TIMER in irq.mip then SendMessageToSsi(s, CLOCK_PAYLOAD) else s;
    if IL_TIMER in irq.mip {
      SendPoolAny(s, SSI, Num(CLOCK_PAYLOAD), INTERRUPT_HANDLER_MSG, false);
    }
    PoolFrame(s1, PltIrq(s1));
  }

  lemma InterruptPool(s: Sys, r: Regs, irq: Irq)
    requires PoolOk(s) && Live(s, SSI) && irq.Valid()
    ensures PoolOk(InterruptHandler(s, r, irq)) && SameStranded(s, InterruptHandler(s, r, irq))
  {
    var s0 := s.(bios := r);
    PoolFrame(s, s0);
    TimersPool(s0, irq);
    var s2 := TimerIrqs(s0, irq);
    LinesPool(s2, irq, DEV_IL_START);
    SchedulerPool(s, LineIrqs(s2, irq, DEV_IL_START));
  }

  lemma SchedulerPool(s: Sys, r: Sys)
    requires PoolOk(r) && SameStranded(s, r)
    ensures PoolOk(Scheduler(r)) && SameStranded(s, Scheduler(r))
  {
    PoolFrame(r, Scheduler(r));
  }

  lemma {:induction false} AnswerClockPool(s: Sys)
    requires PoolOk(s) && s.current.Some?
    ensures PoolOk(AnswerWaitForClock(s)) && SameStranded(s, AnswerWaitForClock(s))
    decreases |s.clock|
  {
    if s.clock != [] {
      var s0 := s.(clock := s.clock[1..]);
      PoolFrame(s, s0);
      SyscallSendPool(s0, ReplyRegs(s.clock[0], Num(0)), false);
      AnswerClockPool(SyscallSend(s0, ReplyRegs(s.clock[0], Num(0)), false));
    }
  }

  predicate MayKill(e: Event) {
    match e
    case Syscall(r, _) => r.a0 != SENDMESSAGE && r.a0 != RECEIVEMESSAGE
    case Trap(_) => true
    case SsiTerminate(_) => true
    case _ => false
  }

  lemma SyscallPool(s: Sys, r: Regs, soft: bool)
    requires Inv(s) && s.mode == Running && !MayKill(Syscall(r, soft))
    ensures PoolOk(Step(s, Syscall(r, soft))) && SameStranded(s, Step(s, Syscall(r, soft)))
  {
    if r.a0 == SENDMESSAGE {
      SyscallSendPool(s, r, soft);
      SchedulerPool(s, SyscallSend(s, r, soft));
    } else {
      ReceivePool(s, r);
      SchedulerPool(s, SyscallReceive(s, r));
    }
  }

  /** Only a termination strands messages. */
  lemma QuietPool(s: Sys, e: Event)
    requires Inv(s) && Possible(s, e) && !MayKill(e)
    ensures PoolOk(Step(s, e)) && SameStranded(s, Step(s, e)) && Killed(s, e) == []
  {
    match e
    case Syscall(r, soft) => SyscallPool(s, r, soft);
    case Interrupt(r, irq) => InterruptPool(s, r, irq);
    case SsiCreate(sender, state, support) => CreatePool(s, sender, state, support);
    case SsiDoIo(sender, addr) => PoolFrame(s, DoIo(s, sender, CommAddToNumber(addr)));
    case SsiClockWait(sender) => PoolFrame(s, WaitForClock(s, sender));
    case SsiAnswerDevice(p) =>
      var n := AnswerQueue(p);
      if s.dev[n] != [] {
        var s0 := s.(dev := s.dev[n := s.dev[n][1..]]);
        PoolFrame(s, s0);
        SyscallSendPool(s0, ReplyRegs(s.dev[n][0], Num(Field(p, 1))), false);
      }
    case SsiAnswerClock => AnswerClockPool(s);
  }

  /** Every step keeps the pool and strands exactly the messages pending for the processes it kills. */
  lemma StepPool(s: Sys, e: Event)
    requires Inv(s) && Possible(s, e)
    ensures PoolOk(Step(s, e)) && StrandsExactly(s, Step(s, e), e)
  {
    if !MayKill(e) {
      QuietPool(s, e);
    } else {
      match e
      case Syscall(r, _) => TrapPool(s, e, r);
      case Trap(r) => TrapPool(s, e, r);
      case SsiTerminate(w) =>
        if w == PcbPtr(SSI) || !IsPcbValid(s, w) {
          PoolFrame(s, TerminateProcess(s, w));
        } else {
          TerminatedPool(s, w.slot);
        }
    }
  }

  // ----- runs

  lemma TrapMode(s: Sys, r: Regs)
    requires StructureOk(s) && s.current.Some?
    ensures PassUpOrDie(s, r).mode == Running ==> PassUpOrDie(s, r).current.Some?
  {
    var p := s.current.value;
    if !s.pcbs[p].support {
      SchedulerFrame(TerminateProcess(s.(bios := r), PcbPtr(p)).(current := None));
    }
  }

  lemma SyscallMode(s: Sys, r: Regs, soft: bool)
    requires Inv(s) && s.mode == Running
    ensures Step(s, Syscall(r, soft)).mode == Running ==> Step(s, Syscall(r, soft)).current.Some?
  {
    if r.a0 == SENDMESSAGE {
      SchedulerFrame(SyscallSend(s, r, soft));
    } else if r.a0 == RECEIVEMESSAGE {
      SchedulerFrame(SyscallReceive(s, r));
    } else {
      TrapMode(s, r);
    }
  }

  lemma StepMode(s: Sys, e: Event)
    requires Inv(s) && Possible(s, e)
    ensures Step(s, e).mode == Running ==> Step(s, e).current.Some?
  {
    match e
    case Syscall(r, soft) => SyscallMode(s, r, soft);
    case Trap(r) => TrapMode(s, r);
    case Interrupt(r, irq) => SchedulerFrame(LineIrqs(TimerIrqs(s.(bios := r), irq), irq, DEV_IL_START));
    case SsiCreate(_, _, _) =>
    case SsiTerminate(_) =>
    case SsiDoIo(_, _) =>
    case SsiClockWait(_) =>
    case SsiAnswerDevice(p) => AnswerDoIoFrame(s, p);
    case SsiAnswerClock => AnswerClockFrame(s);
  }

  lemma InReceiveFrame(s: Sys, r: Sys)
    requires InReceive(s) && NobodyBlocks(s, r)
    ensures InReceive(r) && InReceive(Scheduler(r))
  {
  }

  lemma SyscallInReceive(s: Sys, r: Regs, soft: bool)
    requires Inv(s) && s.mode == Running
    ensures InReceive(Step(s, Syscall(r, soft)))
  {
    if r.a0 == SENDMESSAGE {
      SyscallSendAppends(s, r, soft);
      InReceiveFrame(s, SyscallSend(s, r, soft));
    } else if r.a0 == RECEIVEMESSAGE {
      BlockInReceive(s, r);
    } else {
      TrapInReceive(s, r);
    }
  }

  /** Only a RECEIVE blocks. */
  lemma BlockInReceive(s: Sys, r: Regs)
    requires InReceive(s) && s.current.Some? && r.a0 == RECEIVEMESSAGE
    ensures InReceive(Scheduler(SyscallReceive(s, r)))
  {
    var n := SyscallReceive(s, r);
    assert InReceive(n);
    InReceiveFrame(n, n);
  }

  lemma TrapInReceive(s: Sys, r: Regs)
    requires StructureOk(s) && InReceive(s) && s.current.Some? && s.mode == Running
    ensures InReceive(PassUpOrDie(s, r))
  {
    if s.pcbs[s.current.value].support || s.current == Some(SSI) {
      InReceiveFrame(s, PassUpOrDie(s, r));
    } else {
      TrapDies(s, r);
      InReceiveFrame(s, Purge(s.(bios := r), KilledByTrap(s)).(current := None));
    }
  }

  lemma StepInReceive(s: Sys, e: Event)
    requires Inv(s) && Possible(s, e)
    ensures InReceive(Step(s, e))
  {
    match e
    case Syscall(r, soft) => SyscallInReceive(s, r, soft);
    case Trap(r) => TrapInReceive(s, r);
    case Interrupt(r, irq) =>
      PendingFrame(s.(bios := r), irq);
      InReceiveFrame(s.(bios := r), LineIrqs(TimerIrqs(s.(bios := r), irq), irq, DEV_IL_START));
    case SsiAnswerDevice(p) => AnswerDoIoFrame(s, p);
    case SsiAnswerClock => AnswerClockFrame(s);
    case SsiCreate(_, _, _) =>
    case SsiTerminate(_) =>
    case SsiDoIo(_, _) =>
    case SsiClockWait(_) =>
  }

  /** Every legal step keeps the invariant. */
  lemma StepInv(s: Sys, e: Event)
    requires Inv(s) && Possible(s, e) && Legal(s, e)
    ensures Inv(Step(s, e))
  {
    StepStructure(s, e);
    StepMail(s, e);
    StepPool(s, e);
    StepInReceive(s, e);
    StepMode(s, e);
  }

  ghost predicate LegalRun(s: Sys, es: seq<Event>)
    requires Inv(s)
    decreases |es|
  {
    es != [] ==>
      && Possible(s, es[0]) && Legal(s, es[0])
      && (StepInv(s, es[0]); LegalRun(Step(s, es[0]), es[1..]))
  }

  /** The state after a run; the invariant holds there. */
  ghost function Exec(s: Sys, es: seq<Event>): (r: Sys)
    requires Inv(s) && LegalRun(s, es)
    ensures Inv(r)
    decreases |es|
  {
    if es == [] then s else StepInv(s, es[0]); Exec(Step(s, es[0]), es[1..])
  }

  // ----- runs in two parts

  lemma {:induction false} RunConcat(s: Sys, a: seq<Event>, b: seq<Event>)
    requires Inv(s) && LegalRun(s, a)
    ensures LegalRun(s, a + b) <==> LegalRun(Exec(s, a), b)
    ensures LegalRun(s, a + b) ==> Exec(s, a + b) == Exec(Exec(s, a), b)
    decreases |a|
  {
    if a == [] {
      assert a + b == b;
    } else {
      assert (a + b)[0] == a[0] && (a + b)[1..] == a[1..] + b;
      StepInv(s, a[0]);
      RunConcat(Step(s, a[0]), a[1..], b);
    }
  }

  lemma {:induction false} RunPrefix(s: Sys, es: seq<Event>, m: nat)
    requires Inv(s) && LegalRun(s, es) && m <= |es|
    ensures LegalRun(s, es[..m])
    decreases |es|
  {
    if m > 0 {
      assert es[..m][0] == es[0] && es[..m][1..] == es[1..][..m - 1];
      StepInv(s, es[0]);
      RunPrefix(Step(s, es[0]), es[1..], m - 1);
    }
  }

  lemma RunOne(s: Sys, e: Event)
    requires Inv(s)
    ensures LegalRun(s, [e]) <==> Possible(s, e) && Legal(s, e)
    ensures LegalRun(s, [e]) ==> Exec(s, [e]) == Step(s, e)
  {
    assert [e][1..] == [];
    if Possible(s, e) && Legal(s, e) {
      StepInv(s, e);
    }
  }

  /** The `m`-th step of a run. */
  lemma RunAt(s: Sys, es: seq<Event>, m: nat)
    requires Inv(s) && LegalRun(s, es) && m < |es|
    ensures LegalRun(s, es[..m]) && LegalRun(s, es[..m + 1])
    ensures var r := Exec(s, es[..m]);
      Possible(r, es[m]) && Legal(r, es[m]) && Exec(s, es[..m + 1]) == Step(r, es[m])
  {
    RunPrefix(s, es, m);
    RunPrefix(s, es, m + 1);
    assert es[..m + 1] == es[..m] + [es[m]];
    RunConcat(s, es[..m], [es[m]]);
    RunOne(Exec(s, es[..m]), es[m]);
  }
}
