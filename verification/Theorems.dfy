/** What holds after every legal run from boot. */
module Theorems {
  import opened Sequences
  import opened Devices
  import opened Kernel
  import opened Structure
  import opened Frames
  import opened Mail
  import opened Pool
  import opened Soft
  import opened Runs

  lemma CountDownNoDup(n: nat)
    ensures NoDup(CountDown(n))
  {
  }

  lemma BootInv(t: Table)
    ensures Inv(Booted(t)) && SoftOk(Booted(t))
  {
    BootStructure(t);
    BootMail(t);
    forall p: Slot | Live(Booted(t), p) ensures !Blocked(Booted(t), p) {
      BootEmpty(t, p);
    }
  }

  lemma BootFree(t: Table, p: Slot)
    ensures p in Booted(t).free <==> p < 48
  {
    if p < 48 {
      assert Booted(t).free[47 - p] == p;
    }
  }

  lemma BootStructure(t: Table)
    ensures StructureOk(Booted(t)) && Booted(t).current.Some?
  {
    var s := Booted(t);
    CountDownNoDup(MAXPROC - 2);
    BootTree(t);
    assert s.ready == [TEST] && s.current == Some(SSI);
    BootFree(t, SSI);
    BootFree(t, TEST);
  }

  lemma BootTree(t: Table)
    ensures TreeOk(Booted(t).pcbs, Booted(t).free, Booted(t).nextPid)
  {
    var s := Booted(t);
    forall p: Slot ensures p in s.free <==> p < 48 {
      BootFree(t, p);
    }
    forall p: Slot | Live(s, p) ensures s.pcbs[p] == FreshPcb(50 - p) {
    }
  }

  lemma BootMail(t: Table)
    ensures AllMailOk(Booted(t)) && PoolOk(Booted(t)) && SoftOk(Booted(t))
  {
    forall p: Slot | Live(Booted(t), p) ensures MailOk(Booted(t), p) {
      BootEmpty(t, p);
    }
    BootPool(t);
    BootSoft(t);
  }

  /** No messages and no requests yet. */
  lemma BootEmpty(t: Table, p: Slot)
    requires Live(Booted(t), p)
    ensures var s := Booted(t);
      && s.pcbs[p].inbox == [] && !s.pcbs[p].doIo && s.logs[p] == Log([], [])
      && (p == SSI || p == TEST) && !Blocked(s, p)
  {
    BootFree(t, p);
    assert Booted(t).ready == [TEST] && Booted(t).current == Some(SSI);
  }

  lemma BootPool(t: Table)
    ensures PoolOk(Booted(t))
  {
    CountDownNoDup(MAXMESSAGES);
    forall p: Slot | Live(Booted(t), p) ensures IdsAt(Booted(t), p) == [] {
      BootEmpty(t, p);
    }
  }

  lemma BootSoft(t: Table)
    ensures SoftOk(Booted(t))
  {
    forall p: Slot ensures p !in Waiters(Booted(t)) {
      if Live(Booted(t), p) {
        BootEmpty(t, p);
      }
    }
    assert Waiters(Booted(t)) == {};
  }

  /** The nucleus after boot. */
  ghost function Boot(t: Table): (s: Sys)
    ensures Inv(s) && SoftOk(s) && s == Booted(t)
  {
    BootInv(t);
    Booted(t)
  }

  /** Some legal run from boot leads to `s`. */
  ghost predicate Reachable(s: Sys) {
    exists t: Table, es: seq<Event> :: LegalRun(Boot(t), es) && Exec(Boot(t), es) == s
  }

  lemma ReachableInv(s: Sys)
    requires Reachable(s)
    ensures Inv(s)
  {
    var t: Table, es: seq<Event> :| LegalRun(Boot(t), es) && Exec(Boot(t), es) == s;
  }

  /** Messages between a sender and a receiver: received is sent, in order and once, up to what is still pending. */
  lemma ExactlyOnceInOrder(s: Sys, d: Slot, x: Word)
    requires Reachable(s)
    ensures Live(s, d) ==> From(s.logs[d].sent, x) == From(s.logs[d].rcvd, x) + From(Packets(s.pcbs[d].inbox), x)
  {
    ReachableInv(s);
    if Live(s, d) {
      assert MailOk(s, d) && InOrder(s, d, x);
    }
  }

  /** No lost wakeup: whoever is neither ready nor running was saved in a RECEIVE, and has no message from the sender
      which that names, or none at all if it names nobody. */
  lemma NoLostWakeup(s: Sys, d: Slot)
    requires Reachable(s)
    ensures Blocked(s, d) ==>
      && s.pcbs[d].regs.a0 == Num(-2)
      && (s.pcbs[d].regs.a1 == Num(0) ==> s.pcbs[d].inbox == [])
      && (s.pcbs[d].regs.a1 != Num(0) ==> forall m | m in s.pcbs[d].inbox :: m.packet.sender != s.pcbs[d].regs.a1)
  {
    ReachableInv(s);
    if Blocked(s, d) {
      assert Live(s, d) && MailOk(s, d);
    }
  }

  // ----- stranded messages over runs

  ghost predicate KillsNobody(s: Sys, es: seq<Event>)
    requires Inv(s) && LegalRun(s, es)
    decreases |es|
  {
    es != [] ==> Killed(s, es[0]) == [] && (StepInv(s, es[0]); KillsNobody(Step(s, es[0]), es[1..]))
  }

  /** A stranded message structure is never used again, and only runs that kill strand any. */
  lemma {:induction false} StrandedForever(s: Sys, es: seq<Event>)
    requires Inv(s) && LegalRun(s, es)
    ensures forall id: MsgId :: Stranded(s, id) ==> Stranded(Exec(s, es), id)
    ensures KillsNobody(s, es) ==> SameStranded(s, Exec(s, es))
    ensures |Exec(s, es).msgFree| + |set id: MsgId | Pending(Exec(s, es), id)|
            == MAXMESSAGES - |set id: MsgId | Stranded(Exec(s, es), id)|
    decreases |es|
  {
    if es != [] {
      StepInv(s, es[0]);
      StepPool(s, es[0]);
      StrandedForever(Step(s, es[0]), es[1..]);
    } else {
      PoolTotal(s);
    }
  }

  // ----- pids

  /** The pids issued along a run. */
  ghost function Issued(s: Sys, es: seq<Event>): seq<int>
    requires Inv(s) && LegalRun(s, es)
    decreases |es|
  {
    if es == [] then []
    else
      StepInv(s, es[0]);
      (if es[0].SsiCreate? && s.free != [] then [Step(s, es[0]).pcbs[s.free[0]].pid] else [])
      + Issued(Step(s, es[0]), es[1..])
  }

  lemma TrapPid(s: Sys, r: Regs)
    requires StructureOk(s) && s.current.Some?
    ensures PassUpOrDie(s, r).nextPid == s.nextPid
  {
  }

  lemma SyscallPid(s: Sys, r: Regs, soft: bool)
    requires Inv(s) && s.mode == Running
    ensures Step(s, Syscall(r, soft)).nextPid == s.nextPid
  {
    if r.a0 == SENDMESSAGE {
      SyscallSendFrame(s, r, soft);
      SchedulerFrame(SyscallSend(s, r, soft));
    } else if r.a0 == RECEIVEMESSAGE {
      SchedulerFrame(SyscallReceive(s, r));
    } else {
      TrapPid(s, r);
    }
  }

  lemma StepNextPid(s: Sys, e: Event)
    requires Inv(s) && Possible(s, e)
    ensures Step(s, e).nextPid == s.nextPid + if e.SsiCreate? && s.free != [] then 1 else 0
  {
    match e
    case Syscall(r, soft) => SyscallPid(s, r, soft);
    case Trap(r) => TrapPid(s, r);
    case Interrupt(r, irq) => InterruptFrame(s, r, irq);
    case SsiAnswerDevice(p) => AnswerDoIoFrame(s, p);
    case SsiAnswerClock => AnswerClockFrame(s);
    case SsiCreate(_, _, _) =>
    case SsiTerminate(_) =>
    case SsiDoIo(_, _) =>
    case SsiClockWait(_) =>
  }

  /** Pids are issued one after the other, so none twice, and none that a live process had before. */
  lemma {:induction false} PidsNeverReused(s: Sys, es: seq<Event>)
    requires Inv(s) && LegalRun(s, es)
    ensures NoDup(Issued(s, es))
    ensures forall i | 0 <= i < |Issued(s, es)| :: Issued(s, es)[i] == s.nextPid + i
    ensures forall x | x in Issued(s, es) :: s.nextPid <= x
    ensures forall p: Slot | Live(s, p) :: s.pcbs[p].pid !in Issued(s, es)
    decreases |es|
  {
    assert forall p: Slot | Live(s, p) :: FamilyOk(s.pcbs, s.free, s.nextPid, p);
    if es != [] {
      var e, r := es[0], Step(s, es[0]);
      StepInv(s, e);
      StepNextPid(s, e);
      PidsNeverReused(r, es[1..]);
      if e.SsiCreate? && s.free != [] {
        assert e.sender != s.free[0];
        NoDupConcat([s.nextPid], Issued(r, es[1..]));
      }
    }
  }

  /** After boot there are the SSI, which runs, with pid 1, and the test process, which is ready, with pid 2; the next
      pid is 3. */
  lemma BootProcesses(t: Table)
    ensures var s := Boot(t);
      && (forall p: Slot :: Live(s, p) <==> p == 49 || p == 48)
      && s.current == Some(49) && s.ready == [48] && s.count == 2 && s.mode == Running
      && s.pcbs[49].pid == 1 && s.pcbs[48].pid == 2 && s.nextPid == 3
      && s.clock == [] && (forall n | 0 <= n < MAXDEVICE :: s.dev[n] == []) && |s.msgFree| == 50
  {
    forall p: Slot ensures Live(Boot(t), p) <==> p == 49 || p == 48 {
      BootFree(t, p);
    }
    assert Booted(t).ready == [TEST] && Booted(t).current == Some(SSI);
  }

  // ----- the soft-block count over runs

  /** The condition under which an event keeps the soft-block count exact. */
  ghost predicate Counted(s: Sys, e: Event)
    requires StructureOk(s)
  {
    match e
    case SsiDoIo(sender, _) => Blocked(s, sender) ==> s.pcbs[sender].doIo
    case _ => DiscountExact(s, Elems(Killed(s, e)))
  }

  lemma NobodyKilled(s: Sys)
    ensures DiscountExact(s, Elems<Slot>([]))
  {
    assert Discounted(s, Elems<Slot>([])) == {};
    assert Waiters(s) * Elems<Slot>([]) == {};
  }

  lemma TrapSoft(s: Sys, r: Regs)
    requires Inv(s) && SoftOk(s) && s.mode == Running
    ensures SoftOk(PassUpOrDie(s, r)) <==> DiscountExact(s, Elems(KilledByTrap(s)))
  {
    var p := s.current.value;
    if s.pcbs[p].support || p == SSI {
      NobodyKilled(s);
      SoftFrame(s, PassUpOrDie(s, r));
    } else {
      SameDiscount(s, s.(bios := r), Elems(KilledByTrap(s)));
      TrapDies(s, r);
      TrapPurgeSoft(s.(bios := r), KilledByTrap(s));
    }
  }

  lemma SameDiscount(s: Sys, r: Sys, gone: set<Slot>)
    requires r == s.(bios := r.bios)
    ensures SoftOk(r) == SoftOk(s) && DiscountExact(r, gone) == DiscountExact(s, gone)
  {
    assert Waiters(r) == Waiters(s) && Discounted(r, gone) == Discounted(s, gone);
  }

  lemma TrapPurgeSoft(s: Sys, freed: seq<Slot>)
    requires SoftOk(s) && s.current.Some? && s.current.value in freed
    ensures SoftOk(Scheduler(Purge(s, freed).(current := None))) <==> DiscountExact(s, Elems(freed))
  {
    PurgeSoft(s, freed, None);
    SchedulerSoftExact(Purge(s, freed).(current := None));
  }

  lemma SchedulerSoftExact(s: Sys)
    ensures SoftOk(Scheduler(s)) <==> SoftOk(s)
  {
    assert forall p: Slot :: Blocked(Scheduler(s), p) == Blocked(s, p);
    assert Waiters(Scheduler(s)) == Waiters(s);
  }

  lemma {:induction false} AnswerClockSoft(s: Sys)
    requires SoftOk(s) && s.current.Some?
    ensures SoftOk(AnswerWaitForClock(s))
    decreases |s.clock|
  {
    if s.clock != [] {
      var s0 := s.(clock := s.clock[1..]);
      SoftFrame(s, s0);
      SyscallSendSoft(s0, ReplyRegs(s.clock[0], Num(0)), false);
      AnswerClockSoft(SyscallSend(s0, ReplyRegs(s.clock[0], Num(0)), false));
    }
  }

  /** An event keeps the count exact if and only if its condition holds. */
  lemma StepSoftExact(s: Sys, e: Event)
    requires Inv(s) && SoftOk(s) && Possible(s, e)
    ensures SoftOk(Step(s, e)) <==> Counted(s, e)
  {
    NobodyKilled(s);
    match e
    case Syscall(r, soft) =>
      if r.a0 == SENDMESSAGE {
        SyscallSendSoft(s, r, soft);
        SchedulerSoft(SyscallSend(s, r, soft));
      } else if r.a0 == RECEIVEMESSAGE {
        ReceiveSoft(s, r);
        SchedulerSoft(SyscallReceive(s, r));
      } else {
        TrapSoft(s, r);
      }
    case Trap(r) => TrapSoft(s, r);
    case Interrupt(r, irq) => InterruptSoft(s, r, irq);
    case SsiCreate(sender, state, support) => CreateSoft(s, sender, state, support);
    case SsiTerminate(w) =>
      if w != PcbPtr(SSI) && IsPcbValid(s, w) {
        PurgeSoft(s, Killed(s, e), s.current);
      } else {
        SoftFrame(s, TerminateProcess(s, w));
      }
    case SsiDoIo(sender, addr) => DoIoSoft(s, sender, CommAddToNumber(addr));
    case SsiClockWait(sender) => SoftFrame(s, WaitForClock(s, sender));
    case SsiAnswerDevice(p) =>
      var n := AnswerQueue(p);
      if s.dev[n] != [] {
        var s0 := s.(dev := s.dev[n := s.dev[n][1..]]);
        SoftFrame(s, s0);
        SyscallSendSoft(s0, ReplyRegs(s.dev[n][0], Num(Field(p, 1))), false);
      }
    case SsiAnswerClock => AnswerClockSoft(s);
  }

  ghost predicate CountedRun(s: Sys, es: seq<Event>)
    requires Inv(s) && LegalRun(s, es)
    decreases |es|
  {
    es != [] ==> Counted(s, es[0]) && (StepInv(s, es[0]); CountedRun(Step(s, es[0]), es[1..]))
  }

  /** The count is that of the blocked flagged processes after every run whose events meet their condition. */
  lemma {:induction false} RunSoft(s: Sys, es: seq<Event>)
    requires Inv(s) && SoftOk(s) && LegalRun(s, es) && CountedRun(s, es)
    ensures SoftOk(Exec(s, es))
    decreases |es|
  {
    if es != [] {
      StepInv(s, es[0]);
      StepSoftExact(s, es[0]);
      RunSoft(Step(s, es[0]), es[1..]);
    }
  }

  /** Some legal run from boot whose steps all keep the count leads to `s`. */
  ghost predicate CountedReachable(s: Sys) {
    exists t: Table, es: seq<Event> :: LegalRun(Boot(t), es) && CountedRun(Boot(t), es) && Exec(Boot(t), es) == s
  }

  lemma CountedInv(s: Sys)
    requires CountedReachable(s)
    ensures Inv(s) && SoftOk(s)
  {
    var t: Table, es: seq<Event> :| LegalRun(Boot(t), es) && CountedRun(Boot(t), es) && Exec(Boot(t), es) == s;
    RunSoft(Boot(t), es);
  }

  lemma {:induction false} CountedSnoc(s: Sys, es: seq<Event>, e: Event)
    requires Inv(s) && LegalRun(s, es) && CountedRun(s, es) && LegalRun(s, es + [e])
    requires Possible(Exec(s, es), e) && Legal(Exec(s, es), e) && Counted(Exec(s, es), e)
    ensures CountedRun(s, es + [e])
    decreases |es|
  {
    if es == [] {
      assert es + [e] == [e] && [e][1..] == [];
      StepInv(s, e);
    } else {
      assert (es + [e])[0] == es[0] && (es + [e])[1..] == es[1..] + [e];
      StepInv(s, es[0]);
      CountedSnoc(Step(s, es[0]), es[1..], e);
    }
  }
}
