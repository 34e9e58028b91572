/** Runs from boot that show where the nucleus does not do what its comments say. */
module Cases {
  import opened Sequences
  import opened Devices
  import opened Kernel
  import opened Structure
  import opened Mail
  import opened Pool
  import opened Soft
  import opened Runs
  import opened Theorems
  import opened Verdict
  import opened Answers

  /** `es` is a legal and counted run from boot, and leads to `s`. */
  ghost predicate Reaches(t: Table, es: seq<Event>, s: Sys) {
    LegalRun(Boot(t), es) && CountedRun(Boot(t), es) && Exec(Boot(t), es) == s
  }

  lemma AtBoot(t: Table)
    ensures Reaches(t, [], Boot(t)) && Scene(Boot(t), SSI, [TEST], false, false)
  {
    BootFree(t, SSI);
    BootFree(t, TEST);
  }

  /** One more step. */
  lemma Reach(t: Table, es: seq<Event>, s: Sys, e: Event)
    requires Reaches(t, es, s) && Inv(s) && Possible(s, e) && Legal(s, e) && Counted(s, e)
    ensures Reaches(t, es + [e], Step(s, e)) && Inv(Step(s, e))
  {
    RunOne(s, e);
    RunConcat(Boot(t), es, [e]);
    CountedSnoc(Boot(t), es, e);
    StepInv(s, e);
  }

  /** A step that kills nobody and is no DOIO always counts. */
  lemma Quiet(t: Table, es: seq<Event>, s: Sys, e: Event) returns (es': seq<Event>, r: Sys)
    requires Reaches(t, es, s) && Inv(s) && Possible(s, e) && Legal(s, e) && Killed(s, e) == [] && !e.SsiDoIo?
    ensures Reaches(t, es', r) && Inv(r) && r == Step(s, e)
  {
    NobodyKilled(s);
    Reach(t, es, s, e);
    es', r := es + [e], Step(s, e);
  }

  /** The SSI and the test process, nobody queued, nothing counted; `note`: the test process has a message from itself;
      `marked`: its request flag is set. */
  ghost predicate Scene(s: Sys, current: Slot, ready: seq<Slot>, note: bool, marked: bool) {
    && s.mode == Running && s.current == Some(current) && s.ready == ready && s.count == 2 && s.soft == 0
    && Live(s, SSI) && Live(s, TEST) && (if note then 2 else 3) <= |s.msgFree| && s.clock == []
      && (forall n | 0 <= n < MAXDEVICE :: s.dev[n] == [])
    && s.pcbs[SSI].regs.a1 == ANYMESSAGE && !s.pcbs[SSI].doIo && s.pcbs[SSI].inbox == []
    && s.pcbs[TEST].kids == [] && s.pcbs[TEST].doIo == marked && !s.pcbs[TEST].support
    && Packets(s.pcbs[TEST].inbox) == if note then [Packet(PcbPtr(TEST), Num(0))] else []
  }

  function Receive(filter: Word): Event {
    Syscall(Regs(RECEIVEMESSAGE, filter, Num(0), 0), false)
  }

  function Send(dest: Word, softblocking: bool): Event {
    Syscall(Regs(SENDMESSAGE, dest, Num(0), 0), softblocking)
  }

  lemma SsiBlocks(s: Sys)
    requires Inv(s) && Scene(s, SSI, [TEST], false, false)
    ensures Scene(Step(s, Receive(ANYMESSAGE)), TEST, [], false, false)
  {
  }

  lemma TestSendsItself(s: Sys)
    requires Inv(s) && Scene(s, TEST, [], false, false)
    ensures Scene(Step(s, Send(PcbPtr(TEST), false)), TEST, [], true, false)
  {
  }

  /** The request for the clock wakes the SSI and marks the sender. */
  lemma TestAsks(s: Sys, note: bool)
    requires Inv(s) && Scene(s, TEST, [], note, false)
    ensures Scene(Step(s, Send(SSI_FAKE_ADDR, true)), TEST, [SSI], note, true)
  {
  }

  /** A receive of anything else clears the mark. */
  lemma TestReadsNote(s: Sys)
    requires Inv(s) && Scene(s, TEST, [SSI], true, true)
    ensures Scene(Step(s, Receive(PcbPtr(TEST))), TEST, [SSI], false, false)
  {
    PopIsFirst(s.pcbs[TEST].inbox, PcbPtr(TEST));
    assert Packets(s.pcbs[TEST].inbox)[0] == s.pcbs[TEST].inbox[0].packet;
  }

  /** Blocked on the SSI without a mark: the count does not see it. */
  lemma TestWaits(s: Sys)
    requires Inv(s) && Scene(s, TEST, [SSI], false, false)
    ensures var r := Step(s, Receive(SSI_FAKE_ADDR));
      Scene(r, SSI, [], false, false) && r.pcbs[TEST].regs.a1 == SSI_FAKE_ADDR
  {
  }

  lemma SsiQueues(s: Sys)
    requires Inv(s) && Scene(s, SSI, [], false, false)
    ensures Legal(s, SsiClockWait(TEST)) && Step(s, SsiClockWait(TEST)) == s.(clock := [TEST])
  {
  }

  /** The SSI waits for the next message; nobody is ready and nobody is counted. */
  lemma SsiRests(s: Sys, s0: Sys)
    requires Inv(s) && Scene(s0, SSI, [], false, false) && s == s0.(clock := [TEST])
      && s.pcbs[TEST].regs.a1 == SSI_FAKE_ADDR
    ensures var n := Step(s, Receive(ANYMESSAGE)); n.mode == Panicked && n.clock == [TEST] && AwaitsSsi(n, TEST)
  {
  }

  /** The machine panics although a process is queued on the clock and awaits the SSI: the next tick would wake it.
      Receiving another message after the request had cleared its mark. */
  lemma PanicsWithWaiter(t: Table) returns (es: seq<Event>, s: Sys, e: Event)
    ensures LegalRun(Boot(t), es) && CountedRun(Boot(t), es) && Exec(Boot(t), es) == s
    ensures Inv(s) && Possible(s, e) && Legal(s, e) && Counted(s, e) && !GivesUp(s, e)
    ensures var r := Step(s, e); r.mode == Panicked && r.clock == [TEST] && AwaitsSsi(r, TEST)
  {
    AtBoot(t);
    es, s := [], Boot(t);
    SsiBlocks(s);
    es, s := Quiet(t, es, s, Receive(ANYMESSAGE));
    TestSendsItself(s);
    es, s := Quiet(t, es, s, Send(PcbPtr(TEST), false));
    TestAsks(s, true);
    es, s := Quiet(t, es, s, Send(SSI_FAKE_ADDR, true));
    TestReadsNote(s);
    es, s := Quiet(t, es, s, Receive(PcbPtr(TEST)));
    TestWaits(s);
    es, s := Quiet(t, es, s, Receive(SSI_FAKE_ADDR));
    SsiQueues(s);
    ghost var s0 := s;
    es, s := Quiet(t, es, s, SsiClockWait(TEST));
    e := Receive(ANYMESSAGE);
    SsiRests(s, s0);
    NobodyKilled(s);
  }

  // ----- killing

  lemma FreedLeaf(s: Sys, p: Slot)
    requires Forest(s.pcbs, s.free, s.nextPid) && Live(s, p) && s.pcbs[p].kids == []
    ensures Freed(s.pcbs, s.free, s.nextPid, p) == [p]
  {
  }

  /** Killing the test process, which is ready. */
  lemma KillTest(s: Sys)
    requires Inv(s) && Scene(s, SSI, [TEST], false, false)
    ensures var e, r := SsiTerminate(PcbPtr(TEST)), Step(s, SsiTerminate(PcbPtr(TEST)));
      && Legal(s, e) && Counted(s, e) && r.mode == Running && r.current == Some(SSI) && r.count == 1 && r.ready == []
      && r.free == [TEST] + s.free && r.soft == 0
  {
    FreedLeaf(s, TEST);
    assert Discounted(s, Elems([TEST])) == {} && Waiters(s) * Elems([TEST]) == {};
  }

  const QUIET: Bank := seq(N_DEV_PER_IL, _ => DevReg(false, 0, 0, 0))
  const PREEMPTED := Interrupt(ZERO_REGS, Irq({IL_CPUTIMER}, seq(N_EXT_IL, _ => QUIET)))

  lemma PreemptSsi(s: Sys)
    requires Inv(s) && s.mode == Running && s.current == Some(SSI) && s.count == 1 && s.ready == []
    ensures var r := Step(s, PREEMPTED); r.mode == Halted && r.ready == [SSI]
  {
    var s1 := PltIrq(s.(bios := ZERO_REGS));
    NoLines(s1, Irq({IL_CPUTIMER}, seq(N_EXT_IL, _ => QUIET)), DEV_IL_START);
  }

  lemma {:induction false} NoLines(s: Sys, irq: Irq, line: int)
    requires irq.Valid() && DEV_IL_START <= line <= DEV_IL_START + N_EXT_IL
    requires forall k | line <= k < DEV_IL_START + N_EXT_IL :: k !in irq.mip
    ensures LineIrqs(s, irq, line) == s
    decreases DEV_IL_START + N_EXT_IL - line
  {
    if line < DEV_IL_START + N_EXT_IL {
      NoLines(s, irq, line + 1);
    }
  }

  /** The comment above the halt test wants the SSI blocked; the test looks up a fake address. Here the SSI has been
      preempted at work and is ready. */
  lemma HaltsWithSsiReady(t: Table) returns (es: seq<Event>, s: Sys)
    ensures LegalRun(Boot(t), es) && CountedRun(Boot(t), es) && Exec(Boot(t), es) == s
    ensures s.mode == Halted && s.ready == [SSI]
  {
    AtBoot(t);
    es, s := [], Boot(t);
    KillTest(s);
    Reach(t, es, s, SsiTerminate(PcbPtr(TEST)));
    es, s := es + [SsiTerminate(PcbPtr(TEST))], Step(s, SsiTerminate(PcbPtr(TEST)));
    PreemptSsi(s);
    es, s := Quiet(t, es, s, PREEMPTED);
  }

  /** A process is killed while it waits on the clock: it stays queued, and the run goes on. Then its entry is
      allocated again. */
  lemma KilledWaiterStays(t: Table) returns (es: seq<Event>, s: Sys)
    ensures LegalRun(Boot(t), es) && CountedRun(Boot(t), es) && Exec(Boot(t), es) == s
    ensures TEST in s.free && s.clock == [TEST] && Inv(s)
    ensures var e := SsiCreate(SSI, ZERO_REGS, false); Possible(s, e) && !StructureOk(Step(s, e)) && !Step(s, e).rings
  {
    AtBoot(t);
    es, s := [], Boot(t);
    es, s := Quiet(t, es, s, SsiClockWait(TEST));
    KillWaiter(s);
    Reach(t, es, s, SsiTerminate(PcbPtr(TEST)));
    es, s := es + [SsiTerminate(PcbPtr(TEST))], Step(s, SsiTerminate(PcbPtr(TEST)));
  }

  lemma KillWaiter(s: Sys)
    requires Inv(s) && s.mode == Running && s.current == Some(SSI) && s.soft == 0 && s.clock == [TEST]
    requires Live(s, TEST) && TEST in s.ready && s.pcbs[TEST].kids == []
    requires forall n | 0 <= n < MAXDEVICE :: s.dev[n] == []
    ensures var e, r := SsiTerminate(PcbPtr(TEST)), Step(s, SsiTerminate(PcbPtr(TEST)));
      && Legal(s, e) && Counted(s, e) && r.mode == Running && r.current == Some(SSI)
      && r.free == [TEST] + s.free && r.clock == [TEST]
  {
    FreedLeaf(s, TEST);
    assert Discounted(s, Elems([TEST])) == {} && Waiters(s) * Elems([TEST]) == {};
  }

  /** A process that has started an operation but not yet received its result is killed: the soft-block count, which
      does not include it, is decremented all the same and wraps around. */
  lemma DiscountUnderflows(t: Table) returns (es: seq<Event>, s: Sys)
    ensures LegalRun(Boot(t), es) && CountedRun(Boot(t), es) && Exec(Boot(t), es) == s && Inv(s)
    ensures var e := SsiTerminate(PcbPtr(TEST));
      Possible(s, e) && Legal(s, e) && s.soft == 0 && Step(s, e).soft == 0xFFFF_FFFF
  {
    AtBoot(t);
    es, s := [], Boot(t);
    var e := SsiDoIo(TEST, DEV_REG_START + RECV_COMMAND);
    StartOperation(s, e);
    Reach(t, es, s, e);
    es, s := es + [e], Step(s, e);
    KillStarted(s);
  }

  lemma KillStarted(s: Sys)
    requires Inv(s) && s.mode == Running && s.current == Some(SSI) && Live(s, TEST) && s.pcbs[TEST].kids == []
    requires s.soft == 0 && InDevice(s, TEST) && s.pcbs[TEST].doIo
    ensures var e := SsiTerminate(PcbPtr(TEST)); Possible(s, e) && Legal(s, e) && Step(s, e).soft == 0xFFFF_FFFF
  {
    DiscountWraps(s, TEST);
  }

  lemma StartOperation(s: Sys, e: Event)
    requires Inv(s) && Scene(s, SSI, [TEST], false, false) && e == SsiDoIo(TEST, DEV_REG_START + RECV_COMMAND)
    ensures Possible(s, e) && Legal(s, e) && Counted(s, e)
    ensures var r := Step(s, e);
      && r.mode == Running && r.current == Some(SSI) && Live(r, TEST) && r.pcbs[TEST].kids == [] && r.soft == 0
      && InDevice(r, TEST) && r.pcbs[TEST].doIo
  {
    assert CommAddToNumber(DEV_REG_START + RECV_COMMAND) == 0;
    assert TEST in Step(s, e).dev[0];
  }

  lemma DiscountWraps(s: Sys, p: Slot)
    requires Forest(s.pcbs, s.free, s.nextPid) && Live(s, p) && s.pcbs[p].kids == []
    requires s.soft == 0 && InDevice(s, p) && s.pcbs[p].doIo
    ensures Terminated(s, p).soft == 0xFFFF_FFFF
  {
    FreedLeaf(s, p);
    assert Discounted(s, Elems([p])) == {p};
  }

  // ----- requests of the dead

  /** A request that is still pending when its sender is killed: the new process takes its dead parent's entry and
      becomes its own parent and child. */
  lemma OrphanAdopted(t: Table) returns (es: seq<Event>, s: Sys)
    ensures LegalRun(Boot(t), es) && CountedRun(Boot(t), es) && Exec(Boot(t), es) == s && Inv(s)
    ensures var e := SsiCreate(TEST, ZERO_REGS, false);
      && Possible(s, e) && !Live(s, TEST)
      && var r := Step(s, e); r.pcbs[TEST].parent == Some(TEST) && r.pcbs[TEST].kids == [TEST] && !StructureOk(r)
  {
    AtBoot(t);
    es, s := [], Boot(t);
    KillTest(s);
    Reach(t, es, s, SsiTerminate(PcbPtr(TEST)));
    es, s := es + [SsiTerminate(PcbPtr(TEST))], Step(s, SsiTerminate(PcbPtr(TEST)));
    StepStructure(s, SsiCreate(TEST, ZERO_REGS, false));
  }

  /** A process that was blocked with its request counted is killed in the clock queue: it stays counted. */
  lemma DeadStillCounted(t: Table) returns (es: seq<Event>, s: Sys)
    ensures LegalRun(Boot(t), es) && CountedRun(Boot(t), es) && Exec(Boot(t), es) == s && Inv(s)
    ensures var e := SsiTerminate(PcbPtr(TEST));
      && Possible(s, e) && Legal(s, e) && s.soft == 1 && Step(s, e).soft == 1 && Waiters(Step(s, e)) == {}
  {
    AtBoot(t);
    es, s := [], Boot(t);
    SsiBlocks(s);
    es, s := Quiet(t, es, s, Receive(ANYMESSAGE));
    TestAsks(s, false);
    es, s := Quiet(t, es, s, Send(SSI_FAKE_ADDR, true));
    TestWaitsMarked(s);
    es, s := Quiet(t, es, s, Receive(SSI_FAKE_ADDR));
    es, s := QueueTest(t, es, s);
    RunSoft(Boot(t), es);
    KillCounted(s);
  }

  /** The only two processes: the SSI runs, the test process is blocked with its request counted. */
  ghost predicate Counting(s: Sys, clock: seq<Slot>) {
    && s.mode == Running && s.current == Some(SSI) && s.ready == [] && s.soft == 1 && s.clock == clock
    && Live(s, SSI) && Live(s, TEST) && (forall n | 0 <= n < MAXDEVICE :: s.dev[n] == [])
    && s.pcbs[TEST].kids == [] && s.pcbs[TEST].doIo
  }

  lemma TestWaitsMarked(s: Sys)
    requires Inv(s) && Scene(s, TEST, [SSI], false, true)
    ensures Counting(Step(s, Receive(SSI_FAKE_ADDR)), [])
  {
  }

  lemma QueueTest(t: Table, es: seq<Event>, s: Sys) returns (es': seq<Event>, r: Sys)
    requires Reaches(t, es, s) && Inv(s) && Counting(s, [])
    ensures Reaches(t, es', r) && Inv(r) && Counting(r, [TEST])
  {
    assert Killed(s, SsiClockWait(TEST)) == [] && !InQueue(s, TEST);
    es', r := Quiet(t, es, s, SsiClockWait(TEST));
  }

  lemma KillCounted(s: Sys)
    requires Inv(s) && SoftOk(s) && Counting(s, [TEST])
    ensures var e := SsiTerminate(PcbPtr(TEST));
      Possible(s, e) && Legal(s, e) && Step(s, e).soft == 1 && Waiters(Step(s, e)) == {}
  {
    FreedLeaf(s, TEST);
    assert Discounted(s, Elems([TEST])) == {};
    assert TEST in Waiters(s);
    OnlyOne(Waiters(s), TEST);
    PurgeWaiters(s, [TEST], s.current);
  }

  lemma OnlyOne(a: set<Slot>, p: Slot)
    requires |a| == 1 && p in a
    ensures a == {p}
  {
    SubsetCount({p}, a);
    assert a - {p} == {};
  }

  // ----- messages that are lost

  /** A process dies with a message in its inbox. */
  lemma MessageStranded(t: Table) returns (es: seq<Event>, s: Sys, id: MsgId)
    ensures LegalRun(Boot(t), es) && Exec(Boot(t), es) == s && Inv(s)
    ensures Possible(s, Trap(ZERO_REGS)) && !Stranded(s, id) && Stranded(Step(s, Trap(ZERO_REGS)), id)
  {
    AtBoot(t);
    es, s := [], Boot(t);
    SsiBlocks(s);
    es, s := Quiet(t, es, s, Receive(ANYMESSAGE));
    TestSendsItself(s);
    es, s := Quiet(t, es, s, Send(PcbPtr(TEST), false));
    id := s.pcbs[TEST].inbox[0].id;
    NoteLost(s, id);
  }

  lemma NoteLost(s: Sys, id: MsgId)
    requires Inv(s) && Scene(s, TEST, [], true, false) && s.pcbs[TEST].inbox != [] && id == s.pcbs[TEST].inbox[0].id
    ensures Possible(s, Trap(ZERO_REGS)) && !Stranded(s, id) && Stranded(Step(s, Trap(ZERO_REGS)), id)
  {
    FreedLeaf(s, TEST);
    assert id in IdsAt(s, TEST) by { assert IdsAt(s, TEST)[0] == id; }
    StepPool(s, Trap(ZERO_REGS));
    assert TEST in Killed(s, Trap(ZERO_REGS));
  }

  /** The test process talks to itself while it is in the clock queue and the SSI waits. */
  ghost predicate Talking(s: Sys) {
    && s.mode == Running && s.current == Some(TEST) && s.ready == [] && s.clock == [TEST] && Live(s, TEST)
    && Blocked(s, SSI)
  }

  lemma {:induction false} UseUpPool(t: Table, es: seq<Event>, s: Sys) returns (es': seq<Event>, r: Sys)
    requires Reaches(t, es, s) && Inv(s) && Talking(s)
    ensures Reaches(t, es', r) && Inv(r) && Talking(r) && r.msgFree == []
    decreases |s.msgFree|
  {
    es', r := es, s;
    if s.msgFree != [] {
      es', r := TalkOnce(t, es, s);
      es', r := UseUpPool(t, es', r);
    }
  }

  lemma TalkOnce(t: Table, es: seq<Event>, s: Sys) returns (es': seq<Event>, r: Sys)
    requires Reaches(t, es, s) && Inv(s) && Talking(s) && s.msgFree != []
    ensures Reaches(t, es', r) && Inv(r) && Talking(r) && r.msgFree == s.msgFree[1..]
  {
    es', r := Quiet(t, es, s, Send(PcbPtr(TEST), false));
  }

  const TICK := Interrupt(ZERO_REGS, Irq({IL_TIMER}, seq(N_EXT_IL, _ => QUIET)))

  /** The message pool is used up, and a tick of the clock reaches nobody: the SSI is not told. */
  lemma TickLost(t: Table) returns (es: seq<Event>, s: Sys)
    ensures LegalRun(Boot(t), es) && CountedRun(Boot(t), es) && Exec(Boot(t), es) == s && Inv(s)
    ensures s.clock == [TEST] && Blocked(s, SSI) && Possible(s, TICK)
    ensures var r := Step(s, TICK); r.clock == [TEST] && Blocked(r, SSI) && r.ready == [] && r.logs == s.logs
  {
    AtBoot(t);
    es, s := [], Boot(t);
    es, s := Quiet(t, es, s, SsiClockWait(TEST));
    es, s := Quiet(t, es, s, Receive(ANYMESSAGE));
    es, s := UseUpPool(t, es, s);
    TickDropped(s);
  }

  lemma TickDropped(s: Sys)
    requires Inv(s) && Talking(s) && s.msgFree == []
    ensures var r := Step(s, TICK); r.clock == [TEST] && Blocked(r, SSI) && r.ready == [] && r.logs == s.logs
  {
    NoLines(s.(bios := ZERO_REGS), Irq({IL_TIMER}, seq(N_EXT_IL, _ => QUIET)), DEV_IL_START);
  }
}
