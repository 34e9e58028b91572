/** The nucleus as it runs: global tables and queues changed in place, each entry point proved against `Kernel`. */
module Nucleus {
  import opened Sequences
  import opened Devices
  import opened Kernel
  import opened Tree
  import opened Mail
  import opened Killing

  class Nucleus {
    const pcbTable: array<Pcb>
    const blockedOnDevice: array<seq<Slot>>
    var blockedOnClock: seq<Slot>
    var pcbFree: seq<Slot>
    var nextPid: int
    var readyQueue: seq<Slot>
    var currentProcess: Option<Slot>
    var msgFree: seq<MsgId>
    var processCount: int
    var softblockCount: int
    var biosDataPage: Regs
    var memory: map<Word, Word>
    var mode: Mode
    ghost var rings: bool
    ghost var logs: Logs

    ghost predicate Valid()
      reads this
    {
      pcbTable.Length == MAXPROC && blockedOnDevice.Length == MAXDEVICE && 0 <= softblockCount < TWO32
    }

    ghost function Abs(): Sys
      requires Valid()
      reads this, pcbTable, blockedOnDevice
    {
      Sys(pcbTable[..], pcbFree, nextPid, readyQueue, currentProcess, blockedOnDevice[..], blockedOnClock, rings,
          msgFree, processCount, softblockCount, biosDataPage, memory, mode, logs)
    }

    /** main: the SSI and the test process are allocated and queued, then the scheduler picks the first. */
    constructor Boot()
      ensures Valid() && fresh(pcbTable) && fresh(blockedOnDevice)
      ensures Abs() == Booted(seq(MAXPROC, _ => FreshPcb(0)))
    {
      pcbTable := new Pcb[MAXPROC](_ => FreshPcb(0));
      blockedOnDevice := new seq<Slot>[MAXDEVICE](_ => []);
      blockedOnClock, pcbFree, nextPid, readyQueue, currentProcess, msgFree := [], [], 1, [], None, [];
      processCount, softblockCount, biosDataPage, memory, mode := 0, 0, ZERO_REGS, map[], Running;
      rings := true;
      logs := seq(MAXPROC, _ => Log([], []));
      new;
      pcbFree := FreeList(MAXPROC);
      msgFree := FreeList(MAXMESSAGES);
      assert Abs() == Zeroed();
      BootedIs();
      StartProcess();
      StartProcess();
      Schedule();
    }

    /** One initial process: allocated, queued and counted. */
    method StartProcess()
      requires Valid() && pcbFree != []
      modifies this, pcbTable
      ensures Valid() && Abs() == Started(old(Abs()))
    {
      var p := AllocPcb();
      readyQueue := readyQueue + [p.value];
      processCount := processCount + 1;
    }

    // ----- phase1/pcb.c, phase1/msg.c

    method FreePcb(p: Slot)
      requires Valid()
      modifies this`pcbFree
      ensures Valid() && Abs() == old(Abs()).(free := [p] + old(pcbFree))
    {
      pcbFree := [p] + pcbFree;
    }

    /** initPcbs, initMsgs: every entry is pushed onto the head of the free list. */
    static method FreeList(n: nat) returns (free: seq<int>)
      ensures free == CountDown(n)
    {
      free := [];
      for i := 0 to n
        invariant free == CountDown(i)
      {
        free := [i] + free;
      }
    }

    /** The first free entry, with every field reset; None if there is none. */
    method AllocPcb() returns (r: Option<Slot>)
      requires Valid()
      modifies this`pcbFree, this`nextPid, this`rings, this`logs, pcbTable
      ensures r.None? <==> old(pcbFree) == []
      ensures Valid()
      ensures r.None? ==> Abs() == old(Abs())
      ensures r.Some? ==> r.value == old(pcbFree)[0]
      ensures r.Some? ==>
        Abs() == old(Abs()).(pcbs := old(Abs()).pcbs[r.value := FreshPcb(old(nextPid))], free := old(pcbFree)[1..],
                                nextPid := old(nextPid) + 1,
                                rings := old(rings) && !InQueue(old(Abs()), r.value),
                                logs := old(logs)[r.value := Log([], [])])
    {
      if pcbFree == [] {
        return None;
      }
      var p := pcbFree[0];
      rings := rings && !InQueue(Abs(), p);
      pcbFree := pcbFree[1..];
      pcbTable[p] := FreshPcb(nextPid);
      nextPid := nextPid + 1;
      logs := logs[p := Log([], [])];
      r := Some(p);
    }

    /** searchPcb: walks the whole queue. */
    static method SearchPcb(queue: seq<Slot>, p: Slot) returns (found: bool)
      ensures found <==> p in queue
    {
      found := false;
      for i := 0 to |queue|
        invariant found <==> p in queue[..i]
      {
        assert queue[..i + 1] == queue[..i] + [queue[i]];
        if queue[i] == p {
          found := true;
        }
      }
      assert queue[..|queue|] == queue;
    }

    /** outProcQ, outProcQForIO: walks the whole queue and unlinks `p` wherever it meets it. */
    static method OutProcQ(queue: seq<Slot>, p: Slot) returns (rest: seq<Slot>, found: bool)
      ensures rest == Without(queue, p) && (found <==> p in queue)
    {
      rest, found := [], false;
      for i := 0 to |queue|
        invariant rest == Without(queue[..i], p) && (found <==> p in queue[..i])
      {
        assert queue[..i + 1] == queue[..i] + [queue[i]];
        MinusConcat(queue[..i], [queue[i]], {p});
        if queue[i] == p {
          found := true;
        } else {
          rest := rest + [queue[i]];
        }
      }
      assert queue[..|queue|] == queue;
    }

    /** popMessage: stops at the first message that the filter accepts and unlinks it. */
    static method PopMsg(inbox: seq<Msg>, filter: Word) returns (m: Option<Msg>, rest: seq<Msg>)
      ensures (m, rest) == PopMessage(inbox, filter)
    {
      PopIsFirst(inbox, filter);
      for i := 0 to |inbox|
        invariant forall j | 0 <= j < i :: !Accepts(filter, inbox[j].packet.sender)
      {
        if Accepts(filter, inbox[i].packet.sender) {
          return Some(inbox[i]), inbox[..i] + inbox[i + 1..];
        }
      }
      return None, inbox;
    }

    // ----- phase2/exceptions.c

    method SendMsg(dest: Slot, payload: Word, sender: Word, softblocking: bool) returns (ret: Word)
      requires Valid()
      modifies this, pcbTable
      ensures Valid() && (Abs(), ret) == SendMessage(old(Abs()), dest, payload, sender, softblocking)
    {
      if msgFree == [] {
        return MSGNOGOOD;
      }
      var m := Msg(msgFree[0], Packet(Public(sender), payload));
      msgFree := msgFree[1..];
      MarkRequester(dest, sender, softblocking);
      logs := Sent(logs, dest, m.packet);
      assert Abs() == LogSent(MarkRequest(old(Abs()).(msgFree := msgFree), dest, sender, softblocking), dest, m.packet);
      var ready := SearchPcb(readyQueue, dest);
      if !ready && currentProcess != Some(dest) && Accepts(pcbTable[dest].regs.a1, Public(sender)) {
        WakeUp(dest, m);
      } else {
        InsertMessage(dest, m);
      }
      ret := Num(0);
    }

    /** A request that will block its sender is noted. */
    method MarkRequester(dest: Slot, sender: Word, softblocking: bool)
      requires Valid()
      modifies pcbTable
      ensures Valid() && Abs() == MarkRequest(old(Abs()), dest, sender, softblocking)
    {
      if dest == SSI && sender != INTERRUPT_HANDLER_MSG && softblocking && currentProcess.Some? {
        pcbTable[currentProcess.value] := pcbTable[currentProcess.value].(doIo := true);
      }
    }

    method WakeUp(dest: Slot, m: Msg)
      requires Valid()
      modifies this, pcbTable
      ensures Valid() && Abs() == Handover(old(Abs()), dest, m)
    {
      readyQueue := readyQueue + [dest];
      var e := pcbTable[dest];
      if e.doIo {
        softblockCount := U32(softblockCount - 1);
      }
      DeliverMessage(e.regs, m);
      pcbTable[dest] := e.(regs := DeliverRegs(e.regs, m.packet), doIo := false);
      logs := Received(logs, dest, m.packet);
    }

    method InsertMessage(dest: Slot, m: Msg)
      requires Valid()
      modifies pcbTable
      ensures Valid() && Abs() == Enqueue(old(Abs()), dest, m)
    {
      pcbTable[dest] := pcbTable[dest].(inbox := pcbTable[dest].inbox + [m]);
    }

    /** The memory and pool side of deliver_message; the caller stores the registers. */
    method DeliverMessage(regs: Regs, m: Msg)
      modifies this`memory, this`msgFree
      ensures memory == DeliverMem(old(memory), regs, m.packet) && msgFree == [m.id] + old(msgFree)
    {
      if regs.a2 != Num(0) {
        memory := memory[regs.a2 := m.packet.payload];
      }
      msgFree := [m.id] + msgFree;
    }

    method Send(r: Regs, softblocking: bool)
      requires Valid() && currentProcess.Some?
      modifies this, pcbTable
      ensures Valid() && Abs() == SyscallSend(old(Abs()), r, softblocking)
    {
      var dest := r.a1;
      if dest == SSI_FAKE_ADDR {
        dest := PcbPtr(SSI);
      } else if dest == PARENT {
        var parent := pcbTable[currentProcess.value].parent;
        dest := if parent.Some? then PcbPtr(parent.value) else Num(0);
      }
      var ret := DEST_NOT_EXIST;
      var valid := IsValid(dest);
      if valid {
        ret := SendMsg(dest.slot, r.a2, PcbPtr(currentProcess.value), softblocking);
      }
      biosDataPage := r.(a0 := ret, pc := r.pc + 4);
    }

    method IsValid(w: Word) returns (valid: bool)
      requires Valid()
      ensures valid <==> IsPcbValid(Abs(), w)
    {
      if !w.PcbPtr? {
        return false;
      }
      var free := SearchPcb(pcbFree, w.slot);
      valid := !free;
    }

    method Receive(r: Regs)
      requires Valid() && currentProcess.Some?
      modifies this, pcbTable
      ensures Valid() && Abs() == SyscallReceive(old(Abs()), r)
    {
      var p := currentProcess.value;
      ghost var s := Abs();
      var m, rest := PopMsg(pcbTable[p].inbox, r.a1);
      if m.Some? {
        pcbTable[p] := pcbTable[p].(inbox := rest);
        if pcbTable[p].doIo {
          pcbTable[p] := pcbTable[p].(doIo := false);
        }
        DeliverMessage(r, m.value);
        biosDataPage := DeliverRegs(r, m.value.packet);
        logs := Received(logs, p, m.value.packet);
        assert Abs() == TakeMessage(s, p, r, m.value, rest);
      } else {
        BlockCurrent(r);
      }
    }

    /** blockSys, up to its call of the scheduler. */
    method BlockCurrent(r: Regs)
      requires Valid() && currentProcess.Some?
      modifies this, pcbTable
      ensures Valid() && Abs() == BlockSys(old(Abs()), old(currentProcess).value, r)
    {
      var p := currentProcess.value;
      pcbTable[p] := pcbTable[p].(regs := r);
      biosDataPage := r;
      if pcbTable[p].doIo {
        softblockCount := U32(softblockCount + 1);
      }
      currentProcess := None;
    }

    // ----- phase2/scheduler.c

    method Schedule()
      requires Valid()
      modifies this
      ensures Valid() && Abs() == Scheduler(old(Abs()))
    {
      if mode == Panicked {
        return;
      }
      if currentProcess.Some? {
        mode := Running;
        return;
      }
      // The test for the SSI looks up its fake address, which is in no queue.
      if processCount == 1 {
        mode := Halted;
        return;
      }
      if readyQueue == [] {
        mode := if softblockCount > 0 then Waiting else Panicked;
        return;
      }
      currentProcess := Some(readyQueue[0]);
      readyQueue := readyQueue[1..];
      biosDataPage := pcbTable[currentProcess.value].regs;
      mode := Running;
    }

    // ----- phase2/interrupts.c

    method Plt()
      requires Valid()
      modifies this, pcbTable
      ensures Valid() && Abs() == PltIrq(old(Abs()))
    {
      if currentProcess.Some? {
        var p := currentProcess.value;
        pcbTable[p] := pcbTable[p].(regs := biosDataPage);
        readyQueue := readyQueue + [p];
        currentProcess := None;
      }
    }

    method DeviceInterrupt(line: int, bank: Bank)
      requires Valid()
      modifies this, pcbTable
      ensures Valid() && Abs() == (if old(mode) == Panicked then old(Abs()) else DeviceIrq(old(Abs()), line, bank))
    {
      if mode == Panicked {
        return;
      }
      var n := 0;
      while n < N_DEV_PER_IL && !bank[n].pending
        invariant 0 <= n <= N_DEV_PER_IL && FirstPending(bank, 0) == FirstPending(bank, n)
      {
        n := n + 1;
      }
      if n == N_DEV_PER_IL {
        mode := Panicked;
        return;
      }
      var ret := SendMsg(SSI, Num(IrqPayload(line, n, bank[n])), INTERRUPT_HANDLER_MSG, false);
    }

    /** Serves the pending lines one by one, highest priority first, then calls the scheduler. */
    method Interrupts(r: Regs, irq: Irq)
      requires Valid() && irq.Valid()
      modifies this, pcbTable
      ensures Valid() && Abs() == InterruptHandler(old(Abs()), r, irq)
    {
      biosDataPage := r;
      var mip := irq.mip * INTERR;
      ghost var goal := Served(Abs(), irq.banks, mip);
      MaskedLines(Abs(), irq);
      while mip != {}
        invariant Valid() && Served(Abs(), irq.banks, mip) == goal
        invariant mip <= INTERR
        decreases mip
      {
        mip := ServeOne(irq.banks, mip);
      }
      NoneLeft(Abs(), irq.banks);
      Schedule();
    }

    /** Serves the pending line of highest priority and clears its bit. */
    method ServeOne(banks: seq<Bank>, pending: set<int>) returns (mip: set<int>)
      requires Valid() && |banks| == N_EXT_IL && pending != {} && pending <= INTERR
      modifies this, pcbTable
      ensures Valid() && mip < pending && Served(Abs(), banks, mip) == Served(old(Abs()), banks, pending)
    {
      if IL_TIMER in pending {
        NextTimer(Abs(), banks, pending);
        mip := pending - {IL_TIMER};
        var ret := SendMsg(SSI, Num(CLOCK_PAYLOAD), INTERRUPT_HANDLER_MSG, false);
      } else if IL_CPUTIMER in pending {
        NextPlt(Abs(), banks, pending);
        mip := pending - {IL_CPUTIMER};
        Plt();
      } else {
        var iln := LowestLine(pending);
        NextLine(Abs(), banks, pending, iln);
        mip := pending - {iln};
        DeviceInterrupt(iln, banks[iln - DEV_IL_START]);
      }
    }

    static method LowestLine(mip: set<int>) returns (iln: int)
      requires mip != {} && mip <= INTERR && IL_TIMER !in mip && IL_CPUTIMER !in mip
      ensures DEV_IL_START <= iln < DEV_IL_START + N_EXT_IL && iln in mip
      ensures forall k | DEV_IL_START <= k < iln :: k !in mip
    {
      iln := DEV_IL_START;
      while iln < DEV_IL_START + N_EXT_IL && iln !in mip
        invariant DEV_IL_START <= iln <= DEV_IL_START + N_EXT_IL
        invariant forall k | DEV_IL_START <= k < iln :: k !in mip
      {
        iln := iln + 1;
      }
      assert exists k :: k in mip;
    }

    // ----- phase2/utils.c

    /** Kills the process and its progeny. The recursion takes apart the tree that it walks. */
    method Terminate(w: Word)
      requires Valid() && Forest(pcbTable[..], pcbFree, nextPid)
      requires IsPcbValid(Abs(), w) ==> Attached(pcbTable[..], pcbFree, w.slot)
      modifies this, pcbTable, blockedOnDevice
      ensures Valid() && Abs() == TerminateProcess(old(Abs()), w)
      decreases if IsPcbValid(Abs(), w) then nextPid - pcbTable[w.slot].pid else 0, 1
    {
      if w == PcbPtr(SSI) {
        mode := Panicked;
        return;
      }
      var valid := IsValid(w);
      if !valid {
        return;
      }
      var p := w.slot;
      ghost var s0 := Abs();
      assert FamilyOk(s0.pcbs, s0.free, s0.nextPid, p);
      Detach(p);
      TerminateProgeny(p, s0);
      PartialEnd(s0, p);
      FreePcb(p);
    }

    /** The loop of `Terminate`: kills the first child until there is none. */
    method TerminateProgeny(p: Slot, ghost s0: Sys)
      requires Valid() && Forest(s0.pcbs, s0.free, s0.nextPid) && Live(s0, p) && Abs() == Partial(s0, p, [])
      modifies this, pcbTable, blockedOnDevice
      ensures Valid() && LoopOk(s0, p, |s0.pcbs[p].kids|) && Abs() == Partial(s0, p, Done(s0, p, |s0.pcbs[p].kids|))
      decreases nextPid - s0.pcbs[p].pid, 0
    {
      ghost var i, kids := 0, s0.pcbs[p].kids;
      PartialStart(s0, p);
      while pcbTable[p].kids != []
        invariant Valid() && LoopOk(s0, p, i) && Abs() == Partial(s0, p, Done(s0, p, i))
        invariant pcbTable[p].kids == kids[i..]
        decreases |kids| - i
      {
        ChildReady(s0, p, i, Abs());
        Terminate(PcbPtr(pcbTable[p].kids[0]));
        i := i + 1;
        PartialKids(s0, p, i);
      }
    }

    /** Takes `p` from its parent, the ready queue and the device queues, and adjusts the counters. The clock
        queue is searched through the wrong link, so it is left as it is. */
    method Detach(p: Slot)
      requires Valid() && Forest(pcbTable[..], pcbFree, nextPid) && Live(Abs(), p) && Attached(pcbTable[..], pcbFree, p)
      modifies this, pcbTable, blockedOnDevice
      ensures Valid() && Abs() == Partial(old(Abs()), p, [])
    {
      DetachSum(Abs(), p);
      OutChild(p);
      Dequeue(p);
    }

    /** Takes `p` out of the ready queue and the device queues, and adjusts the counters. */
    method Dequeue(p: Slot)
      requires Valid()
      modifies this, blockedOnDevice
      ensures Valid() && Abs() == Dequeued(old(Abs()), p)
    {
      var rest, ready := OutProcQ(readyQueue, p);
      readyQueue := rest;
      var wasBlocked := DropFromDevices(p);
      Discount(p, wasBlocked);
    }

    /** Adjusts the counters for the killed `p`. */
    method Discount(p: Slot, wasBlocked: bool)
      requires Valid()
      modifies this`processCount, this`softblockCount
      ensures Valid() && processCount == old(processCount) - 1
      ensures softblockCount ==
        if wasBlocked && pcbTable[p].doIo then U32(old(softblockCount) - 1) else old(softblockCount)
    {
      processCount := processCount - 1;
      if wasBlocked && pcbTable[p].doIo {
        softblockCount := U32(softblockCount - 1);
      }
    }

    /** Takes `p` out of its parent's children. */
    method OutChild(p: Slot)
      requires Valid() && Forest(pcbTable[..], pcbFree, nextPid) && Live(Abs(), p) && Attached(pcbTable[..], pcbFree, p)
      modifies pcbTable
      ensures Abs() == old(Abs()).(pcbs := DropKids(old(pcbTable[..]), pcbFree, {p}))
    {
      ghost var s0 := Abs();
      if pcbTable[p].parent.Some? {
        var q := pcbTable[p].parent.value;
        pcbTable[q] := pcbTable[q].(kids := Without(pcbTable[q].kids, p));
      }
      DetachKids(s0, p, pcbTable[..]);
    }

    /** Takes `p` out of all 48 device queues and tells whether it was in one. */
    method DropFromDevices(p: Slot) returns (wasBlocked: bool)
      requires Valid()
      modifies blockedOnDevice
      ensures blockedOnDevice[..] == DropFromQueues(old(blockedOnDevice[..]), {p})
      ensures wasBlocked <==> InSome(old(blockedOnDevice[..]), p)
    {
      ghost var d := blockedOnDevice[..];
      wasBlocked := false;
      for i := 0 to MAXDEVICE
        invariant forall k | 0 <= k < MAXDEVICE :: blockedOnDevice[k] == if k < i then Without(d[k], p) else d[k]
        invariant wasBlocked <==> exists k | 0 <= k < i :: p in d[k]
      {
        var others, found := OutProcQ(blockedOnDevice[i], p);
        blockedOnDevice[i] := others;
        if found {
          wasBlocked := true;
        }
      }
      AllDropped(d, blockedOnDevice[..], p);
    }

    method PassUp(r: Regs)
      requires Valid() && currentProcess.Some? && Forest(pcbTable[..], pcbFree, nextPid)
      requires Live(Abs(), currentProcess.value) && Attached(pcbTable[..], pcbFree, currentProcess.value)
      modifies this, pcbTable, blockedOnDevice
      ensures Valid() && Abs() == PassUpOrDie(old(Abs()), r)
    {
      biosDataPage := r;
      var p := currentProcess.value;
      if !pcbTable[p].support {
        Terminate(PcbPtr(p));
        if mode != Panicked {
          currentProcess := None;
          Schedule();
        }
      }
    }

    // ----- phase2/ssi.c

    method Create(sender: Slot, state: Regs, support: bool) returns (r: Option<Slot>)
      requires Valid()
      modifies this, pcbTable
      ensures Valid() && Abs() == CreateProcess(old(Abs()), sender, state, support)
      ensures r == if old(pcbFree) == [] then None else Some(old(pcbFree)[0])
    {
      ghost var s := Abs();
      r := AllocPcb();
      if r.Some? {
        var p := r.value;
        pcbTable[p] := pcbTable[p].(regs := state, support := support);
        pcbTable[p] := pcbTable[p].(parent := Some(sender));
        assert pcbTable[..] == s.pcbs[p := Pcb(Some(sender), [], state, [], support, false, s.nextPid)];
        pcbTable[sender] := pcbTable[sender].(kids := pcbTable[sender].kids + [p]);
        readyQueue := readyQueue + [p];
        processCount := processCount + 1;
      }
    }

    method RequestIo(sender: Slot, commandAddr: int)
      requires Valid() && 0 <= CommAddToNumber(commandAddr) < MAXDEVICE
      modifies this, pcbTable, blockedOnDevice
      ensures Valid() && Abs() == DoIo(old(Abs()), sender, CommAddToNumber(commandAddr))
    {
      var n := CommAddToNumber(commandAddr);
      pcbTable[sender] := pcbTable[sender].(doIo := true);
      var rest, found := OutProcQ(blockedOnDevice[n], sender);
      blockedOnDevice[n] := rest + [sender];
    }

    method RequestClock(sender: Slot)
      requires Valid()
      modifies this`blockedOnClock
      ensures Valid() && Abs() == WaitForClock(old(Abs()), sender)
    {
      blockedOnClock := blockedOnClock + [sender];
    }

    method AnswerDevice(payload: int)
      requires Valid() && currentProcess.Some? && 0 <= AnswerQueue(payload) < MAXDEVICE
      modifies this, pcbTable, blockedOnDevice
      ensures Valid() && Abs() == AnswerDoIo(old(Abs()), payload)
    {
      var n := AnswerQueue(payload);
      if blockedOnDevice[n] != [] {
        var dest := blockedOnDevice[n][0];
        blockedOnDevice[n] := blockedOnDevice[n][1..];
        Send(ReplyRegs(dest, Num(Field(payload, 1))), false);
      }
    }

    method AnswerClock()
      requires Valid() && currentProcess.Some?
      modifies this, pcbTable
      ensures Valid() && Abs() == AnswerWaitForClock(old(Abs()))
    {
      while blockedOnClock != []
        invariant Valid() && currentProcess.Some?
        invariant AnswerWaitForClock(Abs()) == AnswerWaitForClock(old(Abs()))
        decreases |blockedOnClock|
      {
        var dest := blockedOnClock[0];
        blockedOnClock := blockedOnClock[1..];
        Send(ReplyRegs(dest, Num(0)), false);
      }
    }
  }

  // ----- boot

  function Zeroed(): Sys {
    Sys(seq(MAXPROC, _ => FreshPcb(0)), CountDown(MAXPROC), 1, [], None, seq(MAXDEVICE, _ => []), [], true,
        CountDown(MAXMESSAGES), 0, 0, ZERO_REGS, map[], Running, seq(MAXPROC, _ => Log([], [])))
  }

  function Started(s: Sys): Sys
    requires s.free != []
  {
    var p := s.free[0];
    s.(pcbs := s.pcbs[p := FreshPcb(s.nextPid)], free := s.free[1..], nextPid := s.nextPid + 1,
       ready := s.ready + [p], count := s.count + 1,
       rings := s.rings && !InQueue(s, p), logs := s.logs[p := Log([], [])])
  }

  lemma BootedIs()
    ensures var s := Started(Zeroed());
      s.free != [] && Scheduler(Started(s)) == Booted(seq(MAXPROC, _ => FreshPcb(0)))
  {
    assert CountDown(MAXPROC) == [SSI] + CountDown(MAXPROC - 1)
      && CountDown(MAXPROC - 1) == [TEST] + CountDown(MAXPROC - 2);
    var l: Logs := seq(MAXPROC, _ => Log([], []));
    assert l[SSI := Log([], [])] == l && l[TEST := Log([], [])] == l;
  }

  // ----- the interrupt loop

  /** The lines that the handler looks at. */
  const INTERR := {IL_TIMER, IL_CPUTIMER, 17, 18, 19, 20, 21}

  lemma MaskedLines(s: Sys, irq: Irq)
    requires irq.Valid()
    ensures Served(s, irq.banks, irq.mip * INTERR) == LineIrqs(TimerIrqs(s, irq), irq, DEV_IL_START)
  {
    SameLines(TimerIrqs(s, irq), Irq(irq.mip * INTERR, irq.banks), irq, DEV_IL_START);
  }

  /** What is left to do for the lines in `mip`. */
  function Served(s: Sys, banks: seq<Bank>, mip: set<int>): Sys
    requires |banks| == N_EXT_IL
  {
    LineIrqs(TimerIrqs(s, Irq(mip, banks)), Irq(mip, banks), DEV_IL_START)
  }

  lemma {:induction false} SameLines(s: Sys, a: Irq, b: Irq, line: int)
    requires a.Valid() && b.Valid() && a.banks == b.banks && DEV_IL_START <= line <= DEV_IL_START + N_EXT_IL
    requires forall k | line <= k < DEV_IL_START + N_EXT_IL :: k in a.mip <==> k in b.mip
    ensures LineIrqs(s, a, line) == LineIrqs(s, b, line)
    decreases DEV_IL_START + N_EXT_IL - line
  {
    if line < DEV_IL_START + N_EXT_IL {
      SameLines(if line in a.mip then DeviceIrq(s, line, a.banks[line - DEV_IL_START]) else s, a, b, line + 1);
    }
  }

  lemma {:induction false} SkipLines(s: Sys, irq: Irq, from: int, line: int)
    requires irq.Valid() && DEV_IL_START <= from <= line <= DEV_IL_START + N_EXT_IL
    requires forall k | from <= k < line :: k !in irq.mip
    ensures LineIrqs(s, irq, from) == LineIrqs(s, irq, line)
    decreases line - from
  {
    if from < line {
      SkipLines(s, irq, from + 1, line);
    }
  }

  lemma NextTimer(s: Sys, banks: seq<Bank>, mip: set<int>)
    requires |banks| == N_EXT_IL && IL_TIMER in mip
    ensures Served(s, banks, mip) == Served(SendMessageToSsi(s, CLOCK_PAYLOAD), banks, mip - {IL_TIMER})
  {
    SameLines(TimerIrqs(s, Irq(mip, banks)), Irq(mip, banks), Irq(mip - {IL_TIMER}, banks), DEV_IL_START);
  }

  lemma NextPlt(s: Sys, banks: seq<Bank>, mip: set<int>)
    requires |banks| == N_EXT_IL && IL_TIMER !in mip && IL_CPUTIMER in mip
    ensures Served(s, banks, mip) == Served(PltIrq(s), banks, mip - {IL_CPUTIMER})
  {
    SameLines(PltIrq(s), Irq(mip, banks), Irq(mip - {IL_CPUTIMER}, banks), DEV_IL_START);
  }

  lemma NextLine(s: Sys, banks: seq<Bank>, mip: set<int>, line: int)
    requires |banks| == N_EXT_IL && IL_TIMER !in mip && IL_CPUTIMER !in mip
    requires DEV_IL_START <= line < DEV_IL_START + N_EXT_IL && line in mip
    requires forall k | DEV_IL_START <= k < line :: k !in mip
    ensures Served(s, banks, mip) == Served(DeviceIrq(s, line, banks[line - DEV_IL_START]), banks, mip - {line})
  {
    var s1 := DeviceIrq(s, line, banks[line - DEV_IL_START]);
    NextLineFrom(s, s1, banks, mip, line);
  }

  lemma NextLineFrom(s: Sys, s1: Sys, banks: seq<Bank>, mip: set<int>, line: int)
    requires |banks| == N_EXT_IL && DEV_IL_START <= line < DEV_IL_START + N_EXT_IL && line in mip
    requires forall k | DEV_IL_START <= k < line :: k !in mip
    requires s1 == DeviceIrq(s, line, banks[line - DEV_IL_START])
    ensures LineIrqs(s, Irq(mip, banks), DEV_IL_START) == LineIrqs(s1, Irq(mip - {line}, banks), DEV_IL_START)
  {
    SkipLines(s, Irq(mip, banks), DEV_IL_START, line);
    SkipLines(s1, Irq(mip - {line}, banks), DEV_IL_START, line + 1);
    SameLines(s1, Irq(mip, banks), Irq(mip - {line}, banks), line + 1);
  }

  lemma NoneLeft(s: Sys, banks: seq<Bank>)
    requires |banks| == N_EXT_IL
    ensures Served(s, banks, {}) == s
  {
    SkipLines(s, Irq({}, banks), DEV_IL_START, DEV_IL_START + N_EXT_IL);
  }

  // ----- the start of a termination

  /** Only the parent had `p` among its children. */
  lemma DetachKids(s0: Sys, p: Slot, t: Table)
    requires Forest(s0.pcbs, s0.free, s0.nextPid) && Live(s0, p) && Attached(s0.pcbs, s0.free, p)
    requires var q := s0.pcbs[p].parent;
      t == if q.Some? then s0.pcbs[q.value := s0.pcbs[q.value].(kids := Without(s0.pcbs[q.value].kids, p))] else s0.pcbs
    ensures t == DropKids(s0.pcbs, s0.free, {p})
  {
    forall q: Slot ensures t[q] == DropKids(s0.pcbs, s0.free, {p})[q] {
      if q !in s0.free && s0.pcbs[p].parent != Some(q) {
        assert FamilyOk(s0.pcbs, s0.free, s0.nextPid, q);
        MinusNothing(s0.pcbs[q].kids, {p});
      }
    }
  }

  lemma AllDropped(d: Queues, e: Queues, p: Slot)
    requires forall k | 0 <= k < MAXDEVICE :: e[k] == Without(d[k], p)
    ensures e == DropFromQueues(d, {p})
  {
  }

  function Dequeued(s: Sys, p: Slot): Sys {
    s.(ready := Without(s.ready, p), dev := DropFromQueues(s.dev, {p}), count := s.count - 1,
       soft := if InDevice(s, p) && s.pcbs[p].doIo then U32(s.soft - 1) else s.soft)
  }

  lemma DetachSum(s0: Sys, p: Slot)
    requires 0 <= s0.soft < TWO32
    ensures Partial(s0, p, []) == Dequeued(s0.(pcbs := DropKids(s0.pcbs, s0.free, {p})), p)
  {
    var t := DropKids(s0.pcbs, s0.free, {p});
    DequeuedParts(s0, p, t);
    PartialOne(s0, p, [p], {p}, Dequeued(s0.(pcbs := t), p));
  }

  lemma DequeuedParts(s0: Sys, p: Slot, t: Table)
    requires 0 <= s0.soft < TWO32 && t[p].doIo == s0.pcbs[p].doIo
    ensures var r := Dequeued(s0.(pcbs := t), p);
      && r.ready == Minus(s0.ready, {p}) && r.dev == DropFromQueues(s0.dev, {p}) && r.count == s0.count - 1
      && r.soft == U32(s0.soft - |Discounted(s0, {p})|) && r.pcbs == t && r.free == s0.free && SameRest(s0, r)
  {
    DetachSoft(s0, p);
    DequeuedSoft(s0, p, t);
  }

  lemma PartialOne(s0: Sys, p: Slot, freed: seq<Slot>, gone: set<Slot>, r: Sys)
    requires gone == {p} && freed == [p]
    requires r.pcbs == DropKids(s0.pcbs, s0.free, gone) && r.ready == Minus(s0.ready, gone)
    requires r.dev == DropFromQueues(s0.dev, gone) && r.count == s0.count - |freed|
    requires r.soft == U32(s0.soft - |Discounted(s0, gone)|) && r.free == s0.free && SameRest(s0, r)
    ensures Partial(s0, p, []) == r
  {
    assert Elems(freed) == gone;
    PurgeIs(s0, freed, gone, r);
    assert [p] + [] == freed && [] + s0.free == s0.free;
  }

  lemma DequeuedSoft(s0: Sys, p: Slot, t: Table)
    requires t[p].doIo == s0.pcbs[p].doIo
    ensures Dequeued(s0.(pcbs := t), p).soft == if InDevice(s0, p) && s0.pcbs[p].doIo then U32(s0.soft - 1) else s0.soft
  {
  }

  lemma PurgeIs(s0: Sys, freed: seq<Slot>, gone: set<Slot>, r: Sys)
    requires gone == Elems(freed)
    requires r.pcbs == DropKids(s0.pcbs, s0.free, gone) && r.ready == Minus(s0.ready, gone)
    requires r.dev == DropFromQueues(s0.dev, gone) && r.count == s0.count - |freed|
    requires r.soft == U32(s0.soft - |Discounted(s0, gone)|) && r.free == s0.free && SameRest(s0, r)
    ensures Purge(s0, freed).(free := s0.free) == r
  {
  }

  lemma DetachSoft(s0: Sys, p: Slot)
    requires 0 <= s0.soft < TWO32
    ensures U32(s0.soft - |Discounted(s0, {p})|) ==
      if InDevice(s0, p) && s0.pcbs[p].doIo then U32(s0.soft - 1) else s0.soft
  {
    assert Discounted(s0, {p}) == if InDevice(s0, p) && s0.pcbs[p].doIo then {p} else {};
  }
}
