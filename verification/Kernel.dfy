/** The nucleus on values: its state, and what each entry point does to it. */
module Kernel {
  import opened Sequences
  import opened Devices

  const MAXPROC := 50
  const MAXMESSAGES := 50

  /** An entry of pcbTable, an entry of msgTable. */
  type Slot = i: nat | i < MAXPROC
  type MsgId = i: nat | i < MAXMESSAGES

  /** A 32-bit word: the address of a pcbTable entry, or any other number. */
  datatype Word = Num(n: int) | PcbPtr(slot: Slot)

  const ANYMESSAGE := Num(0)
  const PARENT := Num(0)
  const INTERRUPT_HANDLER_MSG := Num(1)
  const SSI_FAKE_ADDR := Num(2)
  const MSGNOGOOD := Num(-1)
  const DEST_NOT_EXIST := Num(-2)
  const SENDMESSAGE := Num(-1)
  const RECEIVEMESSAGE := Num(-2)
  const DOIO := 3
  const CLOCKWAIT := 5

  /** initPcbs pushes entries 0..49 onto the free list, so the first two allocations return 49 and 48. */
  const SSI: Slot := 49
  const TEST: Slot := 48

  datatype Regs = Regs(a0: Word, a1: Word, a2: Word, pc: int)

  datatype Packet = Packet(sender: Word, payload: Word)

  datatype Msg = Msg(id: MsgId, packet: Packet)

  datatype Pcb = Pcb(
    parent: Option<Slot>,
    kids: seq<Slot>,
    regs: Regs,
    inbox: seq<Msg>,
    support: bool,
    doIo: bool,
    pid: int)

  type Table = t: seq<Pcb> | |t| == MAXPROC
    witness seq(MAXPROC, _ => Pcb(None, [], Regs(Num(0), Num(0), Num(0), 0), [], false, false, 0))

  type Queues = q: seq<seq<Slot>> | |q| == MAXDEVICE
    witness seq(MAXDEVICE, _ => [])

  /** What was sent to, and received by, the process that now occupies a table entry. Not kernel data:
      only properties mention it. */
  datatype Log = Log(sent: seq<Packet>, rcvd: seq<Packet>)

  type Logs = l: seq<Log> | |l| == MAXPROC witness seq(MAXPROC, _ => Log([], []))

  /** `Waiting` is the scheduler's WAIT with interrupts enabled; `Halted` and `Panicked` are final. */
  datatype Mode = Running | Waiting | Halted | Panicked

  /** `rings`: the p_io links still form the queues `dev` and `clock`. It is lost when an entry that is linked there
      is allocated, because allocPcb re-initialises its p_io. */
  datatype Sys = Sys(
    pcbs: Table,
    free: seq<Slot>,
    nextPid: int,
    ready: seq<Slot>,
    current: Option<Slot>,
    dev: Queues,
    clock: seq<Slot>,
    rings: bool,
    msgFree: seq<MsgId>,
    count: int,
    soft: int,
    bios: Regs,
    mem: map<Word, Word>,
    mode: Mode,
    logs: Logs)

  function SetPcb(s: Sys, p: Slot, e: Pcb): Sys {
    s.(pcbs := s.pcbs[p := e])
  }

  function Sent(l: Logs, p: Slot, m: Packet): Logs {
    l[p := l[p].(sent := l[p].sent + [m])]
  }

  function Received(l: Logs, p: Slot, m: Packet): Logs {
    l[p := l[p].(rcvd := l[p].rcvd + [m])]
  }

  function LogSent(s: Sys, p: Slot, m: Packet): Sys {
    s.(logs := Sent(s.logs, p, m))
  }

  function LogReceived(s: Sys, p: Slot, m: Packet): Sys {
    s.(logs := Received(s.logs, p, m))
  }

  /** The name under which processes know a sender: the SSI's real address is never disclosed. */
  function Public(w: Word): Word {
    if w == PcbPtr(SSI) then SSI_FAKE_ADDR else w
  }

  predicate IsPcbValid(s: Sys, w: Word) {
    w.PcbPtr? && w.slot !in s.free
  }

  predicate Live(s: Sys, p: Slot) {
    p !in s.free
  }

  /** Allocated, not running, not ready. That such a process was saved in a RECEIVE is part of `Runs.Inv`. */
  predicate Blocked(s: Sys, p: Slot) {
    p !in s.free && p !in s.ready && s.current != Some(p)
  }

  /** A RECEIVE for `filter` accepts a message from `sender`. */
  predicate Accepts(filter: Word, sender: Word) {
    filter == ANYMESSAGE || filter == sender
  }

  /** The first message that `filter` accepts, and the inbox without it. */
  function PopMessage(inbox: seq<Msg>, filter: Word): (r: (Option<Msg>, seq<Msg>)) {
    if inbox == [] then (None, inbox)
    else if Accepts(filter, inbox[0].packet.sender) then (Some(inbox[0]), inbox[1..])
    else
      var (m, rest) := PopMessage(inbox[1..], filter);
      (m, [inbox[0]] + rest)
  }

  // ----- message passing (phase2/exceptions.c)

  function DeliverRegs(r: Regs, m: Packet): Regs {
    r.(a0 := Public(m.sender), pc := r.pc + 4)
  }

  function DeliverMem(mem: map<Word, Word>, r: Regs, m: Packet): map<Word, Word> {
    if r.a2 != Num(0) then mem[r.a2 := m.payload] else mem
  }

  predicate IsWaitingFor(s: Sys, dest: Slot, sender: Word) {
    dest !in s.ready && s.current != Some(dest) && Accepts(s.pcbs[dest].regs.a1, Public(sender))
  }

  /** The rendezvous: `dest` is woken and handed the message, which goes straight back to the pool. */
  function Handover(s: Sys, dest: Slot, m: Msg): Sys {
    var p := s.pcbs[dest];
    var s1 := SetPcb(s, dest, p.(regs := DeliverRegs(p.regs, m.packet), doIo := false));
    LogReceived(s1.(ready := s.ready + [dest],
                    soft := if p.doIo then U32(s.soft - 1) else s.soft,
                    mem := DeliverMem(s.mem, p.regs, m.packet),
                    msgFree := [m.id] + s.msgFree), dest, m.packet)
  }

  function Enqueue(s: Sys, dest: Slot, m: Msg): Sys {
    SetPcb(s, dest, s.pcbs[dest].(inbox := s.pcbs[dest].inbox + [m]))
  }

  function MarkRequest(s: Sys, dest: Slot, sender: Word, softblocking: bool): Sys {
    if dest == SSI && sender != INTERRUPT_HANDLER_MSG && softblocking && s.current.Some? then
      SetPcb(s, s.current.value, s.pcbs[s.current.value].(doIo := true))
    else s
  }

  function SendMessage(s: Sys, dest: Slot, payload: Word, sender: Word, softblocking: bool): (Sys, Word) {
    if s.msgFree == [] then (s, MSGNOGOOD)
    else
      var m := Msg(s.msgFree[0], Packet(Public(sender), payload));
      var s1 := LogSent(MarkRequest(s.(msgFree := s.msgFree[1..]), dest, sender, softblocking), dest, m.packet);
      (if IsWaitingFor(s1, dest, sender) then Handover(s1, dest, m) else Enqueue(s1, dest, m), Num(0))
  }

  function SendMessageToSsi(s: Sys, payload: int): Sys {
    SendMessage(s, SSI, Num(payload), INTERRUPT_HANDLER_MSG, false).0
  }

  function Target(s: Sys, p: Slot, dest: Word): Word {
    if dest == SSI_FAKE_ADDR then PcbPtr(SSI)
    else if dest == PARENT then
      if s.pcbs[p].parent.Some? then PcbPtr(s.pcbs[p].parent.value) else Num(0)
    else dest
  }

  /** SYSCALL(SENDMESSAGE) by the running process, whose registers are `r`. */
  function SyscallSend(s: Sys, r: Regs, softblocking: bool): Sys
    requires s.current.Some?
  {
    var target := Target(s, s.current.value, r.a1);
    var (s1, ret) :=
      if IsPcbValid(s, target) then SendMessage(s, target.slot, r.a2, PcbPtr(s.current.value), softblocking)
      else (s, DEST_NOT_EXIST);
    s1.(bios := r.(a0 := ret, pc := r.pc + 4))
  }

  /** The running process takes `m` out of its inbox. */
  function TakeMessage(s: Sys, p: Slot, r: Regs, m: Msg, rest: seq<Msg>): Sys {
    LogReceived(SetPcb(s, p, s.pcbs[p].(inbox := rest, doIo := false))
                .(bios := DeliverRegs(r, m.packet), mem := DeliverMem(s.mem, r, m.packet),
                  msgFree := [m.id] + s.msgFree),
                p, m.packet)
  }

  function BlockSys(s: Sys, p: Slot, r: Regs): Sys {
    SetPcb(s, p, s.pcbs[p].(regs := r))
    .(soft := if s.pcbs[p].doIo then U32(s.soft + 1) else s.soft, current := None, bios := r)
  }

  /** SYSCALL(RECEIVEMESSAGE) by the running process. */
  function SyscallReceive(s: Sys, r: Regs): Sys
    requires s.current.Some?
  {
    var p := s.current.value;
    var (m, rest) := PopMessage(s.pcbs[p].inbox, r.a1);
    if m.Some? then TakeMessage(s, p, r, m.value, rest) else BlockSys(s, p, r)
  }

  // ----- the scheduler (phase2/scheduler.c)

  function Dispatch(s: Sys): Sys
    requires s.ready != []
  {
    s.(current := Some(s.ready[0]), ready := s.ready[1..], bios := s.pcbs[s.ready[0]].regs, mode := Running)
  }

  function Scheduler(s: Sys): Sys {
    if s.mode == Panicked then s
    else if s.current.Some? then s.(mode := Running)
    else if s.count == 1 then s.(mode := Halted)
    else if s.ready != [] then Dispatch(s)
    else if s.soft > 0 then s.(mode := Waiting)
    else s.(mode := Panicked)
  }

  // ----- interrupts (phase2/interrupts.c)

  const IL_TIMER := 3
  const IL_CPUTIMER := 7

  /** Pending lines, and the registers of the eight devices of each external line. */
  datatype Irq = Irq(mip: set<int>, banks: seq<Bank>) {
    predicate Valid() {
      |banks| == N_EXT_IL
    }
  }

  function FirstPending(bank: Bank, from: nat): (r: nat)
    requires from <= N_DEV_PER_IL
    ensures from <= r <= N_DEV_PER_IL
    ensures forall k :: from <= k < r ==> !bank[k].pending
    ensures r < N_DEV_PER_IL ==> bank[r].pending
    decreases N_DEV_PER_IL - from
  {
    if from == N_DEV_PER_IL || bank[from].pending then from else FirstPending(bank, from + 1)
  }

  function PltIrq(s: Sys): Sys {
    if s.current.Some? then
      var p := s.current.value;
      SetPcb(s, p, s.pcbs[p].(regs := s.bios)).(ready := s.ready + [p], current := None)
    else s
  }

  function DeviceIrq(s: Sys, line: int, bank: Bank): Sys {
    var n := FirstPending(bank, 0);
    if s.mode == Panicked then s
    else if n == N_DEV_PER_IL then s.(mode := Panicked)
    else SendMessageToSsi(s, IrqPayload(line, n, bank[n]))
  }

  function TimerIrqs(s: Sys, irq: Irq): Sys {
    var s1 := if IL_TIMER in irq.mip then SendMessageToSsi(s, CLOCK_PAYLOAD) else s;
    if IL_CPUTIMER in irq.mip then PltIrq(s1) else s1
  }

  /** The external lines from `line` on, lowest first. */
  function LineIrqs(s: Sys, irq: Irq, line: int): Sys
    requires irq.Valid() && DEV_IL_START <= line <= DEV_IL_START + N_EXT_IL
    decreases DEV_IL_START + N_EXT_IL - line
  {
    if line == DEV_IL_START + N_EXT_IL then s
    else LineIrqs(if line in irq.mip then DeviceIrq(s, line, irq.banks[line - DEV_IL_START]) else s, irq, line + 1)
  }

  function InterruptHandler(s: Sys, r: Regs, irq: Irq): Sys
    requires irq.Valid()
  {
    Scheduler(LineIrqs(TimerIrqs(s.(bios := r), irq), irq, DEV_IL_START))
  }

  // ----- termination (phase2/utils.c)

  /** The children of `p` are live, name `p` as parent and are younger. */
  predicate FamilyOk(t: Table, free: seq<Slot>, bound: int, p: Slot) {
    && t[p].pid < bound
    && NoDup(t[p].kids)
    && forall c | c in t[p].kids :: c !in free && c != SSI && t[c].parent == Some(p) && t[p].pid < t[c].pid
  }

  ghost predicate Forest(t: Table, free: seq<Slot>, bound: int) {
    forall p: Slot {:trigger FamilyOk(t, free, bound, p)} | p !in free :: FamilyOk(t, free, bound, p)
  }

  /** The entries that terminating `p` frees, last freed first: every child's progeny is freed before `p`. */
  ghost function Freed(t: Table, free: seq<Slot>, bound: int, p: Slot): seq<Slot>
    requires Forest(t, free, bound) && p !in free
    decreases bound - t[p].pid, 1, 0
  {
    assert FamilyOk(t, free, bound, p);
    [p] + FreedKids(t, free, bound, p, t[p].kids)
  }

  ghost function FreedKids(t: Table, free: seq<Slot>, bound: int, p: Slot, kids: seq<Slot>): seq<Slot>
    requires Forest(t, free, bound) && p !in free
    requires forall c | c in kids :: c in t[p].kids
    decreases bound - t[p].pid, 0, |kids|
  {
    if kids == [] then []
    else
      assert FamilyOk(t, free, bound, p) && kids[0] in t[p].kids;
      assert FamilyOk(t, free, bound, kids[0]);
      FreedKids(t, free, bound, p, kids[1..]) + Freed(t, free, bound, kids[0])
  }

  predicate InSome(d: Queues, p: Slot) {
    exists n | 0 <= n < MAXDEVICE :: p in d[n]
  }

  predicate InDevice(s: Sys, p: Slot) {
    InSome(s.dev, p)
  }

  predicate InQueue(s: Sys, p: Slot) {
    InDevice(s, p) || p in s.clock
  }

  function DropFromQueues(d: seq<seq<Slot>>, gone: set<Slot>): (r: seq<seq<Slot>>)
    ensures |r| == |d|
    ensures forall k :: 0 <= k < |d| ==> r[k] == Minus(d[k], gone)
  {
    if d == [] then [] else [Minus(d[0], gone)] + DropFromQueues(d[1..], gone)
  }

  /** `t` starts at table entry `from`. */
  function DropKids(t: seq<Pcb>, free: seq<Slot>, gone: set<Slot>, from: nat := 0): (r: seq<Pcb>)
    requires from + |t| == MAXPROC
    ensures |r| == |t|
    ensures forall k {:trigger r[k]} :: 0 <= k < |t| ==>
      r[k] == if (from + k) as Slot in free then t[k] else t[k].(kids := Minus(t[k].kids, gone))
    decreases |t|
  {
    if t == [] then []
    else
      var q: Slot := from;
      [if q in free then t[0] else t[0].(kids := Minus(t[0].kids, gone))] + DropKids(t[1..], free, gone, from + 1)
  }

  /** The killed processes whose flag is subtracted from the soft-block count. */
  function Discounted(s: Sys, gone: set<Slot>): set<Slot> {
    set p: Slot | p in gone && InDevice(s, p) && s.pcbs[p].doIo
  }

  /** The state without the processes `freed`, which go back to the free list. */
  function Purge(s: Sys, freed: seq<Slot>): Sys {
    var gone := Elems(freed);
    s.(pcbs := DropKids(s.pcbs, s.free, gone),
       free := freed + s.free,
       ready := Minus(s.ready, gone),
       dev := DropFromQueues(s.dev, gone),
       count := s.count - |freed|,
       soft := U32(s.soft - |Discounted(s, gone)|))
  }

  ghost function Terminated(s: Sys, p: Slot): Sys
    requires Forest(s.pcbs, s.free, s.nextPid) && Live(s, p)
  {
    Purge(s, Freed(s.pcbs, s.free, s.nextPid, p))
  }

  ghost function TerminateProcess(s: Sys, w: Word): Sys
    requires Forest(s.pcbs, s.free, s.nextPid)
  {
    if w == PcbPtr(SSI) then s.(mode := Panicked)
    else if !IsPcbValid(s, w) then s
    else Terminated(s, w.slot)
  }

  ghost function PassUpOrDie(s: Sys, r: Regs): Sys
    requires Forest(s.pcbs, s.free, s.nextPid) && s.current.Some?
  {
    var p := s.current.value;
    if s.pcbs[p].support then s.(bios := r)
    else
      var t := TerminateProcess(s.(bios := r), PcbPtr(p));
      if t.mode == Panicked then t else Scheduler(t.(current := None))
  }

  // ----- services of the SSI (phase2/ssi.c)

  function CreateProcess(s: Sys, sender: Slot, state: Regs, support: bool): Sys {
    if s.free == [] then s
    else
      var p := s.free[0];
      var child := Pcb(Some(sender), [], state, [], support, false, s.nextPid);
      var t: Table := s.pcbs[p := child];
      s.(pcbs := t[sender := t[sender].(kids := t[sender].kids + [p])],
         free := s.free[1..], nextPid := s.nextPid + 1, ready := s.ready + [p], count := s.count + 1,
         rings := s.rings && !InQueue(s, p), logs := s.logs[p := Log([], [])])
  }

  function DoIo(s: Sys, sender: Slot, n: nat): Sys
    requires n < MAXDEVICE
  {
    SetPcb(s, sender, s.pcbs[sender].(doIo := true)).(dev := s.dev[n := Without(s.dev[n], sender) + [sender]])
  }

  function WaitForClock(s: Sys, sender: Slot): Sys {
    s.(clock := s.clock + [sender])
  }

  function ReplyRegs(dest: Slot, payload: Word): Regs {
    Regs(SENDMESSAGE, PcbPtr(dest), payload, 0)
  }

  function AnswerDoIo(s: Sys, payload: int): Sys
    requires s.current.Some? && 0 <= AnswerQueue(payload) < MAXDEVICE
  {
    var n := AnswerQueue(payload);
    if s.dev[n] == [] then s
    else SyscallSend(s.(dev := s.dev[n := s.dev[n][1..]]), ReplyRegs(s.dev[n][0], Num(Field(payload, 1))), false)
  }

  function AnswerWaitForClock(s: Sys): (r: Sys)
    requires s.current.Some?
    decreases |s.clock|
  {
    if s.clock == [] then s
    else
      var s1 := SyscallSend(s.(clock := s.clock[1..]), ReplyRegs(s.clock[0], Num(0)), false);
      AnswerWaitForClock(s1)
  }

  // ----- the initial state (phase2/initial.c)

  const ZERO_REGS := Regs(Num(0), Num(0), Num(0), 0)

  function FreshPcb(pid: int): Pcb {
    Pcb(None, [], ZERO_REGS, [], false, false, pid)
  }

  /** n-1, ..., 1, 0: the order in which initPcbs and initMsgs leave the free lists. */
  function CountDown(n: nat): (r: seq<nat>)
    ensures |r| == n && forall k :: 0 <= k < n ==> r[k] == n - 1 - k
  {
    if n == 0 then [] else [n - 1] + CountDown(n - 1)
  }

  function Booted(t: Table): Sys {
    Scheduler(Sys(t[SSI := FreshPcb(1)][TEST := FreshPcb(2)], CountDown(MAXPROC - 2), 3, [SSI, TEST], None,
                  seq(MAXDEVICE, _ => []), [], true, CountDown(MAXMESSAGES), 2, 0, ZERO_REGS, map[], Running,
                  seq(MAXPROC, _ => Log([], []))))
  }
}
