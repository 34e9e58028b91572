/** What an interrupt tells the SSI: one message for every pending line, as long as there are messages. */
module Reports {
  import opened Sequences
  import opened Devices
  import opened Kernel
  import opened Structure
  import opened Runs
  import opened Syscalls
  import opened Verdict

  function Report(payload: int): Packet {
    Packet(Num(1), Num(payload))
  }

  /** The message for one line, if it is pending: for the lowest device that raised it. */
  function LineReport(irq: Irq, line: int): seq<Packet>
    requires irq.Valid() && DEV_IL_START <= line < DEV_IL_START + N_EXT_IL
  {
    var bank := irq.banks[line - DEV_IL_START];
    var n := FirstPending(bank, 0);
    if line in irq.mip && n < N_DEV_PER_IL then [Report(IrqPayload(line, n, bank[n]))] else []
  }

  /** The messages for the external lines from `line` on, lowest first. */
  function DeviceReports(irq: Irq, line: int): seq<Packet>
    requires irq.Valid() && DEV_IL_START <= line <= DEV_IL_START + N_EXT_IL
    decreases DEV_IL_START + N_EXT_IL - line
  {
    if line == DEV_IL_START + N_EXT_IL then [] else LineReport(irq, line) + DeviceReports(irq, line + 1)
  }

  /** The timer's message comes first. */
  function AllReports(irq: Irq): seq<Packet>
    requires irq.Valid()
  {
    (if 3 in irq.mip then [Report(CLOCK_PAYLOAD)] else []) + DeviceReports(irq, DEV_IL_START)
  }

  /** The SSI is in a RECEIVE that takes the interrupt handler's messages. */
  predicate Listens(s: Sys) {
    Blocked(s, SSI) && (s.pcbs[SSI].regs.a1 == Num(0) || s.pcbs[SSI].regs.a1 == Num(1))
  }

  /** How many messages the SSI can be sent: handing one over costs no message structure, but takes one to be free. */
  function Room(s: Sys): nat {
    |s.msgFree| + if Listens(s) && s.msgFree != [] then 1 else 0
  }

  function UpTo(l: seq<Packet>, k: nat): seq<Packet> {
    if k < |l| then l[..k] else l
  }

  /** `l` was sent to the SSI, as far as there was room, and nothing to anybody else. */
  ghost predicate Told(s: Sys, n: Sys, l: seq<Packet>) {
    && (forall p: Slot :: n.logs[p].sent == s.logs[p].sent + if p == SSI then UpTo(l, Room(s)) else [])
    && Room(n) == if |l| < Room(s) then Room(s) - |l| else 0
  }

  lemma ToldTrans(s: Sys, m: Sys, n: Sys, a: seq<Packet>, b: seq<Packet>)
    requires Told(s, m, a) && Told(m, n, b)
    ensures Told(s, n, a + b)
  {
    assert UpTo(a + b, Room(s)) == UpTo(a, Room(s)) + UpTo(b, Room(m));
  }

  lemma SendTold(s: Sys, payload: int)
    requires Live(s, SSI)
    ensures var n := SendMessageToSsi(s, payload);
      Told(s, n, [Report(payload)]) && n.free == s.free && n.mode == s.mode
  {
    if s.msgFree != [] {
      SendWakes(s, SSI, Num(payload), INTERRUPT_HANDLER_MSG, false);
    }
    SendFrame(s, SSI, Num(payload), INTERRUPT_HANDLER_MSG, false);
  }

  lemma NothingTold(s: Sys, n: Sys)
    requires n.logs == s.logs && n.msgFree == s.msgFree && Listens(n) == Listens(s)
    ensures Told(s, n, [])
  {
  }

  function AfterLine(s: Sys, irq: Irq, line: int): Sys
    requires irq.Valid() && DEV_IL_START <= line < DEV_IL_START + N_EXT_IL
  {
    if line in irq.mip then DeviceIrq(s, line, irq.banks[line - DEV_IL_START]) else s
  }

  lemma LineTold(s: Sys, irq: Irq, line: int)
    requires irq.Valid() && DEV_IL_START <= line < DEV_IL_START + N_EXT_IL
    requires Live(s, SSI) && s.mode != Panicked && !Spurious(irq, line)
    ensures var n := AfterLine(s, irq, line); Told(s, n, LineReport(irq, line)) && n.free == s.free && n.mode == s.mode
  {
    if line in irq.mip {
      var bank := irq.banks[line - DEV_IL_START];
      var n := FirstPending(bank, 0);
      SendTold(s, IrqPayload(line, n, bank[n]));
    } else {
      NothingTold(s, s);
    }
  }

  lemma {:induction false} LinesTold(s: Sys, irq: Irq, line: int)
    requires Live(s, SSI) && s.mode != Panicked && irq.Valid() && !(exists k | line <= k :: Spurious(irq, k))
    requires DEV_IL_START <= line <= DEV_IL_START + N_EXT_IL
    ensures Told(s, LineIrqs(s, irq, line), DeviceReports(irq, line))
    decreases DEV_IL_START + N_EXT_IL - line
  {
    if line == DEV_IL_START + N_EXT_IL {
      NothingTold(s, s);
    } else {
      var s1 := AfterLine(s, irq, line);
      LineTold(s, irq, line);
      LinesTold(s1, irq, line + 1);
      ToldTrans(s, s1, LineIrqs(s1, irq, line + 1), LineReport(irq, line), DeviceReports(irq, line + 1));
    }
  }

  lemma TimersTold(s: Sys, irq: Irq)
    requires Live(s, SSI)
    ensures Told(s, TimerIrqs(s, irq), if 3 in irq.mip then [Report(CLOCK_PAYLOAD)] else [])
    ensures Live(TimerIrqs(s, irq), SSI) && TimerIrqs(s, irq).mode == s.mode
  {
    var s1 := if IL_TIMER in irq.mip then SendMessageToSsi(s, CLOCK_PAYLOAD) else s;
    var l := if 3 in irq.mip then [Report(CLOCK_PAYLOAD)] else [];
    SendTold(s, CLOCK_PAYLOAD);
    NothingTold(s, s);
    PltTold(s1);
    ToldTrans(s, s1, PltIrq(s1), l, []);
    assert l + [] == l;
  }

  lemma PltTold(s: Sys)
    ensures Told(s, PltIrq(s), []) && PltIrq(s).free == s.free && PltIrq(s).mode == s.mode
  {
    NothingTold(s, PltIrq(s));
  }

  lemma PendingTold(s: Sys, irq: Irq)
    requires Live(s, SSI) && s.mode != Panicked && irq.Valid() && !(exists line :: Spurious(irq, line))
    ensures Told(s, LineIrqs(TimerIrqs(s, irq), irq, DEV_IL_START), AllReports(irq))
  {
    var s1 := TimerIrqs(s, irq);
    TimersTold(s, irq);
    LinesTold(s1, irq, DEV_IL_START);
    ToldTrans(s, s1, LineIrqs(s1, irq, DEV_IL_START), if 3 in irq.mip then [Report(CLOCK_PAYLOAD)] else [],
              DeviceReports(irq, DEV_IL_START));
  }

  lemma SchedulerTold(s: Sys, s0: Sys, h: Sys, l: seq<Packet>)
    requires s0 == s.(bios := s0.bios) && Told(s0, h, l)
    ensures forall p: Slot :: Scheduler(h).logs[p].sent == s.logs[p].sent + if p == SSI then UpTo(l, Room(s)) else []
  {
    assert Room(s0) == Room(s);
  }

  /** Unless it panics because nobody raised a pending line, an interrupt sends the SSI the timer's message, if it is
      pending, then one for each pending line in order of the lines, until messages run out, and nobody else any. */
  lemma InterruptReports(s: Sys, r: Regs, irq: Irq)
    requires Inv(s) && Possible(s, Interrupt(r, irq)) && !(exists line :: Spurious(irq, line))
    ensures var n := Step(s, Interrupt(r, irq));
      forall p: Slot :: n.logs[p].sent == s.logs[p].sent + if p == SSI then UpTo(AllReports(irq), Room(s)) else []
  {
    var s0 := s.(bios := r);
    PendingTold(s0, irq);
    SchedulerTold(s, s0, LineIrqs(TimerIrqs(s0, irq), irq, DEV_IL_START), AllReports(irq));
  }

  // ----- the SSI's side

  /** What the SSI does with a message of the interrupt handler; it panics for an unknown service. */
  function ServiceFor(payload: int): Option<Event> {
    var service := Field(payload, 0);
    if service == 0 then Some(SsiAnswerDevice(payload)) else if service == 1 then Some(SsiAnswerClock) else None
  }

  /** The timer's message is served as a tick, a device's as that device's, and the queue named there exists. */
  lemma ServedAs(line: int, number: int, reg: DevReg)
    requires DEV_IL_START <= line < DEV_IL_START + N_EXT_IL && 0 <= number < N_DEV_PER_IL
    ensures ServiceFor(CLOCK_PAYLOAD) == Some(SsiAnswerClock)
    ensures var p := IrqPayload(line, number, reg);
      ServiceFor(p) == Some(SsiAnswerDevice(p)) && 0 <= AnswerQueue(p) < MAXDEVICE
  {
    PackUnpack(1, 0, 0, 0);
    IrqFields(line, number, reg);
  }
}
