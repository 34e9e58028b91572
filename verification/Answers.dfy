/** What the SSI's answers to devices and to the clock achieve. */
module Answers {
  import opened Sequences
  import opened Devices
  import opened Kernel
  import opened Structure
  import opened Mail

  /** `p` is blocked in a RECEIVE that takes a message from the SSI. */
  predicate AwaitsSsi(s: Sys, p: Slot) {
    Blocked(s, p) && (s.pcbs[p].regs.a1 == Num(0) || s.pcbs[p].regs.a1 == Num(2))
  }

  /** `p` woken by the SSI with `payload`. */
  function Woken(e: Pcb): Pcb {
    e.(regs := e.regs.(a0 := SSI_FAKE_ADDR, pc := e.regs.pc + 4), doIo := false)
  }

  /** A reply of the running SSI to a process that awaits it: one wakeup, no message structure used. */
  lemma ReplyWakes(s: Sys, p: Slot, payload: Word)
    requires s.current == Some(SSI) && AwaitsSsi(s, p) && s.msgFree != []
    ensures var r := SyscallSend(s, ReplyRegs(p, payload), false);
      && r.ready == s.ready + [p] && r.msgFree == s.msgFree && r.free == s.free && r.current == s.current
      && r.pcbs == s.pcbs[p := Woken(s.pcbs[p])]
      && r.logs == s.logs[p := Log(s.logs[p].sent + [Packet(SSI_FAKE_ADDR, payload)],
                                   s.logs[p].rcvd + [Packet(SSI_FAKE_ADDR, payload)])]
      && Delivered(s.mem, s.pcbs[p].regs.a2, payload, r.mem)
      && r.dev == s.dev && r.clock == s.clock
  {
    assert [s.msgFree[0]] + s.msgFree[1..] == s.msgFree;
  }

  /** The completion interrupt of a (sub)device takes the head of exactly that (sub)device's queue and sends it, if it
      is alive, the status, and nobody else anything. A head that awaits the SSI is woken with the status; no other
      process or queue is touched. */
  lemma DeviceAnswer(s: Sys, d: SubDevice, reg: DevReg)
    requires s.current == Some(SSI) && d.Valid()
    requires d.line == 21 ==> (d.transm <==> reg.transmStatus % 256 != 1 && reg.transmStatus % 256 != 3)
    ensures 0 <= CommAddToNumber(d.CommandAddr()) < MAXDEVICE
    ensures 0 <= AnswerQueue(IrqPayload(d.line, d.number, reg)) < MAXDEVICE
    ensures var n, r := CommAddToNumber(d.CommandAddr()), AnswerDoIo(s, IrqPayload(d.line, d.number, reg));
      var status := if d.line != 21 then reg.status else if d.transm then reg.transmStatus else reg.recvStatus;
      && (s.dev[n] == [] ==> r == s)
      && (s.dev[n] != [] ==>
            var p := s.dev[n][0];
            && r.dev == s.dev[n := s.dev[n][1..]] && r.clock == s.clock
            && OneAnswer(s, r, p, Num(status % 256)))
      && (s.dev[n] != [] && s.msgFree != [] && AwaitsSsi(s, s.dev[n][0]) ==>
            var p := s.dev[n][0];
            && r.ready == s.ready + [p] && r.msgFree == s.msgFree && r.clock == s.clock
            && r.pcbs == s.pcbs[p := Woken(s.pcbs[p])]
            && Delivered(s.mem, s.pcbs[p].regs.a2, Num(status % 256), r.mem))
  {
    RoutingRoundTrip(d, reg);
    var n := CommAddToNumber(d.CommandAddr());
    if s.dev[n] != [] {
      var p := s.dev[n][0];
      var s0 := s.(dev := s.dev[n := s.dev[n][1..]]);
      SyscallSendFrame(s0, ReplyRegs(p, Num(StatusCode(d.line, reg))), false);
      ReplyLogged(s0, p, Num(StatusCode(d.line, reg)));
      if s.msgFree != [] && AwaitsSsi(s, p) {
        ReplyWakes(s0, p, Num(StatusCode(d.line, reg)));
      }
    }
  }

  /** `r` is `s` after the waiters `woken` were answered, in that order. */
  ghost predicate AllWoken(s: Sys, woken: seq<Slot>, r: Sys) {
    && r.ready == s.ready + woken && r.msgFree == s.msgFree && r.dev == s.dev && r.current == s.current
    && forall p: Slot {:trigger r.pcbs[p]} :: r.pcbs[p] == if p in woken then Woken(s.pcbs[p]) else s.pcbs[p]
  }

  ghost predicate AllAwait(s: Sys, l: seq<Slot>) {
    NoDup(l) && forall p | p in l :: AwaitsSsi(s, p)
  }

  lemma ClockWakesOne(s: Sys)
    requires s.current == Some(SSI) && s.msgFree != [] && s.clock != [] && AllAwait(s, s.clock)
    ensures var r := SyscallSend(s.(clock := s.clock[1..]), ReplyRegs(s.clock[0], Num(0)), false);
      r.clock == s.clock[1..] && AllWoken(s, [s.clock[0]], r) && AllAwait(r, r.clock)
  {
    var p := s.clock[0];
    assert p in s.clock && s.clock == [p] + s.clock[1..];
    var s0 := s.(clock := s.clock[1..]);
    assert AwaitsSsi(s, p) && AwaitsSsi(s0, p);
    ReplyWakes(s0, p, Num(0));
    var r := SyscallSend(s0, ReplyRegs(p, Num(0)), false);
    forall q | q in r.clock ensures AwaitsSsi(r, q) {
      assert q in s.clock && q != p;
    }
  }

  lemma WokenTwice(s: Sys, p: Slot, s1: Sys, rest: seq<Slot>, r: Sys)
    requires AllWoken(s, [p], s1) && AllWoken(s1, rest, r) && p !in rest
    ensures AllWoken(s, [p] + rest, r)
  {
    assert s.ready + [p] + rest == s.ready + ([p] + rest);
    forall q: Slot ensures r.pcbs[q] == if q in [p] + rest then Woken(s.pcbs[q]) else s.pcbs[q] {
      assert r.pcbs[q] == (if q in rest then Woken(s1.pcbs[q]) else s1.pcbs[q])
        && s1.pcbs[q] == if q in [p] then Woken(s.pcbs[q]) else s.pcbs[q];
    }
  }

  /** A clock tick wakes all waiters that await the SSI, in the order in which they asked, and costs no message. */
  lemma {:induction false} ClockWakesAll(s: Sys)
    requires s.current == Some(SSI) && s.msgFree != [] && AllAwait(s, s.clock)
    ensures AnswerWaitForClock(s).clock == [] && AllWoken(s, s.clock, AnswerWaitForClock(s))
    decreases |s.clock|
  {
    if s.clock == [] {
      assert s.ready + s.clock == s.ready;
    } else {
      var p := s.clock[0];
      var s1 := SyscallSend(s.(clock := s.clock[1..]), ReplyRegs(p, Num(0)), false);
      ClockWakesOne(s);
      ClockWakesAll(s1);
      assert s.clock == [p] + s1.clock;
      WokenTwice(s, p, s1, s1.clock, AnswerWaitForClock(s1));
    }
  }

  /** `p` was sent one answer if it is alive, and nobody else anything. */
  ghost predicate OneAnswer(s: Sys, r: Sys, p: Slot, payload: Word) {
    forall q: Slot :: r.logs[q].sent ==
      s.logs[q].sent + if q == p && Live(s, p) && s.msgFree != [] then [Packet(SSI_FAKE_ADDR, payload)] else []
  }

  lemma ReplyLogged(s: Sys, p: Slot, payload: Word)
    requires s.current == Some(SSI)
    ensures var r := SyscallSend(s, ReplyRegs(p, payload), false);
      |r.msgFree| >= |s.msgFree| - 1 && OneAnswer(s, r, p, payload)
  {
  }

  /** Every process in `l` that is alive was sent one answer, and nobody else anything. */
  ghost predicate EachAnswered(s: Sys, r: Sys, l: seq<Slot>) {
    forall p: Slot :: r.logs[p].sent ==
      s.logs[p].sent + if p in l && Live(s, p) then [Packet(SSI_FAKE_ADDR, Num(0))] else []
  }

  lemma OneMoreAnswered(s: Sys, s1: Sys, r: Sys, p: Slot, rest: seq<Slot>)
    requires OneAnswer(s, s1, p, Num(0)) && s.msgFree != [] && s1.free == s.free
    requires EachAnswered(s1, r, rest) && p !in rest
    ensures EachAnswered(s, r, [p] + rest)
  {
    forall q: Slot ensures r.logs[q].sent ==
      s.logs[q].sent + if q in [p] + rest && Live(s, q) then [Packet(SSI_FAKE_ADDR, Num(0))] else []
    {
      assert r.logs[q].sent ==
        s1.logs[q].sent + if q in rest && Live(s1, q) then [Packet(SSI_FAKE_ADDR, Num(0))] else [];
    }
  }

  /** With as many free messages as waiters, a tick sends every waiter that is alive, blocked or not, exactly one
      answer, and passes over those that were killed. */
  lemma {:induction false} ClockAnswersAll(s: Sys)
    requires s.current == Some(SSI) && |s.msgFree| >= |s.clock| && NoDup(s.clock)
    ensures AnswerWaitForClock(s).clock == [] && EachAnswered(s, AnswerWaitForClock(s), s.clock)
    decreases |s.clock|
  {
    if s.clock != [] {
      var p := s.clock[0];
      var s0 := s.(clock := s.clock[1..]);
      var s1 := SyscallSend(s0, ReplyRegs(p, Num(0)), false);
      assert s.clock == [p] + s0.clock;
      SyscallSendFrame(s0, ReplyRegs(p, Num(0)), false);
      ReplyLogged(s0, p, Num(0));
      ClockAnswersAll(s1);
      OneMoreAnswered(s, s1, AnswerWaitForClock(s1), p, s1.clock);
    }
  }

  /** Without a free message the waiters are taken off the queue and get nothing: the tick is lost to them. */
  lemma {:induction false} ClockDropsAll(s: Sys)
    requires s.current == Some(SSI) && s.msgFree == []
    ensures var r := AnswerWaitForClock(s);
      r.clock == [] && r.ready == s.ready && r.pcbs == s.pcbs && r.logs == s.logs
    decreases |s.clock|
  {
    if s.clock != [] {
      ClockDropsAll(SyscallSend(s.(clock := s.clock[1..]), ReplyRegs(s.clock[0], Num(0)), false));
    }
  }
}
