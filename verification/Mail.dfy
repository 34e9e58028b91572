/** Messages between a sender and a receiver arrive in order and once, and no wakeup is lost. */
module Mail {
  import opened Sequences
  import opened Devices
  import opened Kernel

  /** The payloads in `l` that came from `x`, in order. */
  function From(l: seq<Packet>, x: Word): seq<Word> {
    if l == [] then []
    else (if l[0].sender == x then [l[0].payload] else []) + From(l[1..], x)
  }

  function Packets(inbox: seq<Msg>): (r: seq<Packet>)
    ensures |r| == |inbox| && forall i :: 0 <= i < |inbox| ==> r[i] == inbox[i].packet
  {
    seq(|inbox|, i requires 0 <= i < |inbox| => inbox[i].packet)
  }

  lemma {:induction false} FromConcat(l: seq<Packet>, k: seq<Packet>, x: Word)
    ensures From(l + k, x) == From(l, x) + From(k, x)
  {
    if l == [] {
      assert l + k == k;
    } else {
      assert (l + k)[0] == l[0] && (l + k)[1..] == l[1..] + k;
      FromConcat(l[1..], k, x);
    }
  }

  lemma FromSnoc(l: seq<Packet>, m: Packet, x: Word)
    ensures From(l + [m], x) == From(l, x) + if m.sender == x then [m.payload] else []
  {
    FromConcat(l, [m], x);
  }

  /** Nothing for a RECEIVE from `filter`: no message from that sender, or, if it names none, no message at all. */
  predicate NoneAccepted(inbox: seq<Msg>, filter: Word) {
    if filter == Num(0) then inbox == [] else forall m | m in inbox :: m.packet.sender != filter
  }

  lemma {:induction false} NoneFrom(inbox: seq<Msg>, filter: Word, x: Word)
    requires NoneAccepted(inbox, filter) && Accepts(filter, x)
    ensures From(Packets(inbox), x) == []
  {
    if inbox != [] {
      assert inbox[0] in inbox && Packets(inbox)[1..] == Packets(inbox[1..]);
      NoneFrom(inbox[1..], filter, x);
    }
  }

  /** Position of the first message from the sender `filter`, or of the first message if it names none; the inbox's
      length if there is none. */
  function FirstAccepted(inbox: seq<Msg>, filter: Word): (k: nat)
    ensures k <= |inbox|
    ensures filter == Num(0) ==> k == 0
    ensures filter != Num(0) ==> forall i :: 0 <= i < k ==> inbox[i].packet.sender != filter
    ensures filter != Num(0) && k < |inbox| ==> inbox[k].packet.sender == filter
  {
    if filter == Num(0) || inbox == [] || inbox[0].packet.sender == filter then 0
    else 1 + FirstAccepted(inbox[1..], filter)
  }

  /** popMessage takes the first message from the named sender, or the first of all if none is named, and leaves the
      order of the others; it takes nothing exactly if there is none. */
  lemma PopIsFirst(inbox: seq<Msg>, filter: Word)
    ensures var k := FirstAccepted(inbox, filter);
      PopMessage(inbox, filter) ==
      if k == |inbox| then (None, inbox) else (Some(inbox[k]), inbox[..k] + inbox[k + 1..])
    ensures var m := PopMessage(inbox, filter).0;
      && (m.None? <==> NoneAccepted(inbox, filter))
      && (m.Some? && filter != Num(0) ==> m.value.packet.sender == filter)
  {
    if filter != Num(0) {
      PopNamed(inbox, filter);
      var k := FirstAccepted(inbox, filter);
      assert k < |inbox| ==> inbox[k] in inbox;
    } else if inbox != [] {
      assert inbox[..0] + inbox[1..] == inbox[1..];
    }
  }

  lemma {:induction false} PopNamed(inbox: seq<Msg>, x: Word)
    requires x != Num(0)
    ensures var k := FirstAccepted(inbox, x);
      PopMessage(inbox, x) == if k == |inbox| then (None, inbox) else (Some(inbox[k]), inbox[..k] + inbox[k + 1..])
  {
    if inbox != [] && inbox[0].packet.sender != x {
      PopNamed(inbox[1..], x);
      KeepFirst(inbox, FirstAccepted(inbox, x));
    } else if inbox != [] {
      assert inbox[..0] + inbox[1..] == inbox[1..];
    }
  }

  /** Removal behind the first message. */
  lemma KeepFirst(inbox: seq<Msg>, k: nat)
    requires 0 < k <= |inbox|
    ensures k < |inbox| ==> inbox[..k] + inbox[k + 1..] == [inbox[0]] + (inbox[1..][..k - 1] + inbox[1..][k..])
    ensures [inbox[0]] + inbox[1..] == inbox
  {
    if k < |inbox| {
      assert inbox[..k] == [inbox[0]] + inbox[1..][..k - 1];
      assert inbox[k + 1..] == inbox[1..][k..];
    }
  }

  lemma RemovalFrom(inbox: seq<Msg>, k: nat, x: Word)
    requires k < |inbox|
    requires inbox[k].packet.sender == x ==> From(Packets(inbox[..k]), x) == []
    ensures From(Packets(inbox), x)
            == (if inbox[k].packet.sender == x then [inbox[k].packet.payload] else [])
               + From(Packets(inbox[..k] + inbox[k + 1..]), x)
  {
    var a, m, b := Packets(inbox[..k]), [inbox[k].packet], Packets(inbox[k + 1..]);
    assert Packets(inbox) == a + (m + b);
    assert Packets(inbox[..k] + inbox[k + 1..]) == a + b;
    FromConcat(a, m + b, x);
    FromConcat(m, b, x);
    FromConcat(a, b, x);
  }

  /** What popMessage takes is the oldest pending message of its sender. */
  lemma PopIsOldest(inbox: seq<Msg>, filter: Word, x: Word)
    requires PopMessage(inbox, filter).0.Some?
    ensures var (m, rest) := PopMessage(inbox, filter);
      From(Packets(inbox), x)
      == (if m.value.packet.sender == x then [m.value.packet.payload] else []) + From(Packets(rest), x)
  {
    var k := FirstAccepted(inbox, filter);
    assert PopMessage(inbox, filter) == (Some(inbox[k]), inbox[..k] + inbox[k + 1..]) by {
      PopIsFirst(inbox, filter);
    }
    if inbox[k].packet.sender == x {
      NoneFrom(inbox[..k], filter, x);
    }
    RemovalFrom(inbox, k, x);
  }

  // ----- the invariant

  /** What `x` sent to the occupant of `p` is what that occupant received from `x`, then what is pending. */
  predicate InOrder(s: Sys, p: Slot, x: Word) {
    From(s.logs[p].sent, x) == From(s.logs[p].rcvd, x) + From(Packets(s.pcbs[p].inbox), x)
  }

  ghost predicate MailOk(s: Sys, p: Slot) {
    && (Blocked(s, p) ==> NoneAccepted(s.pcbs[p].inbox, s.pcbs[p].regs.a1))
    && (forall x :: InOrder(s, p, x))
    && (forall m | m in s.pcbs[p].inbox :: Public(m.packet.sender) == m.packet.sender)
  }

  ghost predicate AllMailOk(s: Sys) {
    forall p: Slot | Live(s, p) :: MailOk(s, p)
  }

  predicate SameMail(s: Sys, r: Sys, p: Slot) {
    && r.pcbs[p].inbox == s.pcbs[p].inbox && r.pcbs[p].regs.a1 == s.pcbs[p].regs.a1 && r.logs[p] == s.logs[p]
    && (Blocked(r, p) ==> Blocked(s, p))
  }

  lemma MailFrame(s: Sys, r: Sys, p: Slot)
    requires MailOk(s, p) && SameMail(s, r, p)
    ensures MailOk(r, p)
  {
    forall x ensures InOrder(r, p, x) {
      assert InOrder(s, p, x);
    }
  }

  lemma AllMailFrame(s: Sys, r: Sys)
    requires AllMailOk(s)
    requires forall p: Slot | Live(r, p) :: Live(s, p) && SameMail(s, r, p)
    ensures AllMailOk(r)
  {
    forall p: Slot | Live(r, p) ensures MailOk(r, p) {
      MailFrame(s, r, p);
    }
  }

  // ----- SEND

  lemma HandoverMail(s: Sys, dest: Slot, m: Msg)
    requires MailOk(s, dest) && Blocked(s, dest) && Accepts(s.pcbs[dest].regs.a1, m.packet.sender)
    ensures MailOk(Handover(LogSent(s, dest, m.packet), dest, m), dest)
  {
    var r := Handover(LogSent(s, dest, m.packet), dest, m);
    forall x ensures InOrder(r, dest, x) {
      assert InOrder(s, dest, x);
      FromSnoc(s.logs[dest].sent, m.packet, x);
      FromSnoc(s.logs[dest].rcvd, m.packet, x);
      if m.packet.sender == x {
        NoneFrom(s.pcbs[dest].inbox, s.pcbs[dest].regs.a1, x);
      }
    }
  }

  lemma EnqueueMail(s: Sys, dest: Slot, m: Msg)
    requires MailOk(s, dest) && Public(m.packet.sender) == m.packet.sender
    requires Blocked(s, dest) ==> !Accepts(s.pcbs[dest].regs.a1, m.packet.sender)
    ensures MailOk(Enqueue(LogSent(s, dest, m.packet), dest, m), dest)
  {
    var r := Enqueue(LogSent(s, dest, m.packet), dest, m);
    var inbox := s.pcbs[dest].inbox;
    assert Packets(inbox + [m]) == Packets(inbox) + [m.packet];
    forall x ensures InOrder(r, dest, x) {
      assert InOrder(s, dest, x);
      FromSnoc(s.logs[dest].sent, m.packet, x);
      FromSnoc(Packets(inbox), m.packet, x);
    }
  }

  lemma SendMail(s: Sys, dest: Slot, payload: Word, sender: Word, soft: bool)
    requires AllMailOk(s) && Live(s, dest)
    ensures AllMailOk(SendMessage(s, dest, payload, sender, soft).0)
  {
    var r := SendMessage(s, dest, payload, sender, soft).0;
    if s.msgFree != [] {
      var m := Msg(s.msgFree[0], Packet(Public(sender), payload));
      var s0 := MarkRequest(s.(msgFree := s.msgFree[1..]), dest, sender, soft);
      AllMailFrame(s, s0);
      if IsWaitingFor(LogSent(s0, dest, m.packet), dest, sender) {
        HandoverMail(s0, dest, m);
      } else {
        EnqueueMail(s0, dest, m);
      }
      forall p: Slot | Live(r, p) && p != dest ensures MailOk(r, p) {
        MailFrame(s0, r, p);
      }
    }
  }

  lemma SyscallSendMail(s: Sys, r: Regs, soft: bool)
    requires AllMailOk(s) && s.current.Some?
    ensures AllMailOk(SyscallSend(s, r, soft))
  {
    var target := Target(s, s.current.value, r.a1);
    if IsPcbValid(s, target) {
      SendMail(s, target.slot, r.a2, PcbPtr(s.current.value), soft);
      AllMailFrame(SendMessage(s, target.slot, r.a2, PcbPtr(s.current.value), soft).0, SyscallSend(s, r, soft));
    } else {
      AllMailFrame(s, SyscallSend(s, r, soft));
    }
  }

  // ----- RECEIVE

  lemma TakeMail(s: Sys, p: Slot, r: Regs)
    requires MailOk(s, p) && s.current == Some(p) && PopMessage(s.pcbs[p].inbox, r.a1).0.Some?
    ensures MailOk(SyscallReceive(s, r), p)
  {
    var n := SyscallReceive(s, r);
    forall x ensures InOrder(n, p, x) {
      TakeInOrder(s, p, r, x);
    }
    assert forall m | m in n.pcbs[p].inbox :: m in s.pcbs[p].inbox by { PopIsFirst(s.pcbs[p].inbox, r.a1); }
  }

  lemma TakeInOrder(s: Sys, p: Slot, r: Regs, x: Word)
    requires InOrder(s, p, x) && s.current == Some(p) && PopMessage(s.pcbs[p].inbox, r.a1).0.Some?
    ensures InOrder(SyscallReceive(s, r), p, x)
  {
    var (m, rest) := PopMessage(s.pcbs[p].inbox, r.a1);
    PopIsOldest(s.pcbs[p].inbox, r.a1, x);
    FromSnoc(s.logs[p].rcvd, m.value.packet, x);
  }

  lemma BlockMail(s: Sys, p: Slot, r: Regs)
    requires MailOk(s, p) && s.current == Some(p) && PopMessage(s.pcbs[p].inbox, r.a1).0.None?
    ensures MailOk(SyscallReceive(s, r), p)
  {
    PopIsFirst(s.pcbs[p].inbox, r.a1);
    forall x ensures InOrder(SyscallReceive(s, r), p, x) {
      assert InOrder(s, p, x);
    }
  }

  lemma ReceiveMail(s: Sys, r: Regs)
    requires AllMailOk(s) && s.current.Some? && Live(s, s.current.value)
    ensures AllMailOk(SyscallReceive(s, r))
  {
    var p := s.current.value;
    var n := SyscallReceive(s, r);
    if PopMessage(s.pcbs[p].inbox, r.a1).0.Some? {
      assert MailOk(n, p) by { TakeMail(s, p, r); }
    } else {
      assert MailOk(n, p) by { BlockMail(s, p, r); }
    }
    forall q: Slot | Live(n, q) && q != p ensures MailOk(n, q) {
      MailFrame(s, n, q);
    }
  }

  // ----- the logs say what happened

  /** The payload is where the receiver asked for it, if it asked, and the rest of memory is as before. */
  ghost predicate Delivered(before: map<Word, Word>, address: Word, payload: Word, after: map<Word, Word>) {
    && (address != Num(0) ==> address in after && after[address] == payload)
    && forall w {:trigger w in after} | address == Num(0) || w != address ::
         (w in after <==> w in before) && (w in before ==> after[w] == before[w])
  }

  /** A send reports success exactly when the message is logged as sent to the destination. */
  lemma SendReportsTruth(s: Sys, dest: Slot, payload: Word, sender: Word, soft: bool)
    ensures var (r, ret) := SendMessage(s, dest, payload, sender, soft);
      && (ret == Num(0) <==> r.logs[dest].sent == s.logs[dest].sent + [Packet(Public(sender), payload)])
      && (ret == MSGNOGOOD <==> s.msgFree == [])
      && (forall d: Slot | d != dest :: r.logs[d] == s.logs[d])
  {
    if s.msgFree == [] {
      assert |s.logs[dest].sent| < |s.logs[dest].sent + [Packet(Public(sender), payload)]|;
    }
  }

  /** What is logged as received is what the running process finds in its registers and memory. */
  lemma ReceiveSeesLogged(s: Sys, r: Regs)
    requires s.current.Some? && MailOk(s, s.current.value)
    ensures var p, n := s.current.value, SyscallReceive(s, r);
      if NoneAccepted(s.pcbs[p].inbox, r.a1) then n.current == None && n.logs == s.logs && n.pcbs[p].regs == r
      else
        var m := s.pcbs[p].inbox[FirstAccepted(s.pcbs[p].inbox, r.a1)].packet;
        && n.current == s.current && n.logs[p].rcvd == s.logs[p].rcvd + [m]
        && n.bios == r.(a0 := m.sender, pc := r.pc + 4) && Delivered(s.mem, r.a2, m.payload, n.mem)
  {
    var inbox := s.pcbs[s.current.value].inbox;
    PopIsFirst(inbox, r.a1);
    var k := FirstAccepted(inbox, r.a1);
    if k < |inbox| {
      assert inbox[k] in inbox;
    }
  }

  /** The same for a receiver that is handed the message by its sender. */
  lemma HandoverSeesLogged(s: Sys, dest: Slot, payload: Word, sender: Word, soft: bool)
    requires s.msgFree != [] && IsWaitingFor(s, dest, sender)
    ensures var n := SendMessage(s, dest, payload, sender, soft).0;
      && n.ready == s.ready + [dest] && n.msgFree == s.msgFree
      && n.logs[dest].rcvd == s.logs[dest].rcvd + [Packet(Public(sender), payload)]
      && n.pcbs[dest].regs == s.pcbs[dest].regs.(a0 := Public(sender), pc := s.pcbs[dest].regs.pc + 4)
      && Delivered(s.mem, s.pcbs[dest].regs.a2, payload, n.mem)
  {
    assert [s.msgFree[0]] + s.msgFree[1..] == s.msgFree;
  }

  // ----- dispatch and interrupts

  lemma SchedulerMail(s: Sys)
    requires AllMailOk(s)
    ensures AllMailOk(Scheduler(s))
  {
    AllMailFrame(s, Scheduler(s));
  }

  lemma PltMail(s: Sys)
    requires AllMailOk(s)
    ensures AllMailOk(PltIrq(s))
  {
    var r := PltIrq(s);
    forall p: Slot | Live(r, p) ensures MailOk(r, p) {
      assert Live(s, p) && MailOk(s, p);
      forall x ensures InOrder(r, p, x) {
        assert InOrder(s, p, x);
      }
    }
  }

  lemma DeviceMail(s: Sys, line: int, bank: Bank)
    requires AllMailOk(s) && Live(s, SSI)
    ensures AllMailOk(DeviceIrq(s, line, bank))
  {
    var n := FirstPending(bank, 0);
    if s.mode != Panicked && n < N_DEV_PER_IL {
      SendMail(s, SSI, Num(IrqPayload(line, n, bank[n])), INTERRUPT_HANDLER_MSG, false);
    } else {
      AllMailFrame(s, DeviceIrq(s, line, bank));
    }
  }

  lemma {:induction false} LinesMail(s: Sys, irq: Irq, line: int)
    requires AllMailOk(s) && Live(s, SSI) && irq.Valid() && DEV_IL_START <= line <= DEV_IL_START + N_EXT_IL
    ensures AllMailOk(LineIrqs(s, irq, line))
    decreases DEV_IL_START + N_EXT_IL - line
  {
    if line < DEV_IL_START + N_EXT_IL {
      if line in irq.mip {
        DeviceMail(s, line, irq.banks[line - DEV_IL_START]);
      }
      LinesMail(if line in irq.mip then DeviceIrq(s, line, irq.banks[line - DEV_IL_START]) else s, irq, line + 1);
    }
  }

  lemma InterruptMail(s: Sys, r: Regs, irq: Irq)
    requires AllMailOk(s) && Live(s, SSI) && irq.Valid()
    ensures AllMailOk(InterruptHandler(s, r, irq))
  {
    var s0 := s.(bios := r);
    AllMailFrame(s, s0);
    var s1 := if IL_TIMER in irq.mip then SendMessageToSsi(s0, CLOCK_PAYLOAD) else s0;
    if IL_TIMER in irq.mip {
      SendMail(s0, SSI, Num(CLOCK_PAYLOAD), INTERRUPT_HANDLER_MSG, false);
    }
    PltMail(s1);
    LinesMail(TimerIrqs(s0, irq), irq, DEV_IL_START);
    SchedulerMail(LineIrqs(TimerIrqs(s0, irq), irq, DEV_IL_START));
  }

  // ----- process services

  lemma TerminatedMail(s: Sys, p: Slot)
    requires AllMailOk(s) && Forest(s.pcbs, s.free, s.nextPid) && Live(s, p)
    ensures AllMailOk(Terminated(s, p))
  {
    AllMailFrame(s, Terminated(s, p));
  }

  lemma CreateMail(s: Sys, sender: Slot, state: Regs, support: bool)
    requires AllMailOk(s)
    ensures AllMailOk(CreateProcess(s, sender, state, support))
  {
    if s.free != [] {
      var r := CreateProcess(s, sender, state, support);
      forall p: Slot | Live(r, p) && p != s.free[0] ensures MailOk(r, p) {
        assert s.free == [s.free[0]] + s.free[1..];
        MailFrame(s, r, p);
      }
    }
  }
}
