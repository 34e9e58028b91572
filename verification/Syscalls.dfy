/** SEND and RECEIVE as the processes see them: registers, inboxes, and who is woken. */
module Syscalls {
  import opened Sequences
  import opened Kernel
  import opened Structure
  import opened Mail
  import opened Runs

  // ----- SEND

  /** A SEND of `p` to `a1` addresses the live process `d`: 0 is the parent, 2 is the SSI, anything else the entry
      itself. */
  predicate Addresses(s: Sys, p: Slot, a1: Word, d: Slot) {
    && Live(s, d)
    && if a1 == Num(0) then s.pcbs[p].parent == Some(d) else if a1 == Num(2) then d == SSI else a1 == PcbPtr(d)
  }

  /** `m` was sent to `d`, and nothing to anybody else. */
  ghost predicate OnlySentTo(s: Sys, n: Sys, d: Slot, m: Packet) {
    forall q: Slot :: n.logs[q].sent == s.logs[q].sent + if q == d then [m] else []
  }

  /** The sender goes on behind its SEND and learns in a0 what became of it: 0 if the payload was sent to the process it
      addressed and to nobody else, -2 if it addressed nobody, -1 if no message was free. Nothing happened then, and
      only a request that reached the SSI sets the sender's flag. */
  lemma SendStep(s: Sys, r: Regs, soft: bool)
    requires Inv(s) && s.mode == Running && r.a0 == Num(-1)
    ensures var p, n := s.current.value, Step(s, Syscall(r, soft));
      var m := Packet(if p == SSI then Num(2) else PcbPtr(p), r.a2);
      && n.current == Some(p) && n.mode == Running && n.bios == r.(a0 := n.bios.a0, pc := r.pc + 4)
      && (n.bios.a0 == Num(-2) <==> forall d: Slot :: !Addresses(s, p, r.a1, d))
      && (n.bios.a0 == Num(-1) <==> s.msgFree == [] && exists d: Slot :: Addresses(s, p, r.a1, d))
      && (n.bios.a0 == Num(0) <==> exists d: Slot :: Addresses(s, p, r.a1, d) && OnlySentTo(s, n, d, m))
      && (n.bios.a0 == Num(0) || n == s.(bios := n.bios))
      && (n.pcbs[p].doIo <==> s.pcbs[p].doIo || (soft && n.bios.a0 == Num(0) && Addresses(s, p, r.a1, SSI)))
  {
    var p, n := s.current.value, Step(s, Syscall(r, soft));
    var target := Target(s, p, r.a1);
    TargetAddressed(s, p, r.a1);
    SendStays(s, r, soft);
    if IsPcbValid(s, target) && s.msgFree != [] {
      assert Addresses(s, p, r.a1, target.slot);
      SendSent(s, r, soft, target.slot);
    } else {
      SendFails(s, r, soft, n);
      assert IsPcbValid(s, target) ==> Addresses(s, p, r.a1, target.slot);
    }
  }

  /** After a SEND the sender runs on. */
  lemma SendStays(s: Sys, r: Regs, soft: bool)
    requires Inv(s) && s.mode == Running && r.a0 == Num(-1)
    ensures var n := Step(s, Syscall(r, soft));
      && n == SyscallSend(s, r, soft) && n.current == s.current && n.mode == Running
      && n.bios == r.(a0 := n.bios.a0, pc := r.pc + 4)
  {
    SyscallSendFrame(s, r, soft);
  }

  lemma SendFails(s: Sys, r: Regs, soft: bool, n: Sys)
    requires s.current.Some? && n == SyscallSend(s, r, soft)
    requires !IsPcbValid(s, Target(s, s.current.value, r.a1)) || s.msgFree == []
    ensures n == s.(bios := n.bios) && forall d: Slot, m: Packet :: !OnlySentTo(s, n, d, m)
    ensures n.bios.a0 == if IsPcbValid(s, Target(s, s.current.value, r.a1)) then Num(-1) else Num(-2)
  {
    forall d: Slot, m: Packet ensures !OnlySentTo(s, n, d, m) {
      assert |n.logs[d].sent| < |s.logs[d].sent + [m]|;
    }
  }

  lemma TargetAddressed(s: Sys, p: Slot, a1: Word)
    ensures forall d: Slot :: Addresses(s, p, a1, d) <==> IsPcbValid(s, Target(s, p, a1)) && Target(s, p, a1).slot == d
  {
  }

  lemma SendSent(s: Sys, r: Regs, soft: bool, d: Slot)
    requires s.current.Some? && s.msgFree != [] && Live(s, d) && Target(s, s.current.value, r.a1) == PcbPtr(d)
    ensures var p, n := s.current.value, SyscallSend(s, r, soft);
      && OnlySentTo(s, n, d, Packet(if p == SSI then Num(2) else PcbPtr(p), r.a2))
      && n.bios == r.(a0 := Num(0), pc := r.pc + 4)
      && (n.pcbs[p].doIo <==> s.pcbs[p].doIo || (soft && d == SSI))
  {
  }

  /** `d` was in a RECEIVE and now returns from it with `m`. */
  ghost predicate Returns(s: Sys, n: Sys, d: Slot, m: Packet) {
    && n.ready == s.ready + [d] && n.msgFree == s.msgFree && n.pcbs[d].inbox == s.pcbs[d].inbox
    && n.pcbs[d].regs == s.pcbs[d].regs.(a0 := m.sender, pc := s.pcbs[d].regs.pc + 4)
    && n.logs[d].rcvd == s.logs[d].rcvd + [m] && Delivered(s.mem, s.pcbs[d].regs.a2, m.payload, n.mem)
  }

  /** `m` is behind everything that was pending for `d`, who stays where it is. */
  predicate Queued(s: Sys, n: Sys, d: Slot, m: Packet) {
    && n.ready == s.ready && n.mem == s.mem && n.pcbs[d].regs == s.pcbs[d].regs && n.logs[d].rcvd == s.logs[d].rcvd
    && s.msgFree != [] && n.msgFree == s.msgFree[1..]
    && n.pcbs[d].inbox == s.pcbs[d].inbox + [Msg(s.msgFree[0], m)]
  }

  /** A send to a process in a RECEIVE wakes it exactly if that names nobody or this sender; a process that waits for
      somebody else, or is not in a RECEIVE, finds the message in its inbox later. */
  lemma SendWakes(s: Sys, d: Slot, payload: Word, x: Word, soft: bool)
    requires Live(s, d) && s.msgFree != []
    ensures var n, a1 := SendMessage(s, d, payload, x, soft).0, s.pcbs[d].regs.a1;
      var name := if x == PcbPtr(SSI) then Num(2) else x;
      if Blocked(s, d) && (a1 == Num(0) || a1 == name)
      then Returns(s, n, d, Packet(name, payload)) && !Blocked(n, d)
      else Queued(s, n, d, Packet(name, payload)) && (Blocked(n, d) <==> Blocked(s, d))
  {
    var m := Msg(s.msgFree[0], Packet(if x == PcbPtr(SSI) then Num(2) else x, payload));
    var s1 := MarkRequest(s.(msgFree := s.msgFree[1..]), d, x, soft);
    SendForm(s, s1, d, m, x, payload, soft);
    if Blocked(s, d) && (s.pcbs[d].regs.a1 == Num(0) || s.pcbs[d].regs.a1 == m.packet.sender) {
      HandoverReturns(s, s1, d, m);
    } else {
      EnqueueQueues(s, s1, d, m);
    }
  }

  lemma SendForm(s: Sys, s1: Sys, d: Slot, m: Msg, x: Word, payload: Word, soft: bool)
    requires Live(s, d) && s.msgFree != [] && s1 == MarkRequest(s.(msgFree := s.msgFree[1..]), d, x, soft)
    requires m == Msg(s.msgFree[0], Packet(if x == PcbPtr(SSI) then Num(2) else x, payload))
    ensures Taken(s, s1, d)
    ensures SendMessage(s, d, payload, x, soft).0 ==
      var a1 := s.pcbs[d].regs.a1;
      if Blocked(s, d) && (a1 == Num(0) || a1 == m.packet.sender) then Handover(LogSent(s1, d, m.packet), d, m)
      else Enqueue(LogSent(s1, d, m.packet), d, m)
  {
  }

  /** `s1` has taken the first message structure, and at most the running process's flag differs. */
  predicate Taken(s: Sys, s1: Sys, d: Slot) {
    && s.msgFree != [] && s1.msgFree == s.msgFree[1..] && s1.free == s.free && s1.ready == s.ready
    && s1.current == s.current && s1.mem == s.mem && s1.logs == s.logs
    && s1.pcbs[d].regs == s.pcbs[d].regs && s1.pcbs[d].inbox == s.pcbs[d].inbox
  }

  lemma HandoverReturns(s: Sys, s1: Sys, d: Slot, m: Msg)
    requires Taken(s, s1, d) && m.id == s.msgFree[0] && Public(m.packet.sender) == m.packet.sender
    ensures var n := Handover(LogSent(s1, d, m.packet), d, m); Returns(s, n, d, m.packet) && !Blocked(n, d)
  {
    assert [s.msgFree[0]] + s.msgFree[1..] == s.msgFree;
  }

  lemma EnqueueQueues(s: Sys, s1: Sys, d: Slot, m: Msg)
    requires Taken(s, s1, d) && m.id == s.msgFree[0]
    ensures var n := Enqueue(LogSent(s1, d, m.packet), d, m);
      Queued(s, n, d, m.packet) && (Blocked(n, d) <==> Blocked(s, d))
  {
  }

  /** Nobody but `d` and the sender is touched. */
  predicate OthersKept(s: Sys, n: Sys, d: Slot, p: Slot) {
    && n.free == s.free && n.dev == s.dev && n.clock == s.clock && n.count == s.count
    && forall q: Slot | q != d && q != p :: n.pcbs[q] == s.pcbs[q] && n.logs[q] == s.logs[q]
  }

  /** So for a SEND. */
  lemma SendReaches(s: Sys, r: Regs, soft: bool, d: Slot)
    requires Inv(s) && s.mode == Running && r.a0 == Num(-1) && s.msgFree != []
    requires Addresses(s, s.current.value, r.a1, d)
    ensures var p, n, a1 := s.current.value, Step(s, Syscall(r, soft)), s.pcbs[d].regs.a1;
      var name := if p == SSI then Num(2) else PcbPtr(p);
      && OthersKept(s, n, d, p)
      && if Blocked(s, d) && (a1 == Num(0) || a1 == name)
         then Returns(s, n, d, Packet(name, r.a2)) && !Blocked(n, d)
         else Queued(s, n, d, Packet(name, r.a2)) && (Blocked(n, d) <==> Blocked(s, d))
  {
    SendWakes(s, d, r.a2, PcbPtr(s.current.value), soft);
    SendStays(s, r, soft);
    ReachesOnly(s, r, soft, d, Step(s, Syscall(r, soft)));
  }

  lemma ReachesOnly(s: Sys, r: Regs, soft: bool, d: Slot, n: Sys)
    requires s.current.Some? && s.msgFree != [] && Addresses(s, s.current.value, r.a1, d)
    requires n == SyscallSend(s, r, soft)
    ensures n == SendMessage(s, d, r.a2, PcbPtr(s.current.value), soft).0.(bios := n.bios)
    ensures OthersKept(s, n, d, s.current.value)
  {
    SyscallSendFrame(s, r, soft);
  }

  // ----- RECEIVE

  /** Message `k` is the one for a RECEIVE from `a1`: the first of all if `a1` is 0, otherwise the first from `a1`. */
  predicate IsFor(inbox: seq<Msg>, a1: Word, k: nat) {
    && k < |inbox|
    && (a1 == Num(0) ==> k == 0)
    && (a1 != Num(0) ==> inbox[k].packet.sender == a1 && forall i | 0 <= i < k :: inbox[i].packet.sender != a1)
  }

  /** The receiver goes on behind its RECEIVE with message `k`, whose sender it finds in a0. */
  ghost predicate Takes(s: Sys, r: Regs, n: Sys, p: Slot, k: nat)
    requires k < |s.pcbs[p].inbox|
  {
    var inbox := s.pcbs[p].inbox;
    var m := inbox[k].packet;
    && n.current == Some(p) && n.mode == Running && n.bios == r.(a0 := m.sender, pc := r.pc + 4)
    && n.pcbs[p].inbox == inbox[..k] + inbox[k + 1..] && n.msgFree == [inbox[k].id] + s.msgFree
    && n.logs[p].rcvd == s.logs[p].rcvd + [m] && Delivered(s.mem, r.a2, m.payload, n.mem)
  }

  /** The receiver takes the message that is for it, or is saved in its RECEIVE if there is none. */
  lemma ReceiveStep(s: Sys, r: Regs, soft: bool)
    requires Inv(s) && s.mode == Running && r.a0 == Num(-2)
    ensures var p, n, inbox := s.current.value, Step(s, Syscall(r, soft)), s.pcbs[s.current.value].inbox;
      && (forall k: nat | IsFor(inbox, r.a1, k) :: Takes(s, r, n, p, k))
      && ((forall k: nat :: !IsFor(inbox, r.a1, k)) <==> Blocked(n, p))
      && (Blocked(n, p) ==> n.pcbs == s.pcbs[p := s.pcbs[p].(regs := r)] && n.logs == s.logs && n.mem == s.mem)
  {
    var p, n, inbox := s.current.value, Step(s, Syscall(r, soft)), s.pcbs[s.current.value].inbox;
    OneIsFor(inbox, r.a1);
    var k := FirstAccepted(inbox, r.a1);
    if k < |inbox| {
      TakesFirst(s, r);
      assert IsFor(inbox, r.a1, k);
      assert n == SyscallReceive(s, r);
    } else {
      Blocks(s, r, soft);
    }
  }

  lemma OneIsFor(inbox: seq<Msg>, a1: Word)
    ensures var k := FirstAccepted(inbox, a1);
      && (k < |inbox| <==> PopMessage(inbox, a1).0.Some?)
      && forall j: nat :: IsFor(inbox, a1, j) <==> j == k < |inbox|
  {
    PopIsFirst(inbox, a1);
  }

  lemma TakesFirst(s: Sys, r: Regs)
    requires Inv(s) && s.mode == Running
    requires FirstAccepted(s.pcbs[s.current.value].inbox, r.a1) < |s.pcbs[s.current.value].inbox|
    ensures var p := s.current.value; Takes(s, r, SyscallReceive(s, r), p, FirstAccepted(s.pcbs[p].inbox, r.a1))
  {
    var p := s.current.value;
    var inbox := s.pcbs[p].inbox;
    var k := FirstAccepted(inbox, r.a1);
    PopIsFirst(inbox, r.a1);
    assert Live(s, p) && MailOk(s, p) && inbox[k] in inbox;
    TakeTakes(s, r, p, k);
  }

  lemma TakeTakes(s: Sys, r: Regs, p: Slot, k: nat)
    requires s.current == Some(p) && s.mode == Running && k < |s.pcbs[p].inbox|
    requires var m := s.pcbs[p].inbox[k]; Public(m.packet.sender) == m.packet.sender
    ensures var inbox := s.pcbs[p].inbox;
      Takes(s, r, TakeMessage(s, p, r, inbox[k], inbox[..k] + inbox[k + 1..]), p, k)
  {
  }

  lemma Blocks(s: Sys, r: Regs, soft: bool)
    requires Inv(s) && s.mode == Running && r.a0 == Num(-2)
    requires PopMessage(s.pcbs[s.current.value].inbox, r.a1).0.None?
    ensures var p, n := s.current.value, Step(s, Syscall(r, soft));
      Blocked(n, p) && n.pcbs == s.pcbs[p := s.pcbs[p].(regs := r)] && n.logs == s.logs && n.mem == s.mem
  {
    var p, b := s.current.value, SyscallReceive(s, r);
    assert p !in s.ready && p !in s.free;
    assert b.ready == s.ready && b.free == s.free;
    assert b.ready != [] ==> b.ready[0] in b.ready && forall q | q in b.ready[1..] :: q in b.ready;
  }
}
