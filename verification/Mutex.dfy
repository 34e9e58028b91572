/** Mutual exclusion by messages: the mutex process, its clients, and every interleaving of their steps. */
module Mutex {
  import opened Kernel
  import opened Mail

  /** The two flag bytes of a request. */
  predicate AsksP(payload: Word) {
    payload.Num? && payload.n % 256 == 1
  }

  predicate AsksV(payload: Word) {
    payload.Num? && payload.n / 256 % 256 == 1
  }

  const P := Num(1)
  const V := Num(256)

  /** Where mutex_proc is: at its first RECEIVE, about to answer a P, at its second RECEIVE, about to answer a V. */
  datatype Server = Free | Granting(c: Slot) | Held(c: Slot) | Acking(c: Slot) {
    predicate About(c: Slot) {
      (Granting? || Held? || Acking?) && this.c == c
    }
  }

  /** Where a client is: outside; waiting for the answer to its P; in the critical section; waiting for the
      answer to its V; terminated. */
  datatype Client = Out | Asking | Inside | Leaving | Dead

  type Clients = c: seq<Client> | |c| == MAXPROC witness seq(MAXPROC, _ => Out)
  type Answers = a: seq<nat> | |a| == MAXPROC witness seq(MAXPROC, _ => 0)

  /** `answers[c]` counts the mutex's messages that wait in c's inbox. `asked` and `granted` record the order of
      the Ps that were sent and served. */
  datatype State = State(
    server: Server,
    inbox: seq<Msg>,
    clients: Clients,
    answers: Answers,
    asked: seq<Slot>,
    granted: seq<Slot>)

  datatype Action =
    | SendP(c: Slot)
    | Enter(c: Slot)
    | SendV(c: Slot)
    | Leave(c: Slot)
    | Stray(c: Slot, payload: Word)
    | Trap(c: Slot)
    | Kill(c: Slot)
    | Respawn(c: Slot)
    | Serve

  function Post(s: State, c: Slot, payload: Word): State {
    s.(inbox := s.inbox + [Msg(0, Packet(PcbPtr(c), payload))])
  }

  function Become(s: State, c: Slot, k: Client): State {
    s.(clients := s.clients[c := k])
  }

  function Answer(s: State, c: Slot): State {
    s.(answers := s.answers[c := s.answers[c] + 1])
  }

  function TakeAnswer(s: State, c: Slot): State
    requires s.answers[c] > 0
  {
    s.(answers := s.answers[c := s.answers[c] - 1])
  }

  /** What the server waits for. */
  function Filter(server: Server): Word {
    if server.Held? then PcbPtr(server.c) else ANYMESSAGE
  }

  function Sender(m: Msg): Slot {
    if m.packet.sender.PcbPtr? then m.packet.sender.slot else 0
  }

  /** One step of mutex_proc: a RECEIVE with what follows it up to the next system call, or a SEND. */
  function ServerStep(s: State): State {
    match s.server
    case Granting(c) => Answer(s, c).(server := Held(c), granted := s.granted + [c])
    case Acking(c) => Answer(s, c).(server := Free)
    case Free =>
      var (m, rest) := PopMessage(s.inbox, ANYMESSAGE);
      if m.None? then s
      else s.(inbox := rest, server := if AsksP(m.value.packet.payload) then Granting(Sender(m.value)) else Free)
    case Held(c) =>
      var (m, rest) := PopMessage(s.inbox, PcbPtr(c));
      if m.None? then s
      else s.(inbox := rest, server := if AsksV(m.value.packet.payload) then Acking(c) else Held(c))
  }

  function Own(s: State, c: Slot): seq<Word> {
    From(Packets(s.inbox), PcbPtr(c))
  }

  /** No P in `l` but, possibly, the last. */
  predicate PLast(l: seq<Word>) {
    forall i | 0 <= i < |l| - 1 :: !AsksP(l[i])
  }

  predicate NoP(l: seq<Word>) {
    forall i | 0 <= i < |l| :: !AsksP(l[i])
  }

  /** Clients follow the protocol; those outside may also send other things, and a trapped one sends V and dies.
      A table entry is not reused while the mutex still deals with its former occupant. */
  predicate Allowed(s: State, a: Action) {
    match a
    case SendP(c) => s.clients[c] == Out
    case Enter(c) => s.clients[c] == Asking && s.answers[c] > 0
    case SendV(c) => s.clients[c] == Inside
    case Leave(c) => s.clients[c] == Leaving && s.answers[c] > 0
    case Stray(c, payload) => s.clients[c] == Out && !AsksP(payload)
    case Trap(c) => s.clients[c] == Out || s.clients[c] == Inside
    case Kill(c) => true
    case Respawn(c) => s.clients[c] == Dead && !s.server.About(c) && NoP(Own(s, c))
    case Serve => true
  }

  function Step(s: State, a: Action): State {
    match a
    case SendP(c) => Become(Post(s, c, P), c, Asking).(asked := s.asked + [c])
    case Enter(c) => if s.answers[c] > 0 then Become(TakeAnswer(s, c), c, Inside) else s
    case SendV(c) => Become(Post(s, c, V), c, Leaving)
    case Leave(c) => if s.answers[c] > 0 then Become(TakeAnswer(s, c), c, Out) else s
    case Stray(c, payload) => Post(s, c, payload)
    case Trap(c) => Become(Post(s, c, V), c, Dead)
    case Kill(c) => Become(s, c, Dead)
    case Respawn(c) => Become(s, c, Out).(answers := s.answers[c := 0])
    case Serve => ServerStep(s)
  }

  // ----- the invariant

  /** What the client's state says about its pending messages, its answers and the server. */
  predicate ClientOk(s: State, c: Slot) {
    && PLast(Own(s, c))
    && ((s.server == Held(c) || s.server == Granting(c) || s.server == Acking(c)) ==> NoP(Own(s, c)))
    && match s.clients[c]
       case Out => s.answers[c] == 0 && NoP(Own(s, c)) && !s.server.About(c)
       case Asking =>
         if s.answers[c] == 0 then
           if s.server.About(c) then s.server == Granting(c) && Own(s, c) == []
           else |Own(s, c)| > 0 && AsksP(Own(s, c)[|Own(s, c)| - 1])
         else s.answers[c] == 1 && s.server == Held(c) && Own(s, c) == []
       case Inside => s.answers[c] == 0 && s.server == Held(c) && Own(s, c) == []
       case Leaving =>
         if s.answers[c] == 0 then
           (s.server == Held(c) && Own(s, c) == [V]) || (s.server == Acking(c) && Own(s, c) == [])
         else s.answers[c] == 1 && !s.server.About(c) && Own(s, c) == []
       case Dead => true
  }

  /** The Ps still in the inbox, in order. */
  function Askers(l: seq<Msg>): seq<Slot> {
    if l == [] then []
    else (if AsksP(l[0].packet.payload) then [Sender(l[0])] else []) + Askers(l[1..])
  }

  predicate SendersOk(s: State) {
    forall m | m in s.inbox :: m.packet.sender.PcbPtr?
  }

  ghost predicate Inv(s: State) {
    && (forall c: Slot {:trigger ClientOk(s, c)} :: ClientOk(s, c))
    && SendersOk(s)
    && s.asked == s.granted + (if s.server.Granting? then [s.server.c] else []) + Askers(s.inbox)
  }

  lemma OwnPost(s: State, c: Slot, payload: Word, d: Slot)
    ensures Own(Post(s, c, payload), d) == Own(s, d) + if d == c then [payload] else []
  {
    var m := Packet(PcbPtr(c), payload);
    assert Packets(s.inbox + [Msg(0, m)]) == Packets(s.inbox) + [m];
    FromSnoc(Packets(s.inbox), m, PcbPtr(d));
  }

  lemma {:induction false} AskersSnoc(l: seq<Msg>, m: Msg)
    ensures Askers(l + [m]) == Askers(l) + if AsksP(m.packet.payload) then [Sender(m)] else []
  {
    if l != [] {
      assert (l + [m])[1..] == l[1..] + [m];
      AskersSnoc(l[1..], m);
    }
  }

  lemma {:induction false} AskersRemoval(l: seq<Msg>, k: nat)
    requires k < |l| && !AsksP(l[k].packet.payload)
    ensures Askers(l[..k] + l[k + 1..]) == Askers(l)
  {
    if k == 0 {
      assert l[..0] + l[1..] == l[1..];
    } else {
      AskersRemoval(l[1..], k - 1);
      assert (l[..k] + l[k + 1..])[1..] == l[1..][..k - 1] + l[1..][k..];
    }
  }

  // ----- the steps of clients

  /** `c` sends `payload` and becomes `k`. */
  lemma PostStep(s: State, c: Slot, payload: Word, k: Client, asked: seq<Slot>, d: Slot)
    requires ClientOk(s, c) && ClientOk(s, d)
    requires (s.clients[c] == Out && k == Asking && payload == P)
      || (s.clients[c] == Out && k == Out && !AsksP(payload))
      || (s.clients[c] == Inside && k == Leaving && payload == V)
      || ((s.clients[c] == Out || s.clients[c] == Inside) && k == Dead && payload == V)
    ensures ClientOk(Become(Post(s, c, payload), c, k).(asked := asked), d)
  {
    OwnPost(s, c, payload, d);
    var n := Become(Post(s, c, payload), c, k).(asked := asked);
    assert Own(n, d) == Own(s, d) + if d == c then [payload] else [];
    if d != c {
      assert Own(n, d) == Own(s, d);
    }
  }

  lemma ClientStep(s: State, a: Action, d: Slot)
    requires Inv(s) && Allowed(s, a) && !a.Serve?
    ensures ClientOk(Step(s, a), d)
  {
    assert ClientOk(s, d) && ClientOk(s, a.c);
    match a
    case SendP(c) => PostStep(s, c, P, Asking, s.asked + [c], d);
    case SendV(c) => PostStep(s, c, V, Leaving, s.asked, d);
    case Stray(c, payload) => StrayStep(s, c, payload, d);
    case Trap(c) => PostStep(s, c, V, Dead, s.asked, d);
    case Enter(c) => assert Own(Step(s, a), d) == Own(s, d);
    case Leave(c) => assert Own(Step(s, a), d) == Own(s, d);
    case Kill(c) => assert Own(Step(s, a), d) == Own(s, d);
    case Respawn(c) => assert Own(Step(s, a), d) == Own(s, d);
  }

  lemma StrayStep(s: State, c: Slot, payload: Word, d: Slot)
    requires ClientOk(s, c) && ClientOk(s, d) && s.clients[c] == Out && !AsksP(payload)
    ensures ClientOk(Post(s, c, payload), d)
  {
    PostStep(s, c, payload, Out, s.asked, d);
    assert s.clients[c := Out] == s.clients;
  }

  lemma ClientInv(s: State, a: Action)
    requires Inv(s) && Allowed(s, a) && !a.Serve?
    ensures Inv(Step(s, a))
  {
    forall d: Slot ensures ClientOk(Step(s, a), d) {
      ClientStep(s, a, d);
    }
    match a
    case SendP(c) => AskersSnoc(s.inbox, Msg(0, Packet(PcbPtr(c), P)));
    case SendV(c) => AskersSnoc(s.inbox, Msg(0, Packet(PcbPtr(c), V)));
    case Stray(c, payload) => AskersSnoc(s.inbox, Msg(0, Packet(PcbPtr(c), payload)));
    case Trap(c) => AskersSnoc(s.inbox, Msg(0, Packet(PcbPtr(c), V)));
    case _ =>
  }

  // ----- the steps of the mutex process

  lemma AnswerStep(s: State, d: Slot)
    requires Inv(s) && (s.server.Granting? || s.server.Acking?)
    ensures ClientOk(ServerStep(s), d)
  {
    assert ClientOk(s, d);
  }

  /** What taking a message does to the clients' pending messages. */
  lemma TakeOwn(s: State, d: Slot)
    requires SendersOk(s) && (s.server.Free? || s.server.Held?) && PopMessage(s.inbox, Filter(s.server)).0.Some?
    ensures var m := PopMessage(s.inbox, Filter(s.server)).0.value;
      m.packet.sender == PcbPtr(Sender(m)) && (s.server.Held? ==> Sender(m) == s.server.c)
      && Own(s, d) == (if d == Sender(m) then [m.packet.payload] else []) + Own(ServerStep(s), d)
  {
    var f := Filter(s.server);
    PopIsFirst(s.inbox, f);
    var k := FirstAccepted(s.inbox, f);
    assert s.inbox[k] in s.inbox;
    PopIsOldest(s.inbox, f, PcbPtr(d));
  }

  /** The first RECEIVE. */
  lemma TakeFree(s: State, d: Slot)
    requires Inv(s) && s.server.Free? && PopMessage(s.inbox, ANYMESSAGE).0.Some?
    ensures ClientOk(ServerStep(s), d)
  {
    assert ClientOk(s, d);
    TakeOwn(s, d);
    var m := PopMessage(s.inbox, ANYMESSAGE).0.value;
    var own, rest := Own(s, d), Own(ServerStep(s), d);
    if d == Sender(m) {
      TailOf(own, m.packet.payload, rest);
      assert own[0] == m.packet.payload;
    } else {
      assert own == rest;
    }
  }

  /** The second RECEIVE. */
  lemma TakeHeld(s: State, d: Slot)
    requires Inv(s) && s.server.Held? && PopMessage(s.inbox, PcbPtr(s.server.c)).0.Some?
    ensures ClientOk(ServerStep(s), d)
  {
    assert ClientOk(s, d);
    TakeOwn(s, d);
    var m := PopMessage(s.inbox, PcbPtr(s.server.c)).0.value;
    var own, rest := Own(s, d), Own(ServerStep(s), d);
    if d == Sender(m) {
      TailOf(own, m.packet.payload, rest);
      assert own[0] == m.packet.payload;
    } else {
      assert own == rest;
    }
  }

  lemma TakeStep(s: State, d: Slot)
    requires Inv(s) && (s.server.Free? || s.server.Held?) && PopMessage(s.inbox, Filter(s.server)).0.Some?
    ensures ClientOk(ServerStep(s), d)
  {
    if s.server.Free? {
      TakeFree(s, d);
    } else {
      TakeHeld(s, d);
    }
  }

  lemma TailOf(l: seq<Word>, x: Word, rest: seq<Word>)
    requires l == [x] + rest
    ensures PLast(l) ==> PLast(rest) && (AsksP(x) ==> rest == [])
    ensures NoP(l) ==> NoP(rest) && !AsksP(x)
    ensures rest != [] ==> l[|l| - 1] == rest[|rest| - 1]
  {
    assert forall i | 0 <= i < |rest| :: rest[i] == l[i + 1];
    assert l[0] == x;
  }

  lemma TakeOrder(s: State)
    requires Inv(s) && (s.server.Free? || s.server.Held?) && PopMessage(s.inbox, Filter(s.server)).0.Some?
    ensures var n := ServerStep(s);
      n.asked == n.granted + (if n.server.Granting? then [n.server.c] else []) + Askers(n.inbox)
  {
    var f := Filter(s.server);
    var (m, rest) := PopMessage(s.inbox, f);
    PopIsFirst(s.inbox, f);
    var k := FirstAccepted(s.inbox, f);
    assert m.value == s.inbox[k] && s.inbox[k] in s.inbox;
    if s.server.Held? {
      assert ClientOk(s, s.server.c);
      PopIsOldest(s.inbox, f, f);
      assert Own(s, s.server.c)[0] == m.value.packet.payload;
      AskersRemoval(s.inbox, k);
    } else {
      assert k == 0 && rest == s.inbox[1..];
    }
  }

  lemma ServerInv(s: State)
    requires Inv(s)
    ensures Inv(ServerStep(s))
  {
    if s.server.Granting? || s.server.Acking? {
      forall d: Slot ensures ClientOk(ServerStep(s), d) {
        AnswerStep(s, d);
      }
    } else if PopMessage(s.inbox, Filter(s.server)).0.Some? {
      forall d: Slot ensures ClientOk(ServerStep(s), d) {
        TakeStep(s, d);
      }
      PopIsFirst(s.inbox, Filter(s.server));
      TakeOrder(s);
    }
  }

  lemma StepInv(s: State, a: Action)
    requires Inv(s) && Allowed(s, a)
    ensures Inv(Step(s, a))
  {
    if a.Serve? {
      ServerInv(s);
    } else {
      ClientInv(s, a);
    }
  }

  // ----- runs

  const START := State(Free, [], seq(MAXPROC, _ => Out), seq(MAXPROC, _ => 0), [], [])

  predicate LegalRun(s: State, acts: seq<Action>)
    decreases |acts|
  {
    acts != [] ==> Allowed(s, acts[0]) && LegalRun(Step(s, acts[0]), acts[1..])
  }

  function Exec(s: State, acts: seq<Action>): State
    decreases |acts|
  {
    if acts == [] then s else Exec(Step(s, acts[0]), acts[1..])
  }

  lemma {:induction false} RunInv(s: State, acts: seq<Action>)
    requires Inv(s) && LegalRun(s, acts)
    ensures Inv(Exec(s, acts))
    decreases |acts|
  {
    if acts != [] {
      StepInv(s, acts[0]);
      RunInv(Step(s, acts[0]), acts[1..]);
    }
  }

  lemma StartInv()
    ensures Inv(START)
  {
    forall c: Slot ensures ClientOk(START, c) {
      assert Own(START, c) == [];
    }
  }

  /** Over every interleaving, at most one client is between its grant and its V, and Ps are granted in the order
      in which they were sent. */
  lemma MutualExclusion(acts: seq<Action>, c: Slot, d: Slot)
    requires LegalRun(START, acts)
    ensures var s := Exec(START, acts);
      && (s.clients[c] == Inside && s.clients[d] == Inside ==> c == d)
      && s.granted <= s.asked
  {
    StartInv();
    RunInv(START, acts);
    assert ClientOk(Exec(START, acts), c) && ClientOk(Exec(START, acts), d);
  }

  /** A V from anybody but the holder is read and forgotten: the server's state stays what it was. */
  lemma StrayDiscarded(s: State)
    requires Inv(s) && s.server.Free? && s.inbox != [] && !AsksP(s.inbox[0].packet.payload)
    ensures ServerStep(s) == s.(inbox := s.inbox[1..])
  {
  }

  /** The mutex's next message, byte by byte: at the first RECEIVE a sender whose byte 0 is 1 is granted the mutex, at
      the second one the holder ends by a byte 1 that is 1; anything else is forgotten. */
  lemma ReadsBytes(s: State, c: Slot, p: int, v: int, rest: int)
    requires 0 <= p < 256 && 0 <= v < 256
    requires s.inbox != [] && s.inbox[0].packet == Packet(PcbPtr(c), Num(p + 0x100 * v + 0x1_0000 * rest))
    ensures s.server == Free ==>
      ServerStep(s) == s.(inbox := s.inbox[1..], server := if p == 1 then Granting(c) else Free)
    ensures s.server == Held(c) ==>
      ServerStep(s) == s.(inbox := s.inbox[1..], server := if v == 1 then Acking(c) else Held(c))
  {
    var n := p + 0x100 * v + 0x1_0000 * rest;
    assert n == p + 0x100 * (v + 0x100 * rest);
    assert n % 256 == p && n / 256 == v + 0x100 * rest;
    assert n / 256 % 256 == v;
  }

  /** While somebody holds the mutex, only the holder's messages are read. */
  lemma HolderOnly(s: State, d: Slot)
    requires Inv(s) && s.server.Held? && d != s.server.c
    ensures Own(ServerStep(s), d) == Own(s, d)
    ensures !ServerStep(s).server.About(d)
  {
    var f := Filter(s.server);
    PopIsFirst(s.inbox, f);
    if PopMessage(s.inbox, f).0.Some? {
      PopIsOldest(s.inbox, f, PcbPtr(d));
    }
  }

  /** Reusing the entry of a dead client keeps the protocol's invariant if and only if the mutex is through with it. */
  lemma RespawnExact(s: State, c: Slot)
    requires Inv(s) && s.clients[c] == Dead
    ensures Inv(Step(s, Respawn(c))) <==> Allowed(s, Respawn(c))
  {
    var r := Step(s, Respawn(c));
    assert Own(r, c) == Own(s, c);
    if Allowed(s, Respawn(c)) {
      StepInv(s, Respawn(c));
    } else {
      assert !ClientOk(r, c);
    }
  }

  lemma RunCons(s: State, a: Action, acts: seq<Action>)
    ensures Exec(s, [a] + acts) == Exec(Step(s, a), acts)
    ensures LegalRun(s, [a] + acts) <==> Allowed(s, a) && LegalRun(Step(s, a), acts)
  {
    assert ([a] + acts)[1..] == acts;
  }

  /** Client 1 dies in the critical section, having sent its V. */
  const TO_DEATH := [SendP(1)] + ([Serve] + ([Serve] + ([Enter(1)] + ([Trap(1)] + []))))

  lemma DeadHolder()
    ensures LegalRun(START, TO_DEATH)
    ensures var s := Exec(START, TO_DEATH);
      && s.server == Held(1) && s.clients[1] == Dead && (forall c: Slot | c != 1 :: s.clients[c] == Out)
      && s.inbox == [Msg(0, Packet(PcbPtr(1), V))] && forall c: Slot :: s.answers[c] == 0
  {
    RunCons(START, SendP(1), [Serve] + ([Serve] + ([Enter(1)] + ([Trap(1)] + []))));
    var s1 := Step(START, SendP(1));
    RunCons(s1, Serve, [Serve] + ([Enter(1)] + ([Trap(1)] + [])));
    var s2 := Step(s1, Serve);
    assert s2.server == Granting(1) && s2.inbox == [];
    RunCons(s2, Serve, [Enter(1)] + ([Trap(1)] + []));
    var s3 := Step(s2, Serve);
    RunCons(s3, Enter(1), [Trap(1)] + []);
    var s4 := Step(s3, Enter(1));
    assert s4.server == Held(1) && s4.clients[1] == Inside && s4.inbox == [];
    RunCons(s4, Trap(1), []);
  }

  const TO_CLASH :=
    [SendP(2)] + ([SendP(1)] + ([Serve] + ([Serve] + ([Enter(1)] + ([Serve] + ([Serve] + ([Enter(2)] + [])))))))

  lemma Successor(s: State)
    requires s.server == Held(1) && s.inbox == [Msg(0, Packet(PcbPtr(1), V))]
    requires forall c: Slot :: s.clients[c] == Out && s.answers[c] == 0
    ensures LegalRun(s, TO_CLASH) && Exec(s, TO_CLASH).clients[1] == Inside && Exec(s, TO_CLASH).clients[2] == Inside
  {
    RunCons(s, SendP(2), [SendP(1)] + ([Serve] + ([Serve] + ([Enter(1)] + ([Serve] + ([Serve] + ([Enter(2)] + [])))))));
    var s1 := Step(s, SendP(2));
    RunCons(s1, SendP(1), [Serve] + ([Serve] + ([Enter(1)] + ([Serve] + ([Serve] + ([Enter(2)] + []))))));
    var s2 := Step(s1, SendP(1));
    var p2, p1 := Msg(0, Packet(PcbPtr(2), P)), Msg(0, Packet(PcbPtr(1), P));
    assert s2.inbox == [Msg(0, Packet(PcbPtr(1), V)), p2, p1];
    RunCons(s2, Serve, [Serve] + ([Enter(1)] + ([Serve] + ([Serve] + ([Enter(2)] + [])))));
    var s3 := Step(s2, Serve);
    assert s3.server == Acking(1) && s3.inbox == [p2, p1];
    RunCons(s3, Serve, [Enter(1)] + ([Serve] + ([Serve] + ([Enter(2)] + []))));
    var s4 := Step(s3, Serve);
    RunCons(s4, Enter(1), [Serve] + ([Serve] + ([Enter(2)] + [])));
    var s5 := Step(s4, Enter(1));
    assert s5.server == Free && s5.clients[1] == Inside && s5.inbox == [p2, p1];
    RunCons(s5, Serve, [Serve] + ([Enter(2)] + []));
    var s6 := Step(s5, Serve);
    assert s6.server == Granting(2);
    RunCons(s6, Serve, [Enter(2)] + []);
    var s7 := Step(s6, Serve);
    RunCons(s7, Enter(2), []);
  }

  /** Reusing the table entry of a client that died inside breaks exclusion: its successor takes the answer to the
      dead client's V for its own grant. */
  lemma ReuseBreaksExclusion()
    ensures LegalRun(START, TO_DEATH) && Exec(START, TO_DEATH).clients[1] == Dead
    ensures var s := Step(Exec(START, TO_DEATH), Respawn(1));
      LegalRun(s, TO_CLASH) && Exec(s, TO_CLASH).clients[1] == Inside && Exec(s, TO_CLASH).clients[2] == Inside
  {
    DeadHolder();
    Successor(Step(Exec(START, TO_DEATH), Respawn(1)));
  }
}
