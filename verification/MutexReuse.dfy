/** Which table entries of dead clients can be reused early without endangering mutual exclusion. */
module MutexReuse {
  import opened Kernel
  import opened Mail
  import opened Mutex

  predicate NoV(l: seq<Word>) {
    forall i | 0 <= i < |l| :: !AsksV(l[i])
  }

  /** No V after the first P: when the P is granted, nothing that is pending ends the turn. */
  predicate NoRelease(l: seq<Word>) {
    l == [] || if AsksP(l[0]) then NoV(l[1..]) else NoRelease(l[1..])
  }

  /** Nothing that the mutex will still do for the former occupant of `c` answers a V. */
  predicate Clean(s: State, c: Slot) {
    if s.server.About(c) then !s.server.Acking? && NoV(Own(s, c)) else NoRelease(Own(s, c))
  }

  /** As `Mutex.Allowed`, but an entry may be reused earlier; its new occupant sends no V out of turn while the mutex
      still serves the old one. */
  predicate Permitted(s: State, a: Action) {
    match a
    case Stray(c, payload) =>
      s.clients[c] == Out && !AsksP(payload) && (AsksV(payload) ==> !s.server.About(c) && NoP(Own(s, c)))
    case Respawn(c) => s.clients[c] == Dead && Clean(s, c)
    case _ => Allowed(s, a)
  }

  /** A client that is not in the critical section, nor on its way out of it. At most one grant is ahead of it. */
  predicate OutsideOk(s: State, c: Slot) {
    && Clean(s, c)
    && s.answers[c] <= (if s.server == Held(c) then 1 else 0)
  }

  predicate WideOk(s: State, c: Slot) {
    var own := Own(s, c);
    match s.clients[c]
    case Out => OutsideOk(s, c)
    case Asking => OutsideOk(s, c)
    case Inside => s.answers[c] == 0 && s.server == Held(c) && NoV(own)
    case Leaving =>
      if s.answers[c] == 0 then
        || (s.server == Held(c) && own != [] && own[|own| - 1] == V && NoV(own[..|own| - 1]))
        || (s.server == Acking(c) && own == [])
      else s.answers[c] == 1 && !s.server.About(c) && own == []
    case Dead => true
  }

  ghost predicate WideInv(s: State) {
    (forall c: Slot {:trigger WideOk(s, c)} :: WideOk(s, c)) && SendersOk(s)
  }

  lemma {:induction false} NoReleaseSnoc(l: seq<Word>, x: Word)
    requires NoRelease(l) && (AsksV(x) ==> NoP(l) && !AsksP(x))
    ensures NoRelease(l + [x])
  {
    if l == [] {
      assert l + [x] == [x] && [x][1..] == [];
    } else {
      assert (l + [x])[1..] == l[1..] + [x];
      if !AsksP(l[0]) {
        assert NoP(l) ==> NoP(l[1..]);
        NoReleaseSnoc(l[1..], x);
      } else {
        assert !NoP(l);
      }
    }
  }

  lemma {:induction false} NoPNoRelease(l: seq<Word>)
    requires NoP(l)
    ensures NoRelease(l)
  {
    if l != [] {
      assert NoP(l[1..]);
      NoPNoRelease(l[1..]);
    }
  }

  /** The wider protocol permits all that `Mutex` allows. */
  lemma Wider(s: State, a: Action)
    requires Inv(s) && Allowed(s, a)
    ensures Permitted(s, a)
  {
    match a
    case Stray(c, _) => assert ClientOk(s, c);
    case Respawn(c) => NoPNoRelease(Own(s, c));
    case _ =>
  }

  // ----- the steps of clients

  lemma WidePost(s: State, c: Slot, payload: Word, k: Client, asked: seq<Slot>, d: Slot)
    requires WideOk(s, c) && WideOk(s, d)
    requires (s.clients[c] == Out && k == Asking && payload == P)
      || (s.clients[c] == Out && k == Out && Permitted(s, Stray(c, payload)))
      || (s.clients[c] == Inside && k == Leaving && payload == V)
      || k == Dead
    ensures WideOk(Become(Post(s, c, payload), c, k).(asked := asked), d)
  {
    var n := Become(Post(s, c, payload), c, k).(asked := asked);
    OwnPost(s, c, payload, d);
    assert Own(n, d) == Own(Post(s, c, payload), d);
    if d != c {
      assert Own(n, d) == Own(s, d);
    } else if k != Dead {
      WidePosted(s, n, c, payload);
    }
  }

  /** The sender itself. */
  lemma WidePosted(s: State, n: State, c: Slot, payload: Word)
    requires WideOk(s, c) && n.server == s.server && n.answers == s.answers && Own(n, c) == Own(s, c) + [payload]
    requires (s.clients[c] == Out && n.clients[c] == Asking && payload == P)
      || (s.clients[c] == Out && n.clients[c] == Out && Permitted(s, Stray(c, payload)))
      || (s.clients[c] == Inside && n.clients[c] == Leaving && payload == V)
    ensures WideOk(n, c)
  {
    assert Own(n, c)[..|Own(n, c)| - 1] == Own(s, c);
    if !s.server.About(c) && s.clients[c] == Out {
      NoReleaseSnoc(Own(s, c), payload);
    }
  }

  lemma WideClient(s: State, a: Action, d: Slot)
    requires WideInv(s) && Permitted(s, a) && !a.Serve?
    ensures WideOk(Step(s, a), d)
  {
    assert WideOk(s, d) && WideOk(s, a.c);
    match a
    case SendP(c) => WidePost(s, c, P, Asking, s.asked + [c], d);
    case SendV(c) => WidePost(s, c, V, Leaving, s.asked, d);
    case Stray(c, payload) =>
      WidePost(s, c, payload, Out, s.asked, d);
      assert s.clients[c := Out] == s.clients;
    case Trap(c) => WidePost(s, c, V, Dead, s.asked, d);
    case Enter(c) => assert Own(Step(s, a), d) == Own(s, d);
    case Leave(c) => assert Own(Step(s, a), d) == Own(s, d);
    case Kill(c) => assert Own(Step(s, a), d) == Own(s, d);
    case Respawn(c) => assert Own(Step(s, a), d) == Own(s, d);
  }

  // ----- the steps of the mutex process

  lemma WideAnswer(s: State, d: Slot)
    requires WideInv(s) && (s.server.Granting? || s.server.Acking?)
    ensures WideOk(ServerStep(s), d)
  {
    assert WideOk(s, d);
    assert Own(ServerStep(s), d) == Own(s, d);
    if s.server.Acking? && s.server.c != d {
      assert s.server.About(d) == ServerStep(s).server.About(d);
    }
  }

  lemma WideTake(s: State, d: Slot)
    requires WideInv(s) && (s.server.Free? || s.server.Held?) && PopMessage(s.inbox, Filter(s.server)).0.Some?
    ensures WideOk(ServerStep(s), d)
  {
    assert WideOk(s, d);
    TakeOwn(s, d);
    var m := PopMessage(s.inbox, Filter(s.server)).0.value;
    var own, rest := Own(s, d), Own(ServerStep(s), d);
    if d == Sender(m) {
      assert own[0] == m.packet.payload && own[1..] == rest;
      assert forall i | 0 <= i < |rest| :: rest[i] == own[i + 1];
      if |own| > 1 {
        assert own[..|own| - 1][1..] == rest[..|rest| - 1];
      }
    } else {
      assert own == rest;
    }
  }

  lemma WideStep(s: State, a: Action)
    requires WideInv(s) && Permitted(s, a)
    ensures WideInv(Step(s, a))
  {
    if !a.Serve? {
      forall d: Slot ensures WideOk(Step(s, a), d) {
        WideClient(s, a, d);
      }
    } else if s.server.Granting? || s.server.Acking? {
      forall d: Slot ensures WideOk(Step(s, a), d) {
        WideAnswer(s, d);
      }
    } else if PopMessage(s.inbox, Filter(s.server)).0.Some? {
      forall d: Slot ensures WideOk(Step(s, a), d) {
        WideTake(s, d);
      }
      PopIsFirst(s.inbox, Filter(s.server));
    }
  }

  // ----- runs

  predicate PermittedRun(s: State, acts: seq<Action>)
    decreases |acts|
  {
    acts != [] ==> Permitted(s, acts[0]) && PermittedRun(Step(s, acts[0]), acts[1..])
  }

  lemma {:induction false} WideRun(s: State, acts: seq<Action>)
    requires WideInv(s) && PermittedRun(s, acts)
    ensures WideInv(Exec(s, acts))
    decreases |acts|
  {
    if acts != [] {
      WideStep(s, acts[0]);
      WideRun(Step(s, acts[0]), acts[1..]);
    }
  }

  predicate Clash(s: State) {
    exists c: Slot, d: Slot :: c != d && s.clients[c] == Inside && s.clients[d] == Inside
  }

  lemma NoClash(s: State)
    requires WideInv(s)
    ensures !Clash(s)
  {
    forall c: Slot, d: Slot | s.clients[c] == Inside && s.clients[d] == Inside ensures c == d {
      assert WideOk(s, c) && WideOk(s, d);
    }
  }

  /** At most one client is in the critical section, also when entries are reused while the mutex still holds a P of
      the former occupant or has granted it, as long as no V of his is pending or being answered. */
  lemma ExclusionWithReuse(acts: seq<Action>)
    requires PermittedRun(START, acts)
    ensures !Clash(Exec(START, acts))
  {
    forall c: Slot ensures WideOk(START, c) {
      assert Own(START, c) == [];
    }
    WideRun(START, acts);
    NoClash(Exec(START, acts));
  }

  /** Reuse keeps the invariant if and only if the entry is clean. */
  lemma ReuseExact(s: State, c: Slot)
    requires WideInv(s) && s.clients[c] == Dead
    ensures WideInv(Step(s, Respawn(c))) <==> Clean(s, c)
  {
    var r := Step(s, Respawn(c));
    assert Own(r, c) == Own(s, c);
    if Clean(s, c) {
      WideStep(s, Respawn(c));
    } else {
      assert !WideOk(r, c);
    }
  }

  // ----- an entry that is not clean

  lemma {:induction false} PermittedConcat(s: State, a: seq<Action>, b: seq<Action>)
    ensures PermittedRun(s, a + b) <==> PermittedRun(s, a) && PermittedRun(Exec(s, a), b)
    ensures Exec(s, a + b) == Exec(Exec(s, a), b)
    decreases |a|
  {
    if a == [] {
      assert a + b == b;
    } else {
      assert (a + b)[0] == a[0] && (a + b)[1..] == a[1..] + b;
      PermittedConcat(Step(s, a[0]), a[1..], b);
    }
  }

  lemma RunOf(s: State, a: Action)
    ensures PermittedRun(s, [a]) <==> Permitted(s, a)
    ensures Exec(s, [a]) == Step(s, a)
  {
    assert [a][1..] == [];
  }

  lemma Then(s: State, acts: seq<Action>, n: State, a: Action) returns (acts': seq<Action>, r: State)
    requires PermittedRun(s, acts) && Exec(s, acts) == n && Permitted(n, a)
    ensures PermittedRun(s, acts') && Exec(s, acts') == r && r == Step(n, a)
  {
    PermittedConcat(s, acts, [a]);
    RunOf(n, a);
    acts', r := acts + [a], Step(n, a);
  }

  /** No P is pending. */
  predicate Unasked(l: seq<Msg>) {
    forall m | m in l :: !AsksP(m.packet.payload)
  }

  /** The mutex discards messages without P until it reaches `rest`. */
  lemma {:induction false} Discard(s: State, acts: seq<Action>, n: State, l: seq<Msg>, rest: seq<Msg>)
    returns (acts': seq<Action>, r: State)
    requires PermittedRun(s, acts) && Exec(s, acts) == n && n.server == Free && n.inbox == l + rest && Unasked(l)
    ensures PermittedRun(s, acts') && Exec(s, acts') == r && r == n.(inbox := rest)
    decreases |l|
  {
    acts', r := acts, n;
    if l != [] {
      assert l[0] in l && n.inbox[0] == l[0] && n.inbox[1..] == l[1..] + rest;
      acts', r := Then(s, acts, n, Serve);
      acts', r := Discard(s, acts', r, l[1..], rest);
    } else {
      assert l + rest == rest;
    }
  }

  /** A successor takes the answer to a V of the former occupant for its own grant, and another client is granted. */
  lemma ClashWhileAcking(s: State, acts: seq<Action>, n: State, c: Slot, d: Slot) returns (acts': seq<Action>, r: State)
    requires PermittedRun(s, acts) && Exec(s, acts) == n && n.server == Acking(c) && Unasked(n.inbox)
    requires c != d && n.clients[c] == Out && n.clients[d] == Out
    ensures PermittedRun(s, acts') && Exec(s, acts') == r && Clash(r)
  {
    var l := n.inbox;
    acts', r := Then(s, acts, n, Serve);
    acts', r := Then(s, acts', r, SendP(d));
    acts', r := Then(s, acts', r, SendP(c));
    acts', r := Then(s, acts', r, Enter(c));
    var pd, pc := Msg(0, Packet(PcbPtr(d), P)), Msg(0, Packet(PcbPtr(c), P));
    assert r.inbox == l + [pd, pc];
    acts', r := Discard(s, acts', r, l, [pd, pc]);
    acts', r := Then(s, acts', r, Serve);
    assert r.server == Granting(d);
    acts', r := Then(s, acts', r, Serve);
    acts', r := Then(s, acts', r, Enter(d));
    assert r.clients[c] == Inside && r.clients[d] == Inside;
  }

  lemma HolderHasMessage(n: State, c: Slot)
    requires !NoV(Own(n, c))
    ensures var (m, rest) := PopMessage(n.inbox, PcbPtr(c));
      m.Some? && |rest| < |n.inbox| && forall m | m in rest :: m in n.inbox
  {
    PopIsFirst(n.inbox, PcbPtr(c));
    if NoneAccepted(n.inbox, PcbPtr(c)) {
      NoneFrom(n.inbox, PcbPtr(c), PcbPtr(c));
      assert false;
    }
  }

  /** The mutex reads one of the holder's messages. */
  lemma ReadOne(n: State, c: Slot)
    requires n.server == Held(c) && SendersOk(n) && !NoV(Own(n, c)) && Unasked(n.inbox)
    ensures var r := ServerStep(n);
      && r.clients == n.clients && SendersOk(r) && Unasked(r.inbox) && |r.inbox| < |n.inbox|
      && (r.server == Acking(c) || (r.server == Held(c) && !NoV(Own(r, c))))
  {
    HolderHasMessage(n, c);
    TakeOwn(n, c);
    var own, rest := Own(n, c), Own(ServerStep(n), c);
    assert forall i | 1 <= i < |own| :: own[i] == rest[i - 1];
    assert forall m | m in ServerStep(n).inbox :: m in n.inbox;
  }

  /** The mutex reads the holder's messages up to a V. */
  lemma {:induction false} ReadToV(s: State, acts: seq<Action>, n: State, c: Slot)
    returns (acts': seq<Action>, r: State)
    requires PermittedRun(s, acts) && Exec(s, acts) == n && n.server == Held(c) && SendersOk(n)
    requires !NoV(Own(n, c)) && Unasked(n.inbox)
    ensures PermittedRun(s, acts') && Exec(s, acts') == r && r.server == Acking(c) && Unasked(r.inbox)
      && r.clients == n.clients
    decreases |n.inbox|
  {
    ReadOne(n, c);
    acts', r := Then(s, acts, n, Serve);
    if r.server.Held? {
      acts', r := ReadToV(s, acts', r, c);
    }
  }

  /** The mutex reads up to the only P, which is `c`'s. */
  lemma {:induction false} ReadToP(s: State, acts: seq<Action>, n: State, c: Slot)
    returns (acts': seq<Action>, r: State)
    requires PermittedRun(s, acts) && Exec(s, acts) == n && n.server == Free && SendersOk(n)
    requires Askers(n.inbox) == [c] && !NoRelease(Own(n, c))
    ensures PermittedRun(s, acts') && Exec(s, acts') == r && r.server == Granting(c) && SendersOk(r)
    ensures Unasked(r.inbox) && r.clients == n.clients && !NoV(Own(r, c))
    decreases |n.inbox|
  {
    var m := n.inbox[0];
    TakeOwn(n, c);
    assert Own(n, c) == (if c == Sender(m) then [m.packet.payload] else []) + Own(ServerStep(n), c);
    acts', r := Then(s, acts, n, Serve);
    assert r.inbox == n.inbox[1..];
    if AsksP(m.packet.payload) {
      UnaskedAskers(n.inbox[1..]);
      assert Askers(n.inbox) == [Sender(m)] + Askers(n.inbox[1..]);
      assert Sender(m) == Askers(n.inbox)[0] == c;
      assert Own(n, c) == [m.packet.payload] + Own(r, c);
      assert Own(n, c)[1..] == Own(r, c);
    } else {
      assert Askers(n.inbox) == Askers(n.inbox[1..]);
      if c == Sender(m) {
        assert Own(n, c) == [m.packet.payload] + Own(r, c);
        assert Own(n, c)[1..] == Own(r, c);
      } else {
        assert Own(n, c) == Own(r, c);
      }
      acts', r := ReadToP(s, acts', r, c);
    }
  }

  lemma {:induction false} UnaskedAskers(l: seq<Msg>)
    ensures Unasked(l) <==> Askers(l) == []
  {
    if l != [] {
      UnaskedAskers(l[1..]);
      assert forall m | m in l :: m == l[0] || m in l[1..];
      assert l[0] in l && forall m | m in l[1..] :: m in l;
    }
  }

  /** The mutex has nobody to serve but `c`: it serves it and no P is pending, or `c`'s is the only P. */
  predicate ServesOnly(s: State, c: Slot) {
    if s.server.About(c) then Askers(s.inbox) == [] else s.server == Free && Askers(s.inbox) == [c]
  }

  /** Reusing an entry that is not clean can put two clients inside. */
  lemma ReuseClashes(s: State, c: Slot, d: Slot) returns (acts: seq<Action>, r: State)
    requires WideInv(s) && s.clients[c] == Dead && ServesOnly(s, c) && !Clean(s, c)
    requires c != d && s.clients[d] == Out
    ensures PermittedRun(Step(s, Respawn(c)), acts) && Exec(Step(s, Respawn(c)), acts) == r && Clash(r)
  {
    var s1 := Step(s, Respawn(c));
    UnaskedAskers(s.inbox);
    assert Own(s1, c) == Own(s, c);
    acts, r := [], s1;
    if r.server.Free? {
      acts, r := ReadToP(s1, acts, r, c);
    }
    if r.server.Granting? {
      ghost var g := r;
      acts, r := Then(s1, acts, r, Serve);
      assert Own(r, c) == Own(g, c);
    }
    if r.server.Held? {
      acts, r := ReadToV(s1, acts, r, c);
    }
    acts, r := ClashWhileAcking(s1, acts, r, c, d);
  }

  /** When the mutex has nobody else to serve, and somebody else is there to ask: reuse of an entry can put two clients
      inside if and only if the entry is not clean. */
  lemma ReuseSafe(s: State, c: Slot, d: Slot)
    requires WideInv(s) && s.clients[c] == Dead && ServesOnly(s, c) && c != d && s.clients[d] == Out
    ensures Clean(s, c) <==>
      forall acts | PermittedRun(Step(s, Respawn(c)), acts) :: !Clash(Exec(Step(s, Respawn(c)), acts))
  {
    if Clean(s, c) {
      ReuseExact(s, c);
      forall acts | PermittedRun(Step(s, Respawn(c)), acts) ensures !Clash(Exec(Step(s, Respawn(c)), acts)) {
        WideRun(Step(s, Respawn(c)), acts);
        NoClash(Exec(Step(s, Respawn(c)), acts));
      }
    } else {
      var acts, r := ReuseClashes(s, c, d);
    }
  }

  // ----- a clean entry that holds the mutex

  /** The mutex waits for a V that nobody will send. */
  predicate Starved(s: State, c: Slot) {
    s.server == Held(c) && NoV(Own(s, c)) && s.answers[c] == 0 && s.clients[c] != Inside && s.clients[c] != Leaving
  }

  lemma NobodyInside(s: State, c: Slot)
    requires WideInv(s) && Starved(s, c)
    ensures forall d: Slot :: s.clients[d] != Inside && (s.clients[d] == Asking ==> s.answers[d] == 0)
  {
    forall d: Slot ensures s.clients[d] != Inside && (s.clients[d] == Asking ==> s.answers[d] == 0) {
      assert WideOk(s, d);
    }
  }

  lemma StarvedStep(s: State, c: Slot, a: Action)
    requires WideInv(s) && Permitted(s, a) && Starved(s, c) && a != Trap(c)
    ensures Starved(Step(s, a), c)
  {
    NobodyInside(s, c);
    assert WideOk(s, c);
    match a
    case SendP(d) => OwnPost(s, d, P, c); assert Own(Step(s, a), c) == Own(Post(s, d, P), c);
    case SendV(_) =>
    case Stray(d, payload) => OwnPost(s, d, payload, c);
    case Trap(d) => OwnPost(s, d, V, c); assert Own(Step(s, a), c) == Own(Post(s, d, V), c);
    case Serve => StarvedServe(s, c);
    case Enter(_) =>
    case Leave(d) => assert WideOk(s, d) && Own(Step(s, a), c) == Own(s, c);
    case Kill(d) => assert Own(Step(s, a), c) == Own(s, c);
    case Respawn(d) => assert Own(Step(s, a), c) == Own(s, c);
  }

  lemma StarvedServe(s: State, c: Slot)
    requires WideInv(s) && Starved(s, c)
    ensures Starved(ServerStep(s), c)
  {
    if PopMessage(s.inbox, PcbPtr(c)).0.Some? {
      TakeOwn(s, c);
      var m := PopMessage(s.inbox, PcbPtr(c)).0.value;
      var own, rest := Own(s, c), Own(ServerStep(s), c);
      assert own == [m.packet.payload] + rest && own[0] == m.packet.payload;
      assert forall i | 0 <= i < |rest| :: rest[i] == own[i + 1];
    }
  }

  /** A clean entry that holds the mutex, its occupant having died without V: nobody ever enters again, not even the
      successor, whose P the mutex reads and forgets. Only a trap of the successor, which sends a V, ends this. */
  lemma {:induction false} ReuseStarves(s: State, c: Slot, acts: seq<Action>)
    requires WideInv(s) && Starved(s, c) && PermittedRun(s, acts) && forall a | a in acts :: a != Trap(c)
    ensures Starved(Exec(s, acts), c) && forall d: Slot :: Exec(s, acts).clients[d] != Inside
    decreases |acts|
  {
    if acts == [] {
      NobodyInside(s, c);
    } else {
      assert acts[0] in acts && forall a | a in acts[1..] :: a in acts;
      WideStep(s, acts[0]);
      StarvedStep(s, c, acts[0]);
      ReuseStarves(Step(s, acts[0]), c, acts[1..]);
    }
  }

  /** Reuse leads into that state. */
  lemma HolderReused(s: State, c: Slot)
    requires WideInv(s) && s.clients[c] == Dead && s.server == Held(c) && Clean(s, c)
    ensures Permitted(s, Respawn(c)) && WideInv(Step(s, Respawn(c))) && Starved(Step(s, Respawn(c)), c)
  {
    ReuseExact(s, c);
    assert Own(Step(s, Respawn(c)), c) == Own(s, c);
  }
}
