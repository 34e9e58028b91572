/** Paging is transparent: over all interleavings of accesses, TLB refills, exits and the steps of fault handlers,
    every process has the flat memory it would have without paging. */
module PagingRuns {
  import opened Paging
  import opened PagingInv

  datatype Machine = Machine(vm: Vm, live: set<Asid>)

  datatype VmEvent =
    | Thread(a: Asid, hi: int)
    | Fault(a: Asid, hi: int)
    | WriteVictim
    | LoadPage
    | MapPage
    | RefillTlb(a: Asid, hi: int, evicted: set<int>)
    | Read(a: Asid, hi: int)
    | Write(a: Asid, hi: int, content: Page)
    | Exit(a: Asid)

  /** The event can happen, and the handler meets the conditions of `FaultExact`, `LoadTrap`, `LoadStep` and
      `InstallExact`: the page is not mapped in another frame, its table has an entry left unless the frame was free,
      and when the handler reads the saved EntryHi again, no fault of another thread has replaced it. `Thread` is such
      a fault; it may come at any time. */
  predicate Allowed(m: Machine, e: VmEvent) {
    match e
    case Thread(a, hi) => a in m.live && UserHi(a, hi)
    case Fault(a, hi) =>
      m.vm.phase.Idle? && a in m.live && UserHi(a, hi) && SavedHi(m.vm, a) == hi && NotDuplicated(m.vm, a, hi)
    case WriteVictim => m.vm.phase.Evicting?
    case LoadPage =>
      m.vm.phase.Loading? && if Load(m.vm).phase.Idle? then m.vm.pool[m.vm.phase.f].asid == NOPROC else SameSlot(m.vm)
    case MapPage => m.vm.phase.Loaded? && SavedHi(m.vm, m.vm.phase.asid) == m.vm.phase.hi
    case RefillTlb(a, hi, _) => a in m.live && UserHi(a, hi) && hi !in m.vm.tlb
    case Read(a, hi) => a in m.live && UserHi(a, hi) && hi in m.vm.tlb && ValidBit(m.vm.tlb[hi])
    case Write(a, hi, _) =>
      a in m.live && UserHi(a, hi) && hi in m.vm.tlb && ValidBit(m.vm.tlb[hi]) && DirtyBit(m.vm.tlb[hi])
    case Exit(a) => a in m.live && (m.vm.phase.Idle? || m.vm.phase.asid != a)
  }

  ghost predicate Ok(m: Machine) {
    VmOk(m.vm, m.live)
  }

  ghost function Step(m: Machine, e: VmEvent): Machine
    requires Ok(m) && Allowed(m, e)
  {
    match e
    case Thread(a, hi) => m.(vm := Raise(m.vm, a, hi))
    case Fault(a, hi) => m.(vm := Start(m.vm, a, hi))
    case WriteVictim => m.(vm := WriteBack(m.vm))
    case LoadPage => m.(vm := Load(m.vm))
    case MapPage => m.(vm := Install(m.vm))
    case RefillTlb(a, hi, evicted) => m.(vm := Refill(m.vm, a, hi, evicted))
    case Read(_, _) => m
    case Write(a, hi, content) => AccessFrame(m.vm, m.live, a, hi); m.(vm := Store(m.vm, hi, content))
    case Exit(a) => Machine(MarkFree(m.vm, a), m.live - {a})
  }

  /** The flat memory's own step: only a write changes anything, and only the word's own page. */
  function Written(e: VmEvent, a: Asid, hi: int, before: Page): Page {
    if e.Write? && e.a == a && e.hi == hi then e.content else before
  }

  ghost predicate FlatStep(m: Machine, e: VmEvent, n: Machine) {
    forall a: Asid, hi: int {:trigger Mem(n.vm, a, hi)} | a in n.live && UserHi(a, hi) ::
      Mem(n.vm, a, hi) == Written(e, a, hi, Mem(m.vm, a, hi))
  }

  lemma StartOk(v: Vm, live: set<Asid>, a: Asid, hi: int)
    requires VmOk(v, live) && v.phase.Idle? && a in live && UserHi(a, hi) && SavedHi(v, a) == hi
    ensures VmCore(Start(v, a, hi), live) && SameMem(v, Start(v, a, hi), live)
    ensures NotDuplicated(v, a, hi) ==> VmOk(Start(v, a, hi), live)
  {
    if v.pool[GetFrameIndex(v).0].asid == NOPROC {
      StartFree(v, live, a, hi);
    } else {
      StartUsed(v, live, a, hi);
    }
  }

  lemma StepOk(m: Machine, e: VmEvent)
    requires Ok(m) && Allowed(m, e)
    ensures Ok(Step(m, e)) && FlatStep(m, e, Step(m, e))
  {
    match e
    case Thread(a, hi) => RaiseStep(m.vm, m.live, a, hi);
    case Fault(a, hi) => StartOk(m.vm, m.live, a, hi);
    case WriteVictim => WriteBackStep(m.vm, m.live);
    case LoadPage => if Load(m.vm).phase.Loaded? { LoadStep(m.vm, m.live); } else { LoadTrap(m.vm, m.live); }
    case MapPage => InstallStep(m.vm, m.live);
    case RefillTlb(a, hi, evicted) => RefillStep(m.vm, m.live, a, hi, evicted);
    case Read(_, _) =>
    case Write(a, hi, content) => WriteOk(m, a, hi, content);
    case Exit(a) => ExitStep(m.vm, m.live, a);
  }

  lemma WriteOk(m: Machine, a: Asid, hi: int, content: Page)
    requires Ok(m) && Allowed(m, Write(a, hi, content))
    ensures var n := Step(m, Write(a, hi, content)); Ok(n) && FlatStep(m, Write(a, hi, content), n)
  {
    StoreStep(m.vm, m.live, a, hi, content);
    forall b: Asid, h: int | b in m.live && UserHi(b, h)
      ensures Mem(Store(m.vm, hi, content), b, h) == if b == a && h == hi then content else Mem(m.vm, b, h)
    {
      StoreMem(m.vm, m.live, a, hi, content, b, h);
    }
  }

  ghost predicate LegalRun(m: Machine, es: seq<VmEvent>)
    requires Ok(m)
    decreases |es|
  {
    es != [] ==> Allowed(m, es[0]) && (StepOk(m, es[0]); LegalRun(Step(m, es[0]), es[1..]))
  }

  ghost function Exec(m: Machine, es: seq<VmEvent>): (n: Machine)
    requires Ok(m) && LegalRun(m, es)
    ensures Ok(n)
    decreases |es|
  {
    if es == [] then m else StepOk(m, es[0]); Exec(Step(m, es[0]), es[1..])
  }

  /** The last thing written to a page, or what was there before. */
  function LastWritten(es: seq<VmEvent>, a: Asid, hi: int, before: Page): Page {
    if es == [] then before else LastWritten(es[1..], a, hi, Written(es[0], a, hi, before))
  }

  /** After any run, the page of a live process is what was last written to it. */
  lemma {:induction false} FlatMemory(m: Machine, es: seq<VmEvent>, a: Asid, hi: int)
    requires Ok(m) && LegalRun(m, es) && a in Exec(m, es).live && UserHi(a, hi)
    ensures a in m.live && Mem(Exec(m, es).vm, a, hi) == LastWritten(es, a, hi, Mem(m.vm, a, hi))
    decreases |es|
  {
    if es != [] {
      StepOk(m, es[0]);
      FlatMemory(Step(m, es[0]), es[1..], a, hi);
    }
  }

  /** The pager after initialisation, with all programs on flash. */
  ghost function Begin(flash: map<(int, int), Page>, ram: Ram, live: set<Asid>): (m: Machine)
    ensures Ok(m)
  {
    InitialOk(flash, ram, live);
    Machine(Initial(flash, ram), live)
  }

  /** The page at `hi` is flash block `n` of its process: first 31 program pages from 0x80000 up, then the stack's pages
      from 0xBFFFF down. */
  predicate IsBlock(hi: int, n: nat) {
    || (n < 31 && hi / 4096 == 0x80000 + n)
    || (31 <= n && hi / 4096 == 0xBFFFF - (n - 31) && hi / 4096 > 0xA0000)
  }

  lemma PageOfIsBlock(a: int, hi: int, n: nat)
    requires UserHi(a, hi)
    ensures PageOf(hi) == n <==> IsBlock(hi, n)
  {
  }

  /** A load that the TLB lets through returns what was last written, and the page's block on flash if nothing was. */
  lemma ReadsLastWritten(flash: map<(int, int), Page>, ram: Ram, live: set<Asid>, es: seq<VmEvent>, a: Asid, hi: int,
                         n: nat)
    requires LegalRun(Begin(flash, ram, live), es) && Allowed(Exec(Begin(flash, ram, live), es), Read(a, hi))
    requires IsBlock(hi, n)
    ensures var v := Exec(Begin(flash, ram, live), es).vm;
      && 0 <= FrameOf(v.tlb[hi]) < POOLSIZE
      && v.ram[FrameOf(v.tlb[hi])] == LastWritten(es, a, hi, if (a, n) in flash then flash[(a, n)] else [])
  {
    InitialOk(flash, ram, live);
    var m := Begin(flash, ram, live);
    FlatMemory(m, es, a, hi);
    AccessFrame(Exec(m, es).vm, Exec(m, es).live, a, hi);
    PageOfIsBlock(a, hi, n);
    assert Mem(m.vm, a, hi) == Block(m.vm, a, n);
  }

  // ----- one undisturbed handler

  /** An undisturbed handler maps the page, keeps the tables in agreement and everybody's memory as it was. */
  lemma HandleOk(v: Vm, live: set<Asid>, a: Asid, hi: int)
    requires VmOk(v, live) && v.phase.Idle? && a in live && UserHi(a, hi) && NotDuplicated(v, a, hi)
    requires Seek(Table(v, a), hi, 0) < MAXPAGES
    ensures VmOk(Handle(v, a, hi), live) && SameMem(v, Handle(v, a, hi), live)
    ensures Handle(v, a, hi).phase.Idle? && ValidBit(LoOf(Table(Handle(v, a, hi), a), hi))
    ensures FrameOf(LoOf(Table(Handle(v, a, hi), a), hi)) == GetFrameIndex(v).0
  {
    var v2 := Prepared(v, a, hi);
    PreparedOk(v, live, a, hi);
    assert SameSlot(v2);
    LoadStep(v2, live);
    var v3 := Load(v2);
    SameMemTrans(v, v2, v3, live);
    InstallStep(v3, live);
    InstallTable(v3, live, a, hi);
    LoBits(v3.phase.f, NeedDirty(v3, a, PageOf(hi)));
    SameMemTrans(v, v3, Install(v3), live);
  }

  lemma SameMemTrans(u: Vm, v: Vm, w: Vm, live: set<Asid>)
    requires SameMem(u, v, live) && SameMem(v, w, live)
    ensures SameMem(u, w, live)
  {
    forall a: Asid, hi: int | a in live && UserHi(a, hi) ensures Mem(w, a, hi) == Mem(u, a, hi) {
      assert Mem(w, a, hi) == Mem(v, a, hi);
    }
  }

  /** The fault, and unmapping and writing back the victim. */
  lemma PreparedOk(v: Vm, live: set<Asid>, a: Asid, hi: int)
    requires VmOk(v, live) && v.phase.Idle? && a in live && UserHi(a, hi)
    ensures VmCore(Prepared(v, a, hi), live) && SameMem(v, Prepared(v, a, hi), live)
    ensures NotDuplicated(v, a, hi) ==> Missing(Prepared(v, a, hi))
    ensures Seek(Table(Prepared(v, a, hi), a), hi, 0) == Seek(Table(v, a), hi, 0)
  {
    var v0 := Raise(v, a, hi);
    RaiseStep(v, live, a, hi);
    var v1 := Start(v0, a, hi);
    StartOk(v0, live, a, hi);
    SameMemTrans(v, v0, v1, live);
    SameSeek(v0, a, hi);
    if v1.phase.Evicting? {
      WriteBackStep(v1, live);
      SameMemTrans(v, v1, WriteBack(v1), live);
    }
  }

  /** Unmapping the victim changes no EntryHi, so the search ends where it did. */
  lemma SameSeek(v: Vm, a: Asid, hi: int)
    ensures Seek(Table(Start(v, a, hi), a), hi, 0) == Seek(Table(v, a), hi, 0)
  {
    var t, u := Table(v, a), Table(Start(v, a, hi), a);
    assert forall i: PteNo :: u[i].hi == t[i].hi;
    var i, j := Seek(t, hi, 0), Seek(u, hi, 0);
    assert i < MAXPAGES ==> u[i].hi == t[i].hi;
    assert j < MAXPAGES ==> t[j].hi == u[j].hi;
  }

  /** The handler does not recheck that the page is still missing. If another thread of the process has mapped it
      in another frame in the meantime, the tables no longer agree, and the page falls back to its flash block:
      what was written since is lost unless it equals that block. */
  lemma HandleDuplicate(v: Vm, live: set<Asid>, a: Asid, hi: int)
    requires VmOk(v, live) && v.phase.Idle? && a in live && UserHi(a, hi) && !NotDuplicated(v, a, hi)
    ensures !VmOk(Handle(v, a, hi), live)
    ensures Mem(Handle(v, a, hi), a, hi) == Block(v, a, PageOf(hi))
  {
    var k := FrameOf(LoOf(Table(v, a), hi));
    MappedEntry(v, live, a, hi);
    var s := Lookup(Table(v, a), hi, 0);
    LookupIsSeek(Table(v, a), a, hi);
    DuplicateLoads(v, live, a, hi);
    DuplicateInstalls(Prepared(v, a, hi), a, hi, s);
    StaleFrame(Handle(v, a, hi), live, a, hi, k, s, GetFrameIndex(v).0);
  }

  /** The state in which the handler loads the frame. */
  function Prepared(v: Vm, a: Asid, hi: int): (w: Vm)
    ensures w.phase == Loading(a, hi, GetFrameIndex(v).0) && w.pool == v.pool && SavedHi(w, a) == hi
  {
    var w := Start(Raise(v, a, hi), a, hi);
    if w.phase.Evicting? then WriteBack(w) else w
  }

  /** Another frame's write-back does not reach the page's block. */
  lemma DuplicateLoads(v: Vm, live: set<Asid>, a: Asid, hi: int)
    requires VmOk(v, live) && v.phase.Idle? && a in live && UserHi(a, hi) && !NotDuplicated(v, a, hi)
    ensures Block(Prepared(v, a, hi), a, PageOf(hi)) == Block(v, a, PageOf(hi))
    ensures Seek(Table(Prepared(v, a, hi), a), hi, 0) == Seek(Table(v, a), hi, 0)
  {
    var k, f := FrameOf(LoOf(Table(v, a), hi)), GetFrameIndex(v).0;
    MappedEntry(v, live, a, hi);
    SameSeek(Raise(v, a, hi), a, hi);
    if v.pool[f].asid == a && v.pool[f].page == PageOf(hi) {
      FramesDistinct(v, live, k, f);
    }
    assert Table(Prepared(v, a, hi), a) == Table(Start(Raise(v, a, hi), a, hi), a);
  }

  lemma DuplicateInstalls(v: Vm, a: Asid, hi: int, s: PteNo)
    requires v.phase.Loading? && v.phase.asid == a && v.phase.hi == hi && SavedHi(v, a) == hi
    requires s == Seek(Table(v, a), hi, 0)
    ensures var w := Install(Load(v));
      && w.pool == v.pool[v.phase.f := Frame(a, PageOf(hi), a, s)] && w.phase.Idle?
      && w.ram == v.ram[v.phase.f := Block(v, a, PageOf(hi))]
      && exists d :: Table(w, a) == Table(v, a)[s := Pte(hi, LoFor(v.phase.f, d))]
    ensures LoOf(Table(Install(Load(v)), a), hi) == Table(Install(Load(v)), a)[s].lo
  {
    var w := Install(Load(v));
    var d := NeedDirty(Load(v), a, PageOf(hi));
    assert Table(w, a) == Table(v, a)[s := Pte(hi, LoFor(v.phase.f, d))];
    SameLookup(Table(v, a), Table(w, a), hi, s);
  }

  /** Frame `k` names entry `s`, but that entry now names frame `f`. */
  lemma StaleFrame(w: Vm, live: set<Asid>, a: Asid, hi: int, k: FrameNo, s: PteNo, f: FrameNo)
    requires k != f && w.phase.Idle? && w.pool[k] == Frame(a, PageOf(hi), a, s)
    requires exists d :: Table(w, a)[s] == Pte(hi, LoFor(f, d))
    requires LoOf(Table(w, a), hi) == Table(w, a)[s].lo
    ensures !VmOk(w, live) && Mem(w, a, hi) == w.ram[f]
  {
    var d :| Table(w, a)[s] == Pte(hi, LoFor(f, d));
    LoBits(f, d);
    LoBits(k, true);
    LoBits(k, false);
    assert !FrameOk(w, live, k);
  }

  lemma LookupIsSeek(t: PageTable, a: int, hi: int)
    requires TableOk(t, a) && hi != 0 && Lookup(t, hi, 0) < MAXPAGES
    ensures Seek(t, hi, 0) == Lookup(t, hi, 0)
  {
    SeekExact(t, a, hi);
  }

  lemma SameLookup(t: PageTable, u: PageTable, hi: int, s: PteNo)
    requires s == Seek(t, hi, 0) && u == t[s := u[s]] && u[s].hi == hi
    ensures LoOf(u, hi) == u[s].lo
  {
    var k := Lookup(u, hi, 0);
    assert k <= s;
    assert forall i: PteNo | i != s :: u[i].hi == t[i].hi;
  }

  /** A handler whose page table has room keeps the tables in agreement exactly if the page was not mapped in another
      frame. */
  lemma FaultExact(v: Vm, live: set<Asid>, a: Asid, hi: int)
    requires VmOk(v, live) && v.phase.Idle? && a in live && UserHi(a, hi) && Seek(Table(v, a), hi, 0) < MAXPAGES
    ensures VmOk(Handle(v, a, hi), live) <==> NotDuplicated(v, a, hi)
  {
    if NotDuplicated(v, a, hi) {
      HandleOk(v, live, a, hi);
    } else {
      HandleDuplicate(v, live, a, hi);
    }
  }

  /** Whatever becomes of the page, nobody else's changes. */
  lemma HandleOthers(v: Vm, live: set<Asid>, a: Asid, hi: int, b: Asid, h: int)
    requires VmOk(v, live) && v.phase.Idle? && a in live && UserHi(a, hi) && Seek(Table(v, a), hi, 0) < MAXPAGES
    requires b in live && UserHi(b, h) && !(b == a && h == hi)
    ensures Mem(Handle(v, a, hi), b, h) == Mem(v, b, h)
  {
    var v2 := Prepared(v, a, hi);
    PreparedOk(v, live, a, hi);
    assert SameSlot(v2);
    LoadStep(v2, live);
    var v3 := Load(v2);
    InstallMem(v3, live, b, h);
    assert Mem(v3, b, h) == Mem(v2, b, h) && Mem(v2, b, h) == Mem(v, b, h);
  }

  /** A handler is transparent exactly if the page was not mapped in another frame, or was there what it is on flash. */
  lemma TransparentExact(v: Vm, live: set<Asid>, a: Asid, hi: int)
    requires VmOk(v, live) && v.phase.Idle? && a in live && UserHi(a, hi) && Seek(Table(v, a), hi, 0) < MAXPAGES
    ensures SameMem(v, Handle(v, a, hi), live) <==>
      NotDuplicated(v, a, hi) || Mem(v, a, hi) == Block(v, a, PageOf(hi))
  {
    if NotDuplicated(v, a, hi) {
      HandleOk(v, live, a, hi);
    } else {
      HandleDuplicate(v, live, a, hi);
      forall b: Asid, h: int | b in live && UserHi(b, h) && !(b == a && h == hi)
        ensures Mem(Handle(v, a, hi), b, h) == Mem(v, b, h)
      {
        HandleOthers(v, live, a, hi, b, h);
      }
      assert Mem(Handle(v, a, hi), a, hi) == Block(v, a, PageOf(hi));
    }
  }

  // ----- the EntryHi is read again

  /** The rest of the handler after another thread's fault: the other page gets the content of the first. */
  lemma Overwritten(v: Vm, live: set<Asid>)
    requires VmOk(v, live) && v.phase.Loading? && Load(v).phase.Loaded? && SavedHi(v, v.phase.asid) != v.phase.hi
    ensures var a, w := v.phase.asid, Install(Load(v));
      !VmOk(w, live) && Mem(w, a, SavedHi(v, a)) == Block(v, a, PageOf(v.phase.hi))
  {
    var p, a := v.phase, v.phase.asid;
    var hi, s := SavedHi(v, a), Seek(Table(v, a), SavedHi(v, a), 0);
    var lo := LoFor(p.f, NeedDirty(Load(v), a, PageOf(p.hi)));
    var w := Install(Load(v));
    assert Table(w, a) == Table(v, a)[s := Pte(hi, lo)];
    SetTable(Table(v, a), a, hi, s, lo);
    LoBits(p.f, NeedDirty(Load(v), a, PageOf(p.hi)));
    assert w.pool[p.f] == Frame(a, PageOf(p.hi), a, s) && w.ram[p.f] == Block(v, a, PageOf(p.hi));
    if PageOf(hi) == PageOf(p.hi) {
      PageOfInjective(a, hi, p.hi);
    }
    assert !PteOk(w, a, s);
  }

  /** From the point where the frame can be loaded: the handler ends with the tables in agreement exactly if the saved
      EntryHi is still that of its fault. */
  lemma RestExact(v: Vm, live: set<Asid>)
    requires VmOk(v, live) && v.phase.Loading? && Load(v).phase.Loaded?
    ensures VmOk(Install(Load(v)), live) <==> SavedHi(v, v.phase.asid) == v.phase.hi
    ensures VmOk(Install(Load(v)), live) ==> SameMem(v, Install(Load(v)), live)
  {
    if SavedHi(v, v.phase.asid) == v.phase.hi {
      LoadStep(v, live);
      InstallStep(Load(v), live);
      SameMemTrans(v, Load(v), Install(Load(v)), live);
    } else {
      Overwritten(v, live);
    }
  }
}
