/** Runs of the pager, from its start, in which pages are lost. */
module PagingCases {
  import opened Paging
  import opened PagingInv
  import opened PagingRuns
  import opened Replacement

  /** The pager after initialisation, `es`, leads to `m`. */
  ghost predicate Reaches(m0: Machine, es: seq<VmEvent>, m: Machine) {
    Ok(m0) && LegalRun(m0, es) && Exec(m0, es) == m
  }

  lemma {:induction false} Extend(m0: Machine, es: seq<VmEvent>, m: Machine, e: VmEvent)
    requires Reaches(m0, es, m) && Allowed(m, e)
    ensures Ok(m) && Reaches(m0, es + [e], Step(m, e))
    decreases |es|
  {
    if es == [] {
      assert es + [e] == [e] && [e][1..] == [];
      StepOk(m, e);
    } else {
      assert (es + [e])[0] == es[0] && (es + [e])[1..] == es[1..] + [e];
      StepOk(m0, es[0]);
      Extend(Step(m0, es[0]), es[1..], m, e);
    }
  }

  lemma Take(m0: Machine, es: seq<VmEvent>, m: Machine, e: VmEvent) returns (es': seq<VmEvent>, n: Machine)
    requires Reaches(m0, es, m) && Allowed(m, e)
    ensures Ok(m) && n == Step(m, e) && Reaches(m0, es', n)
  {
    Extend(m0, es, m, e);
    es', n := es + [e], Step(m, e);
  }

  /** One handler from beginning to end. */
  lemma TakeFault(m0: Machine, es: seq<VmEvent>, m: Machine, a: Asid, hi: int) returns (es': seq<VmEvent>, n: Machine)
    requires Reaches(m0, es, m) && m.vm.phase.Idle? && a in m.live && UserHi(a, hi) && NotDuplicated(m.vm, a, hi)
    requires Seek(Table(m.vm, a), hi, 0) < MAXPAGES
    ensures Reaches(m0, es', n) && n == m.(vm := Handle(m.vm, a, hi)) && n.vm.phase.Idle?
  {
    SameSeek(Raise(m.vm, a, hi), a, hi);
    es', n := TakePrepare(m0, es, m, a, hi);
    es', n := Take(m0, es', n, LoadPage);
    es', n := Take(m0, es', n, MapPage);
  }

  /** A handler up to the point where the frame can be loaded. */
  lemma TakePrepare(m0: Machine, es: seq<VmEvent>, m: Machine, a: Asid, hi: int) returns (es': seq<VmEvent>, n: Machine)
    requires Reaches(m0, es, m) && m.vm.phase.Idle? && a in m.live && UserHi(a, hi) && NotDuplicated(m.vm, a, hi)
    ensures Reaches(m0, es', n) && n == m.(vm := Prepared(m.vm, a, hi))
    ensures Table(n.vm, a) == Table(Start(Raise(m.vm, a, hi), a, hi), a)
  {
    es', n := Take(m0, es, m, Thread(a, hi));
    es', n := Take(m0, es', n, Fault(a, hi));
    if n.vm.phase.Evicting? {
      es', n := Take(m0, es', n, WriteVictim);
    }
  }

  // ----- two threads fault on one page

  /** A page is mapped, and nothing keeps a second thread of the process, which has been waiting for the mutex with the
      same fault, from handling it again. */
  lemma DuplicateReachable(flash: map<(int, int), Page>, ram: Ram, live: set<Asid>, a: Asid, hi: int)
    returns (es: seq<VmEvent>, m: Machine)
    requires a in live && UserHi(a, hi)
    ensures LegalRun(Begin(flash, ram, live), es) && Exec(Begin(flash, ram, live), es) == m
    ensures m.vm.phase.Idle? && a in m.live && !NotDuplicated(m.vm, a, hi) && hi !in m.vm.tlb
    ensures m.vm == Handle(Initial(flash, ram), a, hi)
  {
    var m0 := Begin(flash, ram, live);
    var t := Table(m0.vm, a);
    assert t[0].hi == 0 && Seek(t, hi, 0) == 0 && LoOf(t, hi) == 0 && !ValidBit(0);
    assert FirstFree(m0.vm.pool, 0) == 0;
    es, m := TakeFault(m0, [], m0, a, hi);
    InitialHandled(flash, ram, a, hi);
  }

  lemma InitialHandled(flash: map<(int, int), Page>, ram: Ram, a: Asid, hi: int)
    requires UserHi(a, hi)
    ensures var v := Handle(Initial(flash, ram), a, hi);
      && v.tlb == map[] && GetFrameIndex(v).0 == 1 && v.pool[0].asid == a && v.flash == flash
      && exists d :: LoOf(Table(v, a), hi) == LoFor(0, d)
    ensures a >= 2 ==> LoOf(Table(Handle(Initial(flash, ram), a, hi), a), hi) == LoFor(0, true)
    ensures !NotDuplicated(Handle(Initial(flash, ram), a, hi), a, hi)
  {
    var v0 := Raise(Initial(flash, ram), a, hi);
    var v1 := Start(v0, a, hi);
    assert FirstFree(v0.pool, 0) == 0 && v1.phase == Loading(a, hi, 0);
    assert Table(v1, a)[0].hi == 0 && Seek(Table(v1, a), hi, 0) == 0;
    var v2 := Load(v1);
    var v := Install(v2);
    var d := NeedDirty(v2, a, PageOf(hi));
    assert Table(v, a)[0] == Pte(hi, LoFor(0, d)) && Lookup(Table(v, a), hi, 0) == 0;
    assert v.pool[0].asid == a && v.pool[1].asid == NOPROC && FirstFree(v.pool, 0) == 1;
    LoBits(0, d);
    if a >= 2 {
      assert v2.text[a - 1] == 0 <= PageOf(hi);
    }
  }

  /** What the first thread wrote in the meantime is lost to the second thread's handler. */
  lemma WriteLost(flash: map<(int, int), Page>, ram: Ram, live: set<Asid>, a: Asid, hi: int, content: Page)
    returns (es: seq<VmEvent>, m: Machine)
    requires a in live && a >= 2 && UserHi(a, hi)
    ensures LegalRun(Begin(flash, ram, live), es) && Exec(Begin(flash, ram, live), es) == m
    ensures Mem(m.vm, a, hi) == content
    ensures Mem(Handle(m.vm, a, hi), a, hi) == if (a, PageOf(hi)) in flash then flash[(a, PageOf(hi))] else []
  {
    var m0 := Begin(flash, ram, live);
    es, m := DuplicateReachable(flash, ram, live, a, hi);
    InitialHandled(flash, ram, a, hi);
    LoBits(0, true);
    ghost var m1 := m;
    es, m := Take(m0, es, m, RefillTlb(a, hi, {}));
    assert Table(m.vm, a) == Table(m1.vm, a) && m.vm.tlb[hi] == LoFor(0, true);
    WriteOk(m, a, hi, content);
    ghost var m2 := m;
    es, m := Take(m0, es, m, Write(a, hi, content));
    assert Table(m.vm, a) == Table(m2.vm, a) && m.vm.pool == m1.vm.pool && m.vm.flash == flash;
    HandleDuplicate(m.vm, m.live, a, hi);
  }

  // ----- two threads fault on two pages

  /** While a handler waits for flash, another thread of its process faults elsewhere and waits for the mutex. The
      handler then maps the first page's content as the second page. */
  lemma OverwrittenReachable(flash: map<(int, int), Page>, ram: Ram, live: set<Asid>, a: Asid, hi: int, other: int)
    returns (es: seq<VmEvent>, m: Machine)
    requires a in live && UserHi(a, hi) && UserHi(a, other) && hi != other
    ensures LegalRun(Begin(flash, ram, live), es) && Exec(Begin(flash, ram, live), es) == m
    ensures m.vm.phase.Loading? && m.vm.phase.asid == a && m.vm.phase.hi == hi && SavedHi(m.vm, a) == other
    ensures Load(m.vm).phase.Loaded? && !VmOk(Install(Load(m.vm)), live)
    ensures Mem(Install(Load(m.vm)), a, other) == if (a, PageOf(hi)) in flash then flash[(a, PageOf(hi))] else []
  {
    var m0 := Begin(flash, ram, live);
    NothingMapped(flash, ram, a, hi);
    es, m := TakePrepare(m0, [], m0, a, hi);
    es, m := Take(m0, es, m, Thread(a, other));
    assert Table(m.vm, a) == Table(m0.vm, a) && m.vm.flash == flash;
    NothingMapped(flash, ram, a, other);
    Overwritten(m.vm, live);
  }

  lemma NothingMapped(flash: map<(int, int), Page>, ram: Ram, a: Asid, hi: int)
    requires UserHi(a, hi)
    ensures var v := Initial(flash, ram);
      NotDuplicated(v, a, hi) && Seek(Table(v, a), hi, 0) == 0 && FirstFree(v.pool, 0) == 0
    ensures Table(Start(Raise(Initial(flash, ram), a, hi), a, hi), a) == Table(Initial(flash, ram), a)
  {
    var t := Table(Initial(flash, ram), a);
    assert t[0].hi == 0 && LoOf(t, hi) == 0 && !ValidBit(0);
  }

  // ----- a full page table

  /** Frame `f` is entered for a page that is not there any more. */
  predicate Stale(v: Vm, f: FrameNo) {
    var q := v.pool[f];
    var e := Table(v, if 1 <= q.asid <= UPROCMAX then q.asid else 1)[q.slot];
    && 1 <= q.asid <= UPROCMAX && q.owner == q.asid && e.hi != 0 && q.page == PageOf(e.hi)
    && (ValidBit(e.lo) ==> FrameOf(e.lo) != f)
  }

  /** The tables agree but for frame `f`. */
  ghost predicate OkBut(v: Vm, live: set<Asid>, f: FrameNo) {
    && v.phase.Idle?
    && (forall a: Asid {:trigger Table(v, a)} | a in live :: TableOk(Table(v, a), a))
    && (forall i: FrameNo {:trigger FrameOk(v, live, i)} | i != f :: FrameOk(v, live, i))
    && (forall a: Asid, s: PteNo {:trigger PteOk(v, a, s)} | a in live :: PteOk(v, a, s))
  }

  /** A full page table that costs a frame in use leaves that frame stale. */
  lemma TrapLeavesStale(v: Vm, live: set<Asid>)
    requires VmOk(v, live) && v.phase.Loading? && Load(v).phase.Idle? && v.pool[v.phase.f].asid != NOPROC
    ensures Stale(Load(v), v.phase.f) && OkBut(Load(v), live, v.phase.f) && Load(v).pool == v.pool
  {
    var w, f := Load(v), v.phase.f;
    assert forall b: Asid :: Table(w, b) == Table(v, b);
    assert FrameOk(v, live, f);
    LoBits(0, true);
    forall i: FrameNo | i != f ensures FrameOk(w, live, i) {
      assert FrameOk(v, live, i);
    }
    forall b: Asid, s: PteNo | b in live ensures PteOk(w, b, s) {
      assert PteOk(v, b, s);
    }
  }

  /** When a stale frame is evicted, the page for which it is entered is unmapped wherever it is. If it has been mapped
      writable in the meantime, it becomes what happens to be in the stale frame; otherwise it keeps its content. */
  lemma StaleEvicted(v: Vm, live: set<Asid>, a: Asid, hi: int, f: FrameNo)
    requires OkBut(v, live, f) && Stale(v, f) && v.pool[f].asid in live && GetFrameIndex(v).0 == f
    ensures var q := v.pool[f];
      var e := Table(v, q.asid)[q.slot];
      Mem(Prepared(v, a, hi), q.asid, e.hi) == if DirtyBit(e.lo) then v.ram[f] else Mem(v, q.asid, e.hi)
  {
    var q := v.pool[f];
    var e := Table(v, q.asid)[q.slot];
    StaleUnmapped(v, live, a, hi, f);
    if !DirtyBit(e.lo) {
      CleanElsewhere(v, live, f);
    }
  }

  /** The page is unmapped; its block is overwritten if the entry said that it was writable. */
  lemma StaleUnmapped(v: Vm, live: set<Asid>, a: Asid, hi: int, f: FrameNo)
    requires OkBut(v, live, f) && Stale(v, f) && v.pool[f].asid in live && GetFrameIndex(v).0 == f
    ensures var q, w := v.pool[f], Prepared(v, a, hi);
      var e := Table(v, q.asid)[q.slot];
      Mem(w, q.asid, e.hi) == if DirtyBit(e.lo) then v.ram[f] else Block(v, q.asid, q.page)
  {
    var q := v.pool[f];
    var b: Asid := q.asid;
    var t := Table(v, b);
    var e := t[q.slot];
    var v1 := Start(Raise(v, a, hi), a, hi);
    assert Table(v1, b) == t[q.slot := Pte(e.hi, 0)];
    LookupSlot(t, b, q.slot);
    SetLo(t, b, q.slot, 0);
    LoBits(0, true);
    assert Table(Prepared(v, a, hi), b) == Table(v1, b);
  }

  /** A page that is mapped read-only is what it is on flash. */
  lemma CleanElsewhere(v: Vm, live: set<Asid>, f: FrameNo)
    requires OkBut(v, live, f) && Stale(v, f) && v.pool[f].asid in live
    requires var q := v.pool[f]; !DirtyBit(Table(v, q.asid)[q.slot].lo)
    ensures var q := v.pool[f]; Mem(v, q.asid, Table(v, q.asid)[q.slot].hi) == Block(v, q.asid, q.page)
  {
    var q := v.pool[f];
    var b: Asid := q.asid;
    var e := Table(v, b)[q.slot];
    LookupSlot(Table(v, b), b, q.slot);
    if ValidBit(e.lo) {
      var g := FrameOf(e.lo);
      assert PteOk(v, b, q.slot) && FrameOk(v, live, g);
      LoBits(g, true);
      LoBits(g, false);
    }
  }

  /** The EntryHi of a process's `i`-th stack page. */
  function StackHi(a: Asid, i: nat): int {
    (0xBFFFF - i) * PAGESIZE + a * 64
  }

  /** The first `k` entries of `a` hold its first `k` stack pages, the others are free. */
  predicate Filled(v: Vm, a: Asid, k: nat) {
    forall i: PteNo {:trigger Table(v, a)[i]} :: Table(v, a)[i].hi == if i < k then StackHi(a, i) else 0
  }

  /** A stack page that is not in the table: where the search ends, and that the page is not mapped. */
  lemma NextStackPage(v: Vm, a: Asid, k: nat)
    requires Filled(v, a, k) && k <= MAXPAGES
    ensures UserHi(a, StackHi(a, k)) && NotDuplicated(v, a, StackHi(a, k))
    ensures Seek(Table(v, a), StackHi(a, k), 0) == k
  {
    var t, hi := Table(v, a), StackHi(a, k);
    assert !ValidBit(0) by { LoBits(0, true); }
    forall j: PteNo ensures t[j].hi != hi && (t[j].hi == 0 <==> j >= k) {
      assert t[j].hi == if j < k then StackHi(a, j) else 0;
    }
    var i := Seek(t, hi, 0);
    assert i < MAXPAGES ==> t[i].hi == 0;
    assert k < MAXPAGES ==> t[k].hi == 0;
  }

  /** The pages in the tables are the same. */
  ghost predicate SamePages(v: Vm, w: Vm) {
    forall b: Asid, j: PteNo {:trigger Table(w, b)[j]} :: Table(w, b)[j].hi == Table(v, b)[j].hi
  }

  lemma PrepareEffect(v: Vm, a: Asid, hi: int, n: nat)
    requires v.phase.Idle? && Rotated(v, n)
    ensures var w := Prepared(v, a, hi);
      && w.phase == Loading(a, hi, n % POOLSIZE) && w.pool == v.pool && Rotated(w, n + 1) && SamePages(v, w)
      && Seek(Table(w, a), hi, 0) == Seek(Table(v, a), hi, 0)
  {
    var v0 := Raise(v, a, hi);
    var u := Start(v0, a, hi);
    FaultRotates(v0, a, hi, n);
    StartPages(v0, a, hi);
    SameSeek(v0, a, hi);
    assert SamePages(v, v0);
    if u.phase.Evicting? {
      WriteBackRotates(u, n + 1);
    }
    assert forall b: Asid :: Table(Prepared(v, a, hi), b) == Table(u, b);
  }

  lemma WriteBackRotates(v: Vm, n: nat)
    requires v.phase.Evicting? && Rotated(v, n)
    ensures var w := WriteBack(v); Rotated(w, n) && w.tables == v.tables
  {
  }

  lemma StartPages(v: Vm, a: Asid, hi: int)
    ensures SamePages(v, Start(v, a, hi))
  {
  }

  lemma LoadEffect(v: Vm)
    requires v.phase.Loading? && SavedHi(v, v.phase.asid) == v.phase.hi
    requires Seek(Table(v, v.phase.asid), v.phase.hi, 0) < MAXPAGES
    ensures var w, p, i := Load(v), v.phase, Seek(Table(v, v.phase.asid), v.phase.hi, 0);
      && w.phase == Loaded(p.asid, p.hi, p.f, i) && w.tables == v.tables
      && w.pool == v.pool[p.f := Frame(p.asid, PageOf(p.hi), p.asid, i)]
  {
  }

  lemma InstallEffect(v: Vm)
    requires v.phase.Loaded? && SavedHi(v, v.phase.asid) == v.phase.hi
    ensures var w, p := Install(v), v.phase;
      && w.phase.Idle? && w.pool == v.pool && w.frameIndex == v.frameIndex
      && forall b: Asid, j: PteNo {:trigger Table(w, b)[j]} ::
           Table(w, b)[j].hi == if b == p.asid && j == p.slot then p.hi else Table(v, b)[j].hi
  {
  }

  /** What a completed handler does to the swap pool and to the pages in the tables. */
  lemma HandleEffect(v: Vm, a: Asid, hi: int, n: nat)
    requires v.phase.Idle? && Seek(Table(v, a), hi, 0) < MAXPAGES && Rotated(v, n)
    ensures var w, i := Handle(v, a, hi), Seek(Table(v, a), hi, 0);
      && w.phase.Idle? && Rotated(w, n + 1)
      && w.pool == v.pool[n % POOLSIZE := Frame(a, PageOf(hi), a, i)]
      && forall b: Asid, j: PteNo {:trigger Table(w, b)[j]} ::
           Table(w, b)[j].hi == if b == a && j == i then hi else Table(v, b)[j].hi
  {
    PrepareEffect(v, a, hi, n);
    var v2 := Prepared(v, a, hi);
    LoadEffect(v2);
    LoadRotates(v2, n + 1);
    InstallEffect(Load(v2));
    assert forall b: Asid :: Table(Load(v2), b) == Table(v2, b);
  }

  /** Between handlers: `a` has touched its first `k` stack pages, `b` its first `l`, after `n` faults in all. */
  predicate Stage(v: Vm, a: Asid, k: nat, b: Asid, l: nat, n: nat) {
    v.phase.Idle? && Filled(v, a, k) && Filled(v, b, l) && Rotated(v, n)
  }

  /** `a` touches its next stack page. */
  lemma NextStage(v: Vm, a: Asid, k: nat, b: Asid, l: nat, n: nat)
    requires Stage(v, a, k, b, l, n) && a != b && k < MAXPAGES
    ensures UserHi(a, StackHi(a, k)) && NotDuplicated(v, a, StackHi(a, k))
    ensures Seek(Table(v, a), StackHi(a, k), 0) == k
    ensures var w := Handle(v, a, StackHi(a, k));
      && Stage(w, a, k + 1, b, l, n + 1)
      && w.pool[n % POOLSIZE].asid == a && forall g: FrameNo | g != n % POOLSIZE :: w.pool[g] == v.pool[g]
  {
    NextStackPage(v, a, k);
    HandleEffect(v, a, StackHi(a, k), n);
  }

  lemma TakeStage(m0: Machine, es: seq<VmEvent>, m: Machine, a: Asid, k: nat, b: Asid, l: nat, n: nat)
    returns (es': seq<VmEvent>, r: Machine)
    requires Reaches(m0, es, m) && a in m.live && Stage(m.vm, a, k, b, l, n) && a != b && k < MAXPAGES
    ensures Reaches(m0, es', r) && r.live == m.live && Stage(r.vm, a, k + 1, b, l, n + 1)
    ensures r.vm.pool[n % POOLSIZE].asid == a && forall g: FrameNo | g != n % POOLSIZE :: r.vm.pool[g] == m.vm.pool[g]
  {
    NextStage(m.vm, a, k, b, l, n);
    es', r := TakeFault(m0, es, m, a, StackHi(a, k));
  }

  /** `a` touches its stack pages `k` to `last`-1, one after the other. A frame `g` that is not its turn is left
      alone. */
  lemma {:induction false} Fill(m0: Machine, es: seq<VmEvent>, m: Machine, a: Asid, k: nat, last: nat,
                                b: Asid, l: nat, n: nat, g: FrameNo)
    returns (es': seq<VmEvent>, r: Machine)
    requires Reaches(m0, es, m) && a in m.live && Stage(m.vm, a, k, b, l, n) && a != b && k <= last <= MAXPAGES
    ensures Reaches(m0, es', r) && r.live == m.live && Stage(r.vm, a, last, b, l, n + last - k)
    ensures (forall j | n <= j < n + last - k :: j % POOLSIZE != g) ==> r.vm.pool[g] == m.vm.pool[g]
    decreases last - k
  {
    es', r := es, m;
    if k < last {
      es', r := TakeStage(m0, es, m, a, k, b, l, n);
      es', r := Fill(m0, es', r, a, k + 1, last, b, l, n + 1, g);
    }
  }

  /** A process that touches 33 pages runs into a full page table with a frame that another process is using. */
  lemma FullTableReachable(flash: map<(int, int), Page>, ram: Ram, live: set<Asid>, a: Asid, b: Asid)
    returns (es: seq<VmEvent>, m: Machine)
    requires a in live && b in live && a != b
    ensures LegalRun(Begin(flash, ram, live), es) && Exec(Begin(flash, ram, live), es) == m
    ensures m.vm.phase.Loading? && Load(m.vm).phase.Idle? && m.vm.pool[m.vm.phase.f].asid == b
    ensures !VmOk(Load(m.vm), live) && Stale(Load(m.vm), m.vm.phase.f)
  {
    es, m := FillTable(Begin(flash, ram, live), a, b);
  }

  lemma FillTable(m0: Machine, a: Asid, b: Asid) returns (es: seq<VmEvent>, m: Machine)
    requires Ok(m0) && a in m0.live && b in m0.live && a != b && Stage(m0.vm, a, 0, b, 0, 0)
    ensures Reaches(m0, es, m) && m.live == m0.live
    ensures m.vm.phase.Loading? && Load(m.vm).phase.Idle? && m.vm.pool[m.vm.phase.f].asid == b
    ensures !VmOk(Load(m.vm), m.live) && Stale(Load(m.vm), m.vm.phase.f)
  {
    es, m := FillMost(m0, a, b);
    es, m := FillRest(m0, es, m, a, b);
    es, m := TakeTrap(m0, es, m, a, b, 1, 33);
  }

  lemma FillRest(m0: Machine, es: seq<VmEvent>, m: Machine, a: Asid, b: Asid) returns (es': seq<VmEvent>, r: Machine)
    requires Reaches(m0, es, m) && a in m.live && a != b && Stage(m.vm, a, 17, b, 1, 18)
    ensures Reaches(m0, es', r) && r.live == m.live && Stage(r.vm, a, MAXPAGES, b, 1, 33)
      && r.vm.pool[1] == m.vm.pool[1]
  {
    assert forall j | 18 <= j < 18 + 32 - 17 :: j % POOLSIZE != 1;
    es', r := Fill(m0, es, m, a, 17, 32, b, 1, 18, 1);
  }

  /** `a` touches 17 pages, then `b` one, which gets frame 1. */
  lemma FillMost(m0: Machine, a: Asid, b: Asid) returns (es: seq<VmEvent>, m: Machine)
    requires Ok(m0) && a in m0.live && b in m0.live && a != b && Stage(m0.vm, a, 0, b, 0, 0)
    ensures Reaches(m0, es, m) && m.live == m0.live && Stage(m.vm, a, 17, b, 1, 18) && m.vm.pool[1].asid == b
  {
    es, m := Fill(m0, [], m0, a, 0, 17, b, 0, 0, 1);
    es, m := TakeStage(m0, es, m, b, 0, a, 17, 17);
  }

  /** The 33rd page finds no entry. */
  lemma TakeTrap(m0: Machine, es: seq<VmEvent>, m: Machine, a: Asid, b: Asid, l: nat, n: nat)
    returns (es': seq<VmEvent>, r: Machine)
    requires Reaches(m0, es, m) && a in m.live && Stage(m.vm, a, MAXPAGES, b, l, n) && n >= POOLSIZE
    ensures Reaches(m0, es', r) && r.vm.phase == Loading(a, StackHi(a, MAXPAGES), n % POOLSIZE)
    ensures r.vm.pool == m.vm.pool && r.live == m.live
    ensures Load(r.vm).phase.Idle? && !VmOk(Load(r.vm), r.live) && Stale(Load(r.vm), n % POOLSIZE)
  {
    NextStackPage(m.vm, a, MAXPAGES);
    PrepareEffect(m.vm, a, StackHi(a, MAXPAGES), n);
    es', r := TakePrepare(m0, es, m, a, StackHi(a, MAXPAGES));
    TrapLeavesStale(r.vm, r.live);
    LoadTrap(r.vm, r.live);
  }
}
