/** The pager's tables agree with each other, and paging never changes what a process sees of its memory. */
module PagingInv {
  import opened Paging

  // ----- page tables

  /** Distinct pages of process `a` first, free entries after them; free entries map nothing. */
  ghost predicate TableOk(t: PageTable, a: int) {
    && (forall i: PteNo, j: PteNo {:trigger t[i], t[j]} | i < j && t[j].hi != 0 :: t[i].hi != 0 && t[i].hi != t[j].hi)
    && (forall i: PteNo :: if t[i].hi == 0 then !ValidBit(t[i].lo) else UserHi(a, t[i].hi))
  }

  /** The search finds the page's own entry if there is one, otherwise the first free entry, and fails exactly if
      all entries hold other pages. */
  lemma SeekExact(t: PageTable, a: int, hi: int)
    requires TableOk(t, a) && hi != 0
    ensures var i := Seek(t, hi, 0);
      && (forall k: PteNo | t[k].hi == hi :: i == k)
      && (i == MAXPAGES <==> forall k: PteNo :: t[k].hi != 0 && t[k].hi != hi)
      && (i < MAXPAGES && t[i].hi != hi ==> forall k: PteNo :: t[k].hi == 0 <==> i <= k)
  {
    var i := Seek(t, hi, 0);
    forall k: PteNo | t[k].hi == hi ensures i == k {
      assert i <= k;
    }
    if i < MAXPAGES && t[i].hi != hi {
      forall k: PteNo ensures t[k].hi == 0 <==> i <= k {
        assert t[i].hi == 0 && (i < k ==> t[k].hi == 0);
      }
    }
  }

  lemma LookupSlot(t: PageTable, a: int, i: PteNo)
    requires TableOk(t, a) && t[i].hi != 0
    ensures Lookup(t, t[i].hi, 0) == i && LoOf(t, t[i].hi) == t[i].lo
  {
    var k := Lookup(t, t[i].hi, 0);
    assert k <= i;
  }

  /** After an entry `i` found by the search is set to `hi`. */
  lemma SetTable(t: PageTable, a: int, hi: int, i: PteNo, lo: int)
    requires TableOk(t, a) && UserHi(a, hi) && a >= 1 && i == Seek(t, hi, 0)
    ensures TableOk(t[i := Pte(hi, lo)], a) && LoOf(t[i := Pte(hi, lo)], hi) == lo
  {
    var u := t[i := Pte(hi, lo)];
    SeekExact(t, a, hi);
    assert hi > 0;
    assert TableOk(u, a);
    LookupSlot(u, a, i);
  }

  lemma SetTableAt(t: PageTable, a: int, hi: int, i: PteNo, lo: int, h: int)
    requires TableOk(t, a) && UserHi(a, hi) && a >= 1 && i == Seek(t, hi, 0) && h != 0
    ensures TableOk(t[i := Pte(hi, lo)], a)
    ensures LoOf(t[i := Pte(hi, lo)], h) == if h == hi then lo else LoOf(t, h)
  {
    SetTable(t, a, hi, i, lo);
    if h != hi {
      OtherLookups(t, t[i := Pte(hi, lo)], i, h);
    }
  }

  /** Changing one entry to `h` changes what is found for `h` only. */
  lemma OtherLookups(t: PageTable, u: PageTable, i: PteNo, h: int)
    requires u == t[i := u[i]] && t[i].hi != h && u[i].hi != h
    ensures LoOf(u, h) == LoOf(t, h)
  {
    var k, l := Lookup(u, h, 0), Lookup(t, h, 0);
    assert k < MAXPAGES ==> t[k].hi == h;
    assert l < MAXPAGES ==> u[l].hi == h;
  }

  /** After entry `i`'s EntryLo is changed. */
  lemma SetLo(t: PageTable, a: int, i: PteNo, lo: int)
    requires TableOk(t, a) && t[i].hi != 0
    ensures TableOk(t[i := Pte(t[i].hi, lo)], a)
    ensures forall h :: LoOf(t[i := Pte(t[i].hi, lo)], h) == if h == t[i].hi then lo else LoOf(t, h)
  {
    var u := t[i := Pte(t[i].hi, lo)];
    assert TableOk(u, a);
    LookupSlot(u, a, i);
    forall h | h != t[i].hi ensures LoOf(u, h) == LoOf(t, h) {
      OtherLookups(t, u, i, h);
    }
  }

  /** The page numbers of one process's pages are distinct. */
  lemma PageOfInjective(a: int, h: int, k: int)
    requires UserHi(a, h) && UserHi(a, k) && PageOf(h) == PageOf(k)
    ensures h == k
  {
  }

  /** An image of `n` pages keeps program and stack pages apart exactly if n <= 31. */
  lemma ImageLimit(n: nat)
    ensures n <= 31 <==>
      forall p, q | 0x80000 <= p < 0x80000 + n && 0xA0000 < q <= 0xBFFFF :: PageOf(p * PAGESIZE) != PageOf(q * PAGESIZE)
  {
    if n > 31 {
      assert PageOf(0x8001F * PAGESIZE) == 31 == PageOf(0xBFFFF * PAGESIZE);
    }
  }

  // ----- the invariant

  predicate InTransit(v: Vm, f: int) {
    !v.phase.Idle? && v.phase.f == f
  }

  /** Frame `i` is where its page-table entry says, and is clean unless that entry allows writing. */
  predicate MapsTo(v: Vm, i: FrameNo) {
    var p := v.pool[i];
    var e := Table(v, p.owner)[p.slot];
    && p.owner == p.asid && e.hi != 0 && p.page == PageOf(e.hi)
    && (e.lo == LoFor(i, true) || (e.lo == LoFor(i, false) && v.ram[i] == Block(v, p.asid, p.page)))
  }

  predicate FrameOk(v: Vm, live: set<Asid>, i: FrameNo) {
    && (v.pool[i].asid == NOPROC || v.pool[i].asid in live)
    && (v.pool[i].asid != NOPROC && !InTransit(v, i) ==> MapsTo(v, i))
  }

  /** A valid entry names the frame that holds its page. */
  predicate PteOk(v: Vm, a: Asid, s: PteNo) {
    var e := Table(v, a)[s];
    ValidBit(e.lo) ==>
      var f := FrameOf(e.lo);
      0 <= f < POOLSIZE && !InTransit(v, f) && v.pool[f] == Frame(a, PageOf(e.hi), a, s)
  }

  /** The TLB agrees with the page tables. */
  predicate TlbOk(v: Vm, a: Asid, hi: int) {
    UserHi(a, hi) && hi in v.tlb ==> v.tlb[hi] == LoOf(Table(v, a), hi)
  }

  /** The handler's own view of the frame in transit. */
  ghost predicate PhaseOk(v: Vm, live: set<Asid>) {
    v.phase.Idle? ||
    (var p := v.phase;
     && p.asid in live && UserHi(p.asid, p.hi) && UserHi(p.asid, SavedHi(v, p.asid))
     && ((p.Evicting? || p.Loading?) && v.pool[p.f].asid != NOPROC ==>
           var q := v.pool[p.f];
           var e := Table(v, q.owner)[q.slot];
           && q.owner == q.asid && e.hi != 0 && q.page == PageOf(e.hi) && e.lo == 0
           && (p.Evicting? && !DirtyBit(p.elo) ==> v.ram[p.f] == Block(v, q.asid, q.page)))
     && (p.Loaded? ==>
           && v.pool[p.f] == Frame(p.asid, PageOf(p.hi), p.asid, p.slot)
           && p.slot == Seek(Table(v, p.asid), p.hi, 0)
           && v.ram[p.f] == Block(v, p.asid, PageOf(p.hi))))
  }

  /** The page that is being brought in is not mapped. */
  predicate Missing(v: Vm) {
    !v.phase.Idle? ==> !ValidBit(LoOf(Table(v, v.phase.asid), v.phase.hi))
  }

  ghost predicate VmOk(v: Vm, live: set<Asid>) {
    VmCore(v, live) && Missing(v)
  }

  /** The tables agree. */
  ghost predicate VmCore(v: Vm, live: set<Asid>) {
    && (forall a: Asid {:trigger Table(v, a)} | a in live :: TableOk(Table(v, a), a))
    && (forall i: FrameNo {:trigger FrameOk(v, live, i)} :: FrameOk(v, live, i))
    && (forall a: Asid, s: PteNo {:trigger PteOk(v, a, s)} | a in live :: PteOk(v, a, s))
    && (forall a: Asid, hi: int {:trigger TlbOk(v, a, hi)} | a in live :: TlbOk(v, a, hi))
    && PhaseOk(v, live)
  }

  /** What process `a` has at `hi`: its frame if it is mapped, the victim's frame on its way out, else its block. */
  function Mem(v: Vm, a: Asid, hi: int): Page {
    var lo := LoOf(Table(v, a), hi);
    if ValidBit(lo) && 0 <= FrameOf(lo) < POOLSIZE then v.ram[FrameOf(lo)]
    else if v.phase.Evicting? && v.pool[v.phase.f].asid == a && v.pool[v.phase.f].page == PageOf(hi)
      && DirtyBit(v.phase.elo)
    then v.ram[v.phase.f]
    else Block(v, a, PageOf(hi))
  }

  ghost predicate SameMem(v: Vm, w: Vm, live: set<Asid>) {
    forall a: Asid, hi: int {:trigger Mem(w, a, hi)} | a in live && UserHi(a, hi) :: Mem(w, a, hi) == Mem(v, a, hi)
  }

  /** Two frames never hold the same page of the same process. */
  lemma FramesDistinct(v: Vm, live: set<Asid>, i: FrameNo, j: FrameNo)
    requires VmCore(v, live) && !InTransit(v, i) && !InTransit(v, j)
    requires v.pool[i].asid != NOPROC && v.pool[i].asid == v.pool[j].asid && v.pool[i].page == v.pool[j].page
    ensures i == j
  {
    assert FrameOk(v, live, i) && FrameOk(v, live, j);
    var a: Asid := v.pool[i].owner;
    var t := Table(v, a);
    var s, u := v.pool[i].slot, v.pool[j].slot;
    PageOfInjective(a, t[s].hi, t[u].hi);
    LookupSlot(t, a, s);
    LookupSlot(t, a, u);
    LoBits(i, true);
    LoBits(i, false);
    LoBits(j, true);
    LoBits(j, false);
  }

  /** A page is mapped exactly if a frame that is not in transit holds it. */
  lemma Bijection(v: Vm, live: set<Asid>, a: Asid, s: PteNo)
    requires VmCore(v, live) && a in live
    ensures ValidBit(Table(v, a)[s].lo) <==>
      exists i: FrameNo :: !InTransit(v, i) && v.pool[i].asid == a && v.pool[i].owner == a && v.pool[i].slot == s
    ensures ValidBit(Table(v, a)[s].lo) ==>
      var f := FrameOf(Table(v, a)[s].lo); 0 <= f < POOLSIZE && v.pool[f] == Frame(a, PageOf(Table(v, a)[s].hi), a, s)
  {
    assert PteOk(v, a, s);
    if i: FrameNo :| !InTransit(v, i) && v.pool[i].asid == a && v.pool[i].owner == a && v.pool[i].slot == s {
      assert FrameOk(v, live, i);
      LoBits(i, true);
      LoBits(i, false);
    }
  }

  // ----- the start of a handler

  /** The faulting page is not mapped, or it is itself the victim. */
  predicate NotDuplicated(v: Vm, a: Asid, hi: int) {
    ValidBit(LoOf(Table(v, a), hi)) ==> FrameOf(LoOf(Table(v, a), hi)) == GetFrameIndex(v).0
  }

  /** A fault that is given a free frame. */
  lemma StartFree(v: Vm, live: set<Asid>, a: Asid, hi: int)
    requires VmCore(v, live) && v.phase.Idle? && a in live && UserHi(a, hi) && SavedHi(v, a) == hi
    requires v.pool[GetFrameIndex(v).0].asid == NOPROC
    ensures VmCore(Start(v, a, hi), live) && SameMem(v, Start(v, a, hi), live)
    ensures NotDuplicated(v, a, hi) ==> Missing(Start(v, a, hi))
  {
    var w := Start(v, a, hi);
    MappedEntry(v, live, a, hi);
    forall i: FrameNo ensures FrameOk(w, live, i) {
      assert FrameOk(v, live, i);
    }
    forall b: Asid, s: PteNo | b in live ensures PteOk(w, b, s) {
      assert PteOk(v, b, s);
    }
    forall b: Asid, h: int | b in live ensures TlbOk(w, b, h) {
      assert TlbOk(v, b, h);
    }
    assert forall b: Asid :: Table(w, b) == Table(v, b);
  }

  /** What unmapping the page in frame `f` changes. */
  ghost predicate Unmapped(v: Vm, w: Vm, f: FrameNo) {
    var q := v.pool[f];
    var t := Table(v, q.owner);
    var h := t[q.slot].hi;
    && w.pool == v.pool && w.ram == v.ram && w.flash == v.flash
    && (forall b: Asid :: Table(w, b) == if b == q.owner then t[q.slot := Pte(h, 0)] else Table(v, b))
    && w.tlb == UpdateTlb(v.tlb, Pte(h, 0))
    && w.phase.Evicting? && w.phase.f == f && w.phase.elo == t[q.slot].lo
  }

  lemma StartUnmaps(v: Vm, a: Asid, hi: int)
    requires v.pool[GetFrameIndex(v).0].asid != NOPROC
    ensures Unmapped(v, Start(v, a, hi), GetFrameIndex(v).0)
  {
  }

  lemma UnmapTable(v: Vm, w: Vm, live: set<Asid>, f: FrameNo, b: Asid, h: int)
    requires VmCore(v, live) && v.phase.Idle? && v.pool[f].asid != NOPROC && Unmapped(v, w, f) && b in live
    ensures TableOk(Table(w, b), b)
    ensures LoOf(Table(w, b), h) ==
      if b == v.pool[f].owner && h == Table(v, b)[v.pool[f].slot].hi then 0 else LoOf(Table(v, b), h)
  {
    assert FrameOk(v, live, f);
    assert TableOk(Table(v, b), b);
    if b == v.pool[f].owner {
      SetLo(Table(v, b), b, v.pool[f].slot, 0);
    }
  }

  lemma UnmapFrames(v: Vm, w: Vm, live: set<Asid>, f: FrameNo, i: FrameNo)
    requires VmCore(v, live) && v.phase.Idle? && v.pool[f].asid != NOPROC && Unmapped(v, w, f)
    ensures FrameOk(w, live, i)
  {
    assert FrameOk(v, live, i) && FrameOk(v, live, f);
    if i != f && v.pool[i].asid != NOPROC && v.pool[i].owner == v.pool[f].owner && v.pool[i].slot == v.pool[f].slot {
      FramesDistinct(v, live, i, f);
    }
  }

  lemma UnmapEntries(v: Vm, w: Vm, live: set<Asid>, f: FrameNo, b: Asid, s: PteNo)
    requires VmCore(v, live) && v.phase.Idle? && v.pool[f].asid != NOPROC && Unmapped(v, w, f) && b in live
    ensures PteOk(w, b, s)
  {
    assert PteOk(v, b, s) && FrameOk(v, live, f);
    LoBits(f, true);
  }

  lemma UnmapMem(v: Vm, w: Vm, live: set<Asid>, f: FrameNo, b: Asid, h: int)
    requires VmCore(v, live) && v.phase.Idle? && v.pool[f].asid != NOPROC && Unmapped(v, w, f) && b in live
      && UserHi(b, h)
    ensures Mem(w, b, h) == Mem(v, b, h)
  {
    UnmapTable(v, w, live, f, b, h);
    assert FrameOk(v, live, f);
    var q := v.pool[f];
    var e := Table(v, q.owner)[q.slot];
    assert TableOk(Table(v, q.owner), q.owner);
    LookupSlot(Table(v, q.owner), q.owner, q.slot);
    LoBits(f, true);
    LoBits(f, false);
    if b == q.owner && PageOf(h) == q.page {
      PageOfInjective(b, h, e.hi);
    }
  }

  lemma StartUsed(v: Vm, live: set<Asid>, a: Asid, hi: int)
    requires VmCore(v, live) && v.phase.Idle? && a in live && UserHi(a, hi) && SavedHi(v, a) == hi
    requires v.pool[GetFrameIndex(v).0].asid != NOPROC
    ensures VmCore(Start(v, a, hi), live) && SameMem(v, Start(v, a, hi), live)
    ensures NotDuplicated(v, a, hi) ==> Missing(Start(v, a, hi))
  {
    var w, f := Start(v, a, hi), GetFrameIndex(v).0;
    StartUnmaps(v, a, hi);
    forall b: Asid | b in live ensures TableOk(Table(w, b), b) {
      UnmapTable(v, w, live, f, b, 0);
    }
    forall i: FrameNo ensures FrameOk(w, live, i) {
      UnmapFrames(v, w, live, f, i);
    }
    forall b: Asid, s: PteNo | b in live ensures PteOk(w, b, s) {
      UnmapEntries(v, w, live, f, b, s);
    }
    forall b: Asid, h: int | b in live ensures TlbOk(w, b, h) {
      assert TlbOk(v, b, h);
      UnmapTable(v, w, live, f, b, h);
      UnmapTlb(v, w, live, f, b, h);
    }
    forall b: Asid, h: int | b in live && UserHi(b, h) ensures Mem(w, b, h) == Mem(v, b, h) {
      UnmapMem(v, w, live, f, b, h);
    }
    UnmapPhase(v, live, a, hi);
  }

  lemma UnmapTlb(v: Vm, w: Vm, live: set<Asid>, f: FrameNo, b: Asid, h: int)
    requires VmCore(v, live) && v.phase.Idle? && v.pool[f].asid != NOPROC && Unmapped(v, w, f) && b in live
      && TlbOk(v, b, h)
    requires LoOf(Table(w, b), h) ==
      if b == v.pool[f].owner && h == Table(v, b)[v.pool[f].slot].hi then 0 else LoOf(Table(v, b), h)
    ensures TlbOk(w, b, h)
  {
    assert FrameOk(v, live, f);
    var q := v.pool[f];
    assert TableOk(Table(v, q.owner), q.owner);
  }

  lemma UnmapPhase(v: Vm, live: set<Asid>, a: Asid, hi: int)
    requires VmCore(v, live) && v.phase.Idle? && a in live && UserHi(a, hi) && SavedHi(v, a) == hi
    requires v.pool[GetFrameIndex(v).0].asid != NOPROC
    ensures PhaseOk(Start(v, a, hi), live)
    ensures NotDuplicated(v, a, hi) ==> Missing(Start(v, a, hi))
  {
    var w, f := Start(v, a, hi), GetFrameIndex(v).0;
    assert FrameOk(v, live, f);
    StartUnmaps(v, a, hi);
    UnmapTable(v, w, live, f, a, hi);
    MappedEntry(v, live, a, hi);
    LoBits(f, true);
    LoBits(f, false);
  }

  /** A mapped page's frame and entry name each other. */
  lemma MappedEntry(v: Vm, live: set<Asid>, a: Asid, hi: int)
    requires VmCore(v, live) && a in live && UserHi(a, hi)
    ensures ValidBit(LoOf(Table(v, a), hi)) ==>
      var f := FrameOf(LoOf(Table(v, a), hi));
      var s := Lookup(Table(v, a), hi, 0);
      0 <= f < POOLSIZE && s < MAXPAGES && !InTransit(v, f) && v.pool[f] == Frame(a, PageOf(hi), a, s)
  {
    var s := Lookup(Table(v, a), hi, 0);
    if s < MAXPAGES {
      assert PteOk(v, a, s);
    } else {
      LoBits(0, true);
    }
  }

  // ----- write-back

  /** Apart from the victim's, no page that matters has the block that is written. */
  lemma WriteBackStep(v: Vm, live: set<Asid>)
    requires VmCore(v, live) && v.phase.Evicting?
    ensures VmCore(WriteBack(v), live) && SameMem(v, WriteBack(v), live)
    ensures Missing(v) ==> Missing(WriteBack(v))
  {
    var w, f := WriteBack(v), v.phase.f;
    assert FrameOk(v, live, f);
    forall i: FrameNo ensures FrameOk(w, live, i) {
      assert FrameOk(v, live, i);
      if i != f && v.pool[i].asid != NOPROC && v.pool[i].asid == v.pool[f].asid && v.pool[i].page == v.pool[f].page {
        VictimElsewhere(v, live, i);
      }
    }
    forall b: Asid, s: PteNo | b in live ensures PteOk(w, b, s) {
      assert PteOk(v, b, s);
    }
    forall b: Asid, h: int | b in live ensures TlbOk(w, b, h) {
      assert TlbOk(v, b, h);
    }
    assert forall b: Asid :: Table(w, b) == Table(v, b);
    forall b: Asid, h: int | b in live && UserHi(b, h) ensures Mem(w, b, h) == Mem(v, b, h) {
      WriteBackMem(v, live, b, h);
    }
  }

  /** The victim's page is in no other frame. */
  lemma VictimElsewhere(v: Vm, live: set<Asid>, i: FrameNo)
    requires VmCore(v, live) && v.phase.Evicting? && i != v.phase.f && v.pool[i].asid != NOPROC
    ensures !(v.pool[i].asid == v.pool[v.phase.f].asid && v.pool[i].page == v.pool[v.phase.f].page)
  {
    var q := v.pool[v.phase.f];
    assert FrameOk(v, live, i) && FrameOk(v, live, v.phase.f);
    if v.pool[i].asid == q.asid && v.pool[i].page == q.page {
      var t := Table(v, q.owner);
      assert TableOk(t, q.owner);
      PageOfInjective(q.asid, t[v.pool[i].slot].hi, t[q.slot].hi);
      LookupSlot(t, q.owner, q.slot);
      LookupSlot(t, q.owner, v.pool[i].slot);
      LoBits(i, true);
      LoBits(i, false);
    }
  }

  lemma WriteBackMem(v: Vm, live: set<Asid>, b: Asid, h: int)
    requires VmCore(v, live) && v.phase.Evicting? && b in live && UserHi(b, h)
    ensures Mem(WriteBack(v), b, h) == Mem(v, b, h)
  {
    var q := v.pool[v.phase.f];
    var t := Table(v, q.owner);
    assert Table(WriteBack(v), b) == Table(v, b);
    if q.asid == b && q.page == PageOf(h) {
      assert TableOk(t, q.owner);
      PageOfInjective(b, h, t[q.slot].hi);
      LookupSlot(t, q.owner, q.slot);
      LoBits(0, true);
    }
  }

  // ----- loading and mapping

  /** What is mapped is not in transit. */
  lemma NotInTransit(v: Vm, live: set<Asid>, b: Asid, h: int)
    requires VmCore(v, live) && b in live && UserHi(b, h) && !v.phase.Idle?
    ensures var lo := LoOf(Table(v, b), h); ValidBit(lo) ==> 0 <= FrameOf(lo) < POOLSIZE && FrameOf(lo) != v.phase.f
  {
    MappedEntry(v, live, b, h);
  }

  lemma LoadMem(v: Vm, live: set<Asid>, b: Asid, h: int)
    requires VmCore(v, live) && v.phase.Loading? && b in live && UserHi(b, h)
    ensures Mem(Load(v), b, h) == Mem(v, b, h)
  {
    NotInTransit(v, live, b, h);
    LoadOther(v, b, h);
  }

  lemma LoadOther(v: Vm, b: Asid, h: int)
    requires v.phase.Loading?
    requires var lo := LoOf(Table(v, b), h); ValidBit(lo) ==> 0 <= FrameOf(lo) < POOLSIZE && FrameOf(lo) != v.phase.f
    ensures Mem(Load(v), b, h) == Mem(v, b, h)
  {
    assert Table(Load(v), b) == Table(v, b);
  }

  lemma LoadFrames(v: Vm, live: set<Asid>, i: FrameNo)
    requires VmCore(v, live) && v.phase.Loading? && Load(v).phase.Loaded?
    ensures FrameOk(Load(v), live, i)
  {
    assert FrameOk(v, live, i);
    assert forall b: Asid :: Table(Load(v), b) == Table(v, b);
  }

  /** The search for the EntryHi that is saved by now ends where the faulting one's does. */
  predicate SameSlot(v: Vm)
    requires !v.phase.Idle?
  {
    var t := Table(v, v.phase.asid);
    Seek(t, SavedHi(v, v.phase.asid), 0) == Seek(t, v.phase.hi, 0)
  }

  /** Loading the frame changes nobody's memory. The tables still agree exactly if the entry is the faulting page's. */
  lemma LoadStep(v: Vm, live: set<Asid>)
    requires VmCore(v, live) && v.phase.Loading? && Load(v).phase.Loaded?
    ensures SameMem(v, Load(v), live)
    ensures VmCore(Load(v), live) <==> SameSlot(v)
    ensures Missing(v) ==> Missing(Load(v))
  {
    var w := Load(v);
    assert forall b: Asid :: Table(w, b) == Table(v, b);
    forall i: FrameNo ensures FrameOk(w, live, i) {
      LoadFrames(v, live, i);
    }
    forall b: Asid, s: PteNo | b in live ensures PteOk(w, b, s) {
      assert PteOk(v, b, s);
    }
    forall b: Asid, h: int | b in live ensures TlbOk(w, b, h) {
      assert TlbOk(v, b, h);
    }
    forall b: Asid, h: int | b in live && UserHi(b, h) ensures Mem(w, b, h) == Mem(v, b, h) {
      LoadMem(v, live, b, h);
    }
  }

  lemma TrapOk(v: Vm, live: set<Asid>)
    requires VmOk(v, live) && v.phase.Loading? && Load(v).phase.Idle? && v.pool[v.phase.f].asid == NOPROC
    ensures VmOk(Load(v), live)
  {
    var w := Load(v);
    assert forall b: Asid :: Table(w, b) == Table(v, b);
    forall i: FrameNo ensures FrameOk(w, live, i) {
      assert FrameOk(v, live, i);
    }
    forall b: Asid, s: PteNo | b in live ensures PteOk(w, b, s) {
      assert PteOk(v, b, s);
    }
    forall b: Asid, h: int | b in live ensures TlbOk(w, b, h) {
      assert TlbOk(v, b, h);
    }
  }

  /** When the page table is full, memory is still what it was, but the tables agree exactly if the frame was free:
      otherwise the swap pool goes on naming a page that is not there. */
  lemma LoadTrap(v: Vm, live: set<Asid>)
    requires VmOk(v, live) && v.phase.Loading? && Load(v).phase.Idle?
    ensures SameMem(v, Load(v), live)
    ensures VmOk(Load(v), live) <==> v.pool[v.phase.f].asid == NOPROC
  {
    var w, f := Load(v), v.phase.f;
    forall b: Asid, h: int | b in live && UserHi(b, h) ensures Mem(w, b, h) == Mem(v, b, h) {
      LoadMem(v, live, b, h);
    }
    if v.pool[f].asid == NOPROC {
      TrapOk(v, live);
    } else {
      TrapStale(v, live);
    }
  }

  lemma TrapStale(v: Vm, live: set<Asid>)
    requires VmOk(v, live) && v.phase.Loading? && Load(v).phase.Idle? && v.pool[v.phase.f].asid != NOPROC
    ensures !FrameOk(Load(v), live, v.phase.f)
  {
    var w, f := Load(v), v.phase.f;
    assert Table(w, w.pool[f].owner)[w.pool[f].slot].lo == 0;
    assert !MapsTo(w, f);
  }

  lemma InstallTable(v: Vm, live: set<Asid>, b: Asid, h: int)
    requires VmCore(v, live) && v.phase.Loaded? && SavedHi(v, v.phase.asid) == v.phase.hi && b in live && UserHi(b, h)
    ensures TableOk(Table(Install(v), b), b)
    ensures LoOf(Table(Install(v), b), h) ==
      if b == v.phase.asid && h == v.phase.hi then LoFor(v.phase.f, NeedDirty(v, v.phase.asid, PageOf(v.phase.hi)))
      else LoOf(Table(v, b), h)
  {
    var p := v.phase;
    assert TableOk(Table(v, b), b);
    assert b != p.asid ==> Table(Install(v), b) == Table(v, b);
    if b == p.asid {
      var lo := LoFor(p.f, NeedDirty(v, p.asid, PageOf(p.hi)));
      assert Table(Install(v), b) == Table(v, b)[p.slot := Pte(p.hi, lo)] && h != 0;
      SetTableAt(Table(v, b), b, p.hi, p.slot, lo, h);
    }
  }

  lemma InstallFrames(v: Vm, live: set<Asid>, i: FrameNo)
    requires VmOk(v, live) && v.phase.Loaded? && SavedHi(v, v.phase.asid) == v.phase.hi
    ensures FrameOk(Install(v), live, i)
  {
    var p := v.phase;
    assert FrameOk(v, live, i);
    assert forall b: Asid | b != p.asid :: Table(Install(v), b) == Table(v, b);
    if i != p.f && v.pool[i].asid == p.asid && v.pool[i].slot == p.slot {
      assert TableOk(Table(v, p.asid), p.asid);
      LookupSlot(Table(v, p.asid), p.asid, p.slot);
      LoBits(i, true);
      LoBits(i, false);
    }
  }

  lemma InstallEntries(v: Vm, live: set<Asid>, b: Asid, s: PteNo)
    requires VmOk(v, live) && v.phase.Loaded? && SavedHi(v, v.phase.asid) == v.phase.hi && b in live
    ensures PteOk(Install(v), b, s)
  {
    var p := v.phase;
    assert PteOk(v, b, s);
    assert b != p.asid ==> Table(Install(v), b) == Table(v, b);
    LoBits(p.f, NeedDirty(v, p.asid, PageOf(p.hi)));
  }

  lemma InstallMem(v: Vm, live: set<Asid>, b: Asid, h: int)
    requires VmCore(v, live) && v.phase.Loaded? && SavedHi(v, v.phase.asid) == v.phase.hi && b in live && UserHi(b, h)
    ensures Missing(v) || !(b == v.phase.asid && h == v.phase.hi) ==> Mem(Install(v), b, h) == Mem(v, b, h)
  {
    var p := v.phase;
    InstallTable(v, live, b, h);
    LoBits(p.f, NeedDirty(v, p.asid, PageOf(p.hi)));
  }

  /** Mapping the page keeps the tables in agreement exactly if the saved EntryHi is still the faulting one. */
  lemma InstallExact(v: Vm, live: set<Asid>)
    requires VmOk(v, live) && v.phase.Loaded?
    ensures VmOk(Install(v), live) <==> SavedHi(v, v.phase.asid) == v.phase.hi
  {
    var p := v.phase;
    if SavedHi(v, p.asid) == p.hi {
      InstallStep(v, live);
    } else {
      WrongEntry(v, live);
    }
  }

  /** The entry is for another page than the frame. */
  lemma WrongEntry(v: Vm, live: set<Asid>)
    requires VmCore(v, live) && v.phase.Loaded? && SavedHi(v, v.phase.asid) != v.phase.hi
    ensures !PteOk(Install(v), v.phase.asid, v.phase.slot)
  {
    var p := v.phase;
    var hi := SavedHi(v, p.asid);
    LoBits(p.f, NeedDirty(v, p.asid, PageOf(p.hi)));
    if PageOf(hi) == PageOf(p.hi) {
      PageOfInjective(p.asid, hi, p.hi);
    }
  }

  lemma InstallStep(v: Vm, live: set<Asid>)
    requires VmOk(v, live) && v.phase.Loaded? && SavedHi(v, v.phase.asid) == v.phase.hi
    ensures VmOk(Install(v), live) && SameMem(v, Install(v), live)
  {
    var w, p := Install(v), v.phase;
    forall b: Asid | b in live ensures TableOk(Table(w, b), b) {
      if b == p.asid {
        InstallTable(v, live, b, p.hi);
      } else {
        assert Table(w, b) == Table(v, b);
      }
    }
    forall i: FrameNo ensures FrameOk(w, live, i) {
      InstallFrames(v, live, i);
    }
    forall b: Asid, s: PteNo | b in live ensures PteOk(w, b, s) {
      InstallEntries(v, live, b, s);
    }
    forall b: Asid, h: int | b in live ensures TlbOk(w, b, h) {
      assert TlbOk(v, b, h);
      if UserHi(b, h) {
        InstallTable(v, live, b, h);
      }
    }
    forall b: Asid, h: int | b in live && UserHi(b, h) ensures Mem(w, b, h) == Mem(v, b, h) {
      InstallMem(v, live, b, h);
    }
  }

  /** Unmapping the victim and mapping the page bring no entry into the TLB and none out of it; they change the TLB's
      copy of the page's own entry, if there is one: the victim's becomes invalid, the new page's the table's. */
  lemma TlbCopies(v: Vm, a: Asid, hi: int, h: int)
    ensures var w, q := Start(v, a, hi), v.pool[GetFrameIndex(v).0];
      && w.tlb.Keys == v.tlb.Keys
      && (h in v.tlb ==>
            w.tlb[h] == if q.asid != NOPROC && h == Table(v, q.owner)[q.slot].hi then 0 else v.tlb[h])
    ensures v.phase.Loaded? ==>
      var w, b := Install(v), v.phase.asid;
      && w.tlb.Keys == v.tlb.Keys
      && (h in v.tlb ==> w.tlb[h] == if h == SavedHi(v, b) then Table(w, b)[v.phase.slot].lo else v.tlb[h])
  {
  }

  // ----- what happens beside the handler

  /** The TLB is not part of what a page contains. */
  lemma RefillSame(v: Vm, w: Vm, live: set<Asid>)
    requires w == v.(tlb := w.tlb)
    ensures SameMem(v, w, live)
  {
    forall a: Asid, hi: int | a in live && UserHi(a, hi) ensures Mem(w, a, hi) == Mem(v, a, hi) {
      assert Table(w, a) == Table(v, a);
    }
  }

  /** Another fault changes nothing but the saved EntryHi. */
  lemma RaiseStep(v: Vm, live: set<Asid>, a: Asid, hi: int)
    requires VmCore(v, live) && UserHi(a, hi)
    ensures VmCore(Raise(v, a, hi), live) && SameMem(v, Raise(v, a, hi), live)
    ensures Missing(Raise(v, a, hi)) == Missing(v)
  {
    var w := Raise(v, a, hi);
    assert forall b: Asid :: Table(w, b) == Table(v, b);
    forall i: FrameNo ensures FrameOk(w, live, i) {
      assert FrameOk(v, live, i);
    }
    forall b: Asid, s: PteNo | b in live ensures PteOk(w, b, s) {
      assert PteOk(v, b, s);
    }
    forall b: Asid, h: int | b in live ensures TlbOk(w, b, h) {
      assert TlbOk(v, b, h);
    }
  }

  lemma RefillStep(v: Vm, live: set<Asid>, a: Asid, hi: int, evicted: set<int>)
    requires VmOk(v, live) && a in live && UserHi(a, hi)
    ensures VmOk(Refill(v, a, hi, evicted), live) && SameMem(v, Refill(v, a, hi, evicted), live)
  {
    var w := Refill(v, a, hi, evicted);
    RefillSame(v, w, live);
    assert forall b: Asid :: Table(w, b) == Table(v, b);
    forall i: FrameNo ensures FrameOk(w, live, i) {
      assert FrameOk(v, live, i);
    }
    forall b: Asid, s: PteNo | b in live ensures PteOk(w, b, s) {
      assert PteOk(v, b, s);
    }
    forall b: Asid, h: int | b in live ensures TlbOk(w, b, h) {
      assert TlbOk(v, b, h);
    }
  }

  /** An access that the TLB allows goes to the frame that holds the page. */
  lemma AccessFrame(v: Vm, live: set<Asid>, a: Asid, hi: int)
    requires VmCore(v, live) && a in live && UserHi(a, hi) && hi in v.tlb && ValidBit(v.tlb[hi])
    ensures var f := FrameOf(v.tlb[hi]);
      && 0 <= f < POOLSIZE && !InTransit(v, f) && v.ram[f] == Mem(v, a, hi)
      && v.pool[f].asid == a && v.pool[f].page == PageOf(hi)
      && v.tlb[hi] == LoOf(Table(v, a), hi) && LoOf(Table(v, a), hi) == Table(v, a)[v.pool[f].slot].lo
  {
    assert TlbOk(v, a, hi);
    var i := Lookup(Table(v, a), hi, 0);
    if i == MAXPAGES {
      LoBits(0, true);
    }
    assert PteOk(v, a, i);
  }

  /** The hardware stores into the frame that the TLB names. */
  function Store(v: Vm, hi: int, content: Page): Vm
    requires hi in v.tlb && 0 <= FrameOf(v.tlb[hi]) < POOLSIZE
  {
    v.(ram := v.ram[FrameOf(v.tlb[hi]) := content])
  }

  lemma StoreMem(v: Vm, live: set<Asid>, a: Asid, hi: int, content: Page, b: Asid, h: int)
    requires VmCore(v, live) && a in live && UserHi(a, hi) && hi in v.tlb && ValidBit(v.tlb[hi])
    requires 0 <= FrameOf(v.tlb[hi]) < POOLSIZE && b in live && UserHi(b, h)
    ensures Mem(Store(v, hi, content), b, h) == if b == a && h == hi then content else Mem(v, b, h)
  {
    AccessFrame(v, live, a, hi);
    MappedEntry(v, live, b, h);
    if b == a && PageOf(h) == PageOf(hi) {
      PageOfInjective(a, h, hi);
    }
    StoreOther(v, hi, content, b, h);
  }

  /** A page whose frame is not the one stored into keeps its content. */
  lemma StoreOther(v: Vm, hi: int, content: Page, b: Asid, h: int)
    requires hi in v.tlb && 0 <= FrameOf(v.tlb[hi]) < POOLSIZE && !InTransit(v, FrameOf(v.tlb[hi]))
    ensures var lo := LoOf(Table(v, b), h);
      Mem(Store(v, hi, content), b, h)
      == if ValidBit(lo) && FrameOf(lo) == FrameOf(v.tlb[hi]) then content else Mem(v, b, h)
  {
    assert Table(Store(v, hi, content), b) == Table(v, b);
  }

  lemma StoreStep(v: Vm, live: set<Asid>, a: Asid, hi: int, content: Page)
    requires VmOk(v, live) && a in live && UserHi(a, hi) && hi in v.tlb && ValidBit(v.tlb[hi]) && DirtyBit(v.tlb[hi])
    ensures 0 <= FrameOf(v.tlb[hi]) < POOLSIZE && VmOk(Store(v, hi, content), live)
  {
    AccessFrame(v, live, a, hi);
    var w, f := Store(v, hi, content), FrameOf(v.tlb[hi]);
    assert forall b: Asid :: Table(w, b) == Table(v, b);
    forall i: FrameNo ensures FrameOk(w, live, i) {
      assert FrameOk(v, live, i);
      LoBits(f, false);
    }
    forall b: Asid, s: PteNo | b in live ensures PteOk(w, b, s) {
      assert PteOk(v, b, s);
    }
    forall b: Asid, h: int | b in live ensures TlbOk(w, b, h) {
      assert TlbOk(v, b, h);
    }
  }

  /** Freeing a dead process's frames leaves the others' pages alone. */
  lemma ExitStep(v: Vm, live: set<Asid>, a: Asid)
    requires VmOk(v, live) && (v.phase.Idle? || v.phase.asid != a)
    ensures VmOk(MarkFree(v, a), live - {a}) && SameMem(v, MarkFree(v, a), live - {a})
  {
    var w := MarkFree(v, a);
    assert forall b: Asid :: Table(w, b) == Table(v, b);
    forall i: FrameNo ensures FrameOk(w, live - {a}, i) {
      assert FrameOk(v, live, i);
    }
    forall b: Asid, s: PteNo | b in live - {a} ensures PteOk(w, b, s) {
      assert PteOk(v, b, s);
    }
    forall b: Asid, h: int | b in live - {a} ensures TlbOk(w, b, h) {
      assert TlbOk(v, b, h);
    }
  }

  lemma InitialOk(flash: map<(int, int), Page>, ram: Ram, live: set<Asid>)
    ensures VmOk(Initial(flash, ram), live)
    ensures forall a: Asid, hi: int :: Mem(Initial(flash, ram), a, hi) == Block(Initial(flash, ram), a, PageOf(hi))
  {
    var v := Initial(flash, ram);
    LoBits(0, true);
    forall a: Asid ensures TableOk(Table(v, a), a) && forall s: PteNo :: Table(v, a)[s] == Pte(0, 0) {
    }
    forall a: Asid, hi: int ensures LoOf(Table(v, a), hi) == 0 {
      var i := Lookup(Table(v, a), hi, 0);
      assert i < MAXPAGES ==> Table(v, a)[i] == Pte(0, 0);
    }
  }
}
