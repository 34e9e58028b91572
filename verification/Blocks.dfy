/** Where a page is on flash, and whether it may be written: over every run of the pager, in numbers. */
module Blocks {
  import opened Paging
  import opened PagingInv
  import opened PagingRuns

  predicate NeverWritten(es: seq<VmEvent>, a: Asid, hi: int) {
    forall e | e in es :: !(e.Write? && e.a == a && e.hi == hi)
  }

  lemma {:induction false} NothingWritten(es: seq<VmEvent>, a: Asid, hi: int, before: Page)
    requires NeverWritten(es, a, hi)
    ensures LastWritten(es, a, hi, before) == before
  {
    if es != [] {
      assert es[0] in es;
      assert NeverWritten(es[1..], a, hi) by { assert forall e | e in es[1..] :: e in es; }
      NothingWritten(es[1..], a, hi, before);
    }
  }

  /** A page that nobody has written reads as its process's flash block. */
  lemma FirstRead(flash: map<(int, int), Page>, ram: Ram, live: set<Asid>, es: seq<VmEvent>, a: Asid, hi: int, n: nat)
    requires LegalRun(Begin(flash, ram, live), es) && Allowed(Exec(Begin(flash, ram, live), es), Read(a, hi))
    requires IsBlock(hi, n) && NeverWritten(es, a, hi)
    ensures var v := Exec(Begin(flash, ram, live), es).vm;
      && 0 <= FrameOf(v.tlb[hi]) < POOLSIZE
      && v.ram[FrameOf(v.tlb[hi])] == if (a, n) in flash then flash[(a, n)] else []
  {
    var onFlash := if (a, n) in flash then flash[(a, n)] else [];
    ReadsLastWritten(flash, ram, live, es, a, hi, n);
    NothingWritten(es, a, hi, onFlash);
  }

  /** A page that is not mapped is on flash with what was last written to it, unless it is just being written back. */
  lemma UnmappedOnFlash(flash: map<(int, int), Page>, ram: Ram, live: set<Asid>, es: seq<VmEvent>, a: Asid, hi: int,
                        n: nat)
    requires LegalRun(Begin(flash, ram, live), es) && a in Exec(Begin(flash, ram, live), es).live
    requires UserHi(a, hi) && IsBlock(hi, n)
    ensures var v := Exec(Begin(flash, ram, live), es).vm;
      !ValidBit(LoOf(Table(v, a), hi)) && !v.phase.Evicting? ==>
        Block(v, a, n) == LastWritten(es, a, hi, if (a, n) in flash then flash[(a, n)] else [])
  {
    InitialOk(flash, ram, live);
    PageOfIsBlock(a, hi, n);
    FlatMemory(Begin(flash, ram, live), es, a, hi);
  }

  /** The victim that was mapped writable goes to its own process's block, and no other block changes. */
  lemma WritesVictim(v: Vm, live: set<Asid>, n: nat)
    requires VmOk(v, live) && v.phase.Evicting? && v.pool[v.phase.f].asid != NOPROC
    requires var q := v.pool[v.phase.f]; IsBlock(Table(v, q.owner)[q.slot].hi, n)
    ensures var q := v.pool[v.phase.f];
      WriteBack(v).flash == if DirtyBit(v.phase.elo) then v.flash[(q.asid, n) := v.ram[v.phase.f]] else v.flash
  {
    var q := v.pool[v.phase.f];
    assert FrameOk(v, live, v.phase.f);
    assert TableOk(Table(v, q.owner), q.owner);
    PageOfIsBlock(q.owner, Table(v, q.owner)[q.slot].hi, n);
  }

  /** The page is brought in from its process's block. */
  lemma LoadsBlock(v: Vm, n: nat)
    requires v.phase.Loading? && UserHi(v.phase.asid, v.phase.hi) && IsBlock(v.phase.hi, n)
    ensures Load(v).ram == v.ram[v.phase.f := Block(v, v.phase.asid, n)]
  {
    PageOfIsBlock(v.phase.asid, v.phase.hi, n);
  }

  // ----- which pages may be written

  /** The pages of program text that process 1 announces in word 5 of its first block. */
  function TextSize(flash: map<(int, int), Page>): int {
    if (1, 0) in flash && |flash[(1, 0)]| > 5 then flash[(1, 0)][5] / 4096 else 0
  }

  /** The text sizes known so far: process 1's from the first load of its first page on, all others 0 from the start. */
  predicate TextsOk(v: Vm, flash: map<(int, int), Page>) {
    && (forall i | 1 <= i < UPROCMAX :: v.text[i] == 0)
    && (v.text[0] == TextSize(flash) ||
        (&& v.text[0] == 0xFFFF_FFFF && Block(v, 1, 0) == (if (1, 0) in flash then flash[(1, 0)] else [])
         && forall i: FrameNo :: !(v.pool[i].asid == 1 && v.pool[i].page == 0)))
  }

  lemma StepTexts(m: Machine, e: VmEvent, flash: map<(int, int), Page>)
    requires Ok(m) && Allowed(m, e) && TextsOk(m.vm, flash) && TextSize(flash) != 0xFFFF_FFFF
    ensures TextsOk(Step(m, e).vm, flash)
  {
    match e
    case Fault(a, hi) => StartTexts(m.vm, a, hi, flash);
    case WriteVictim =>
    case LoadPage => LoadTexts(m.vm, flash);
    case MapPage =>
    case _ =>
  }

  lemma StartTexts(v: Vm, a: Asid, hi: int, flash: map<(int, int), Page>)
    requires TextsOk(v, flash)
    ensures TextsOk(Start(v, a, hi), flash)
  {
  }

  lemma LoadTexts(v: Vm, flash: map<(int, int), Page>)
    requires v.phase.Loading? && TextsOk(v, flash) && TextSize(flash) != 0xFFFF_FFFF
    ensures TextsOk(Load(v), flash)
  {
    var w := Load(v);
    assert w.text[0] == if v.phase.asid == 1 && PageOf(v.phase.hi) == 0 && v.text[0] == MINUS_ONE
                        then TextPages(Block(v, 1, 0)) else v.text[0];
  }

  lemma {:induction false} RunTexts(m: Machine, es: seq<VmEvent>, flash: map<(int, int), Page>)
    requires Ok(m) && LegalRun(m, es) && TextsOk(m.vm, flash) && TextSize(flash) != 0xFFFF_FFFF
    ensures TextsOk(Exec(m, es).vm, flash)
    decreases |es|
  {
    if es != [] {
      StepOk(m, es[0]);
      StepTexts(m, es[0], flash);
      RunTexts(Step(m, es[0]), es[1..], flash);
    }
  }

  /** Over every run: all pages of all processes but the first are mapped writable. A page of the first is mapped
      writable exactly if its first page has been loaded and the text ends before the page's block. (A word of the image
      is below 2^32, so the text size is not -1.) */
  lemma WritablePages(flash: map<(int, int), Page>, ram: Ram, live: set<Asid>, es: seq<VmEvent>, n: nat)
    requires LegalRun(Begin(flash, ram, live), es) && Allowed(Exec(Begin(flash, ram, live), es), MapPage)
    requires TextSize(flash) != 0xFFFF_FFFF && IsBlock(Exec(Begin(flash, ram, live), es).vm.phase.hi, n)
    ensures var v := Exec(Begin(flash, ram, live), es).vm;
      var a, hi := v.phase.asid, v.phase.hi;
      && DirtyBit(LoOf(Table(Install(v), a), hi)) == (a != 1 || (v.text[0] != 0xFFFF_FFFF && TextSize(flash) <= n))
  {
    var m := Begin(flash, ram, live);
    var v := Exec(m, es).vm;
    var a, hi := v.phase.asid, v.phase.hi;
    RunTexts(m, es, flash);
    PageOfIsBlock(a, hi, n);
    InstallTable(v, Exec(m, es).live, a, hi);
    LoBits(v.phase.f, NeedDirty(v, a, n));
  }
}
