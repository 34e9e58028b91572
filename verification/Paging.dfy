/** The demand pager on values: swap pool, page tables, TLB and flash, and the steps of a page-fault handler. */
module Paging {

  const UPROCMAX := 8
  const POOLSIZE := 16
  const MAXPAGES := 32
  const PAGESIZE := 4096
  const SWAP_POOL := 0x2000C000
  const NOPROC := -1
  const VALIDON := 0x200
  const DIRTYON := 0x400
  const VPNSHIFT := 12
  const ASIDSHIFT := 6
  const MINUS_ONE := 0xFFFF_FFFF
  const TWO32 := 0x1_0000_0000

  type Asid = a: int | 1 <= a <= UPROCMAX witness 1
  type FrameNo = f: nat | f < POOLSIZE
  type PteNo = i: nat | i < MAXPAGES

  /** A page's words. */
  type Page = seq<int>

  datatype Pte = Pte(hi: int, lo: int)

  type PageTable = t: seq<Pte> | |t| == MAXPAGES witness seq(MAXPAGES, _ => Pte(0, 0))

  /** swap_t; `sw_pte` is entry `slot` of `owner`'s page table. */
  datatype Frame = Frame(asid: int, page: int, owner: Asid, slot: PteNo)

  type Pool = p: seq<Frame> | |p| == POOLSIZE witness seq(POOLSIZE, _ => Frame(NOPROC, 0, 1, 0))
  type Ram = r: seq<Page> | |r| == POOLSIZE witness seq(POOLSIZE, _ => [])
  type Tables = t: seq<PageTable> | |t| == UPROCMAX
    witness seq(UPROCMAX, _ => seq(MAXPAGES, _ => Pte(0, 0)))
  type Counts = c: seq<int> | |c| == UPROCMAX witness seq(UPROCMAX, _ => 0)

  /** The EntryHi in each process's saved page-fault state. Its threads share that state: every fault overwrites it. */
  type Saved = s: seq<int> | |s| == UPROCMAX witness seq(UPROCMAX, _ => 0)

  /** How far the handler that holds the mutex has come, for the fault of `asid` at `hi`, with frame `f`:
      the victim is unmapped (its old EntryLo was `elo`), the frame can be loaded, the frame is loaded. The handler
      keeps only the page number of `hi`; later it reads the saved EntryHi again. */
  datatype Phase =
    | Idle
    | Evicting(asid: Asid, hi: int, f: FrameNo, elo: int)
    | Loading(asid: Asid, hi: int, f: FrameNo)
    | Loaded(asid: Asid, hi: int, f: FrameNo, slot: PteNo)

  datatype Vm = Vm(
    pool: Pool,
    tables: Tables,
    ram: Ram,
    flash: map<(int, int), Page>,
    text: Counts,
    saved: Saved,
    tlb: map<int, int>,
    frameIndex: int,
    phase: Phase)

  function Table(v: Vm, a: Asid): PageTable {
    v.tables[a - 1]
  }

  function SavedHi(v: Vm, a: Asid): int {
    v.saved[a - 1]
  }

  /** A thread of `a` faults at `hi`. */
  function Raise(v: Vm, a: Asid, hi: int): Vm {
    v.(saved := v.saved[a - 1 := hi])
  }

  function SetPte(v: Vm, a: Asid, i: PteNo, e: Pte): Vm {
    v.(tables := v.tables[a - 1 := Table(v, a)[i := e]])
  }

  function Block(v: Vm, a: int, page: int): Page {
    if (a, page) in v.flash then v.flash[(a, page)] else []
  }

  // ----- entries

  function ValidBit(lo: int): bool {
    lo / VALIDON % 2 == 1
  }

  function DirtyBit(lo: int): bool {
    lo / DIRTYON % 2 == 1
  }

  /** The frame that an EntryLo's physical frame number names. */
  function FrameOf(lo: int): int {
    (lo - lo % PAGESIZE - SWAP_POOL) / PAGESIZE
  }

  function LoFor(f: FrameNo, dirty: bool): int {
    SWAP_POOL + f * PAGESIZE + VALIDON + if dirty then DIRTYON else 0
  }

  lemma LoBits(f: FrameNo, dirty: bool)
    ensures ValidBit(LoFor(f, dirty)) && DirtyBit(LoFor(f, dirty)) == dirty && FrameOf(LoFor(f, dirty)) == f
    ensures !ValidBit(0)
  {
    assert LoFor(f, dirty) == PAGESIZE * (0x2000C + f) + VALIDON + if dirty then DIRTYON else 0;
  }

  /** find_page_by_entryhi: stack pages count down from 31, program pages up from 0. */
  function PageOf(hi: int): int {
    var vpn := hi / PAGESIZE;
    if vpn > 0x80000 + PAGESIZE * MAXPAGES then 31 + (0xBFFFF - vpn) else vpn - 0x80000
  }

  /** An EntryHi of process `a` for a program page of an image of at most 31 pages, or for a stack page. */
  predicate UserHi(a: int, hi: int) {
    var vpn := hi / PAGESIZE;
    hi == vpn * PAGESIZE + a * 64 && (0x80000 <= vpn < 0x8001F || 0xA0000 < vpn <= 0xBFFFF)
  }

  /** seek_entryhi_index_on_pagetable: the first entry that is free or holds `hi`; MAXPAGES if there is none. */
  function Seek(t: PageTable, hi: int, from: nat): (i: nat)
    requires from <= MAXPAGES
    ensures from <= i <= MAXPAGES
    ensures forall k | from <= k < i :: t[k].hi != 0 && t[k].hi != hi
    ensures i < MAXPAGES ==> t[i].hi == 0 || t[i].hi == hi
    decreases MAXPAGES - from
  {
    if from == MAXPAGES || t[from].hi == 0 || t[from].hi == hi then from else Seek(t, hi, from + 1)
  }

  /** uTLB_RefillHandler's search: the first entry that holds `hi`. */
  function Lookup(t: PageTable, hi: int, from: nat): (i: nat)
    requires from <= MAXPAGES
    ensures from <= i <= MAXPAGES
    ensures forall k | from <= k < i :: t[k].hi != hi
    ensures i < MAXPAGES ==> t[i].hi == hi
    decreases MAXPAGES - from
  {
    if from == MAXPAGES || t[from].hi == hi then from else Lookup(t, hi, from + 1)
  }

  /** What the refill handler puts into the TLB for `hi`. */
  function LoOf(t: PageTable, hi: int): int {
    var i := Lookup(t, hi, 0);
    if i < MAXPAGES then t[i].lo else 0
  }

  function UpdateTlb(tlb: map<int, int>, e: Pte): map<int, int> {
    if e.hi in tlb then tlb[e.hi := e.lo] else tlb
  }

  // ----- the page-fault handler, step by step (phase3/vmSupport.c)

  function FirstFree(p: Pool, from: nat): (i: nat)
    requires from <= POOLSIZE
    ensures from <= i <= POOLSIZE
    ensures forall k | from <= k < i :: p[k].asid != NOPROC
    ensures i < POOLSIZE ==> p[i].asid == NOPROC
    decreases POOLSIZE - from
  {
    if from == POOLSIZE || p[from].asid == NOPROC then from else FirstFree(p, from + 1)
  }

  function GetFrameIndex(v: Vm): (r: (FrameNo, int)) {
    var i := FirstFree(v.pool, 0);
    if i < POOLSIZE then (i, v.frameIndex)
    else ((v.frameIndex + 1) % TWO32 % POOLSIZE, (v.frameIndex + 1) % TWO32 % POOLSIZE)
  }

  /** The frame is chosen and, if it is in use, its page is unmapped. `hi` is the saved EntryHi at this time. */
  function Start(v: Vm, a: Asid, hi: int): Vm {
    var (f, next) := GetFrameIndex(v);
    var v1 := v.(frameIndex := next);
    if v.pool[f].asid == NOPROC then v1.(phase := Loading(a, hi, f))
    else
      var was := Table(v, v.pool[f].owner)[v.pool[f].slot];
      var e := Pte(was.hi, 0);
      SetPte(v1, v.pool[f].owner, v.pool[f].slot, e).(tlb := UpdateTlb(v.tlb, e), phase := Evicting(a, hi, f, was.lo))
  }

  /** The victim goes back to its flash block if it was mapped writable. */
  function WriteBack(v: Vm): Vm
    requires v.phase.Evicting?
  {
    var p := v.phase;
    var v1 := v.(phase := Loading(p.asid, p.hi, p.f));
    if DirtyBit(p.elo) then v1.(flash := v.flash[(v.pool[p.f].asid, v.pool[p.f].page) := v.ram[p.f]]) else v1
  }

  /** Word 5 of an image's first page is the size of its text. */
  function TextPages(p: Page): int {
    if |p| > 5 then p[5] / PAGESIZE else 0
  }

  /** The frame is loaded from flash and an entry is sought for the EntryHi that is saved by now. Without an entry left
      the handler dies here. */
  function Load(v: Vm): Vm
    requires v.phase.Loading?
  {
    var p := v.phase;
    var page := PageOf(p.hi);
    var content := Block(v, p.asid, page);
    var v1 := v.(ram := v.ram[p.f := content],
                 text := if page == 0 && v.text[p.asid - 1] == MINUS_ONE
                   then v.text[p.asid - 1 := TextPages(content)] else v.text);
    var i := Seek(Table(v, p.asid), SavedHi(v, p.asid), 0);
    if i == MAXPAGES then v1.(phase := Idle)
    else v1.(pool := v.pool[p.f := Frame(p.asid, page, p.asid, i)], phase := Loaded(p.asid, p.hi, p.f, i))
  }

  function NeedDirty(v: Vm, a: Asid, page: int): bool {
    v.text[a - 1] <= page
  }

  /** The page is mapped, under the EntryHi that is saved by now. */
  function Install(v: Vm): Vm
    requires v.phase.Loaded?
  {
    var p := v.phase;
    var e := Pte(SavedHi(v, p.asid), LoFor(p.f, NeedDirty(v, p.asid, PageOf(p.hi))));
    SetPte(v, p.asid, p.slot, e).(tlb := UpdateTlb(v.tlb, e), phase := Idle)
  }

  /** A fault and one undisturbed run of its handler. */
  function Handle(v: Vm, a: Asid, hi: int): Vm {
    var v1 := Start(Raise(v, a, hi), a, hi);
    var v2 := if v1.phase.Evicting? then WriteBack(v1) else v1;
    var v3 := Load(v2);
    if v3.phase.Loaded? then Install(v3) else v3
  }

  // ----- the rest of the machine

  /** The TLB takes in `hi`; the hardware picks the entries that make room. */
  function Refill(v: Vm, a: Asid, hi: int, evicted: set<int>): Vm {
    v.(tlb := (v.tlb - evicted)[hi := LoOf(Table(v, a), hi)])
  }

  function Freed(p: Pool, a: int): (r: Pool)
    ensures forall i: FrameNo :: r[i] == if p[i].asid == a then p[i].(asid := NOPROC) else p[i]
  {
    FreedFrom(p, a)
  }

  function FreedFrom(p: seq<Frame>, a: int): (r: seq<Frame>)
    ensures |r| == |p| && forall i :: 0 <= i < |p| ==> r[i] == if p[i].asid == a then p[i].(asid := NOPROC) else p[i]
  {
    if p == [] then [] else [if p[0].asid == a then p[0].(asid := NOPROC) else p[0]] + FreedFrom(p[1..], a)
  }

  /** mark_free_pages, after the last process of `a` is gone. */
  function MarkFree(v: Vm, a: Asid): Vm {
    v.(pool := Freed(v.pool, a))
  }

  /** initSwapStructs, empty page tables and the statically initialised counters. */
  function Initial(flash: map<(int, int), Page>, ram: Ram): Vm {
    Vm(seq(POOLSIZE, _ => Frame(NOPROC, 0, 1, 0)), seq(UPROCMAX, _ => seq(MAXPAGES, _ => Pte(0, 0))), ram, flash,
       seq(UPROCMAX, i => if i == 0 then MINUS_ONE else 0), seq(UPROCMAX, _ => 0), map[], MINUS_ONE, Idle)
  }
}
