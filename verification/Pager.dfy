/** The pager as it runs: tables changed in place, each routine proved against `Paging`. */
module Pager {
  import opened Paging
  import opened PagingRuns

  class Pager {
    const swapPoolTable: array<Frame>
    const pageTables: array<PageTable>
    const ram: array<Page>
    const textPages: array<int>
    /** pte_entryHI of each process's saved page-fault state, which its threads share. */
    const excState: array<int>
    var flash: map<(int, int), Page>
    var tlb: map<int, int>
    var frameIndex: int
    /** Where the handler that holds the mutex is. */
    ghost var phase: Phase

    ghost predicate Valid()
      reads this
    {
      && swapPoolTable.Length == POOLSIZE && pageTables.Length == UPROCMAX && ram.Length == POOLSIZE
      && textPages.Length == UPROCMAX && excState.Length == UPROCMAX && excState != textPages
    }

    ghost function Abs(): Vm
      requires Valid()
      reads this, swapPoolTable, pageTables, ram, textPages, excState
    {
      Vm(swapPoolTable[..], pageTables[..], ram[..], flash, textPages[..], excState[..], tlb, frameIndex, phase)
    }

    /** initSwapStructs and the zeroed page tables. */
    constructor Init(flash: map<(int, int), Page>, ram: array<Page>)
      requires ram.Length == POOLSIZE
      ensures Valid() && this.ram == ram && fresh(swapPoolTable) && fresh(pageTables) && fresh(textPages)
        && fresh(excState)
      ensures Abs() == Initial(flash, ram[..])
    {
      swapPoolTable := new Frame[POOLSIZE](_ => Frame(NOPROC, 0, 1, 0));
      pageTables := new PageTable[UPROCMAX](_ => seq(MAXPAGES, _ => Pte(0, 0)));
      this.ram := ram;
      textPages := new int[UPROCMAX](i => if i == 0 then MINUS_ONE else 0);
      excState := new int[UPROCMAX](_ => 0);
      this.flash, tlb, frameIndex, phase := flash, map[], MINUS_ONE, Idle;
    }

    /** A thread of `a` faults at `hi`: pass_up_or_die saves its state. */
    method PassUpFault(a: Asid, hi: int)
      requires Valid()
      modifies excState
      ensures Abs() == Raise(old(Abs()), a, hi)
    {
      excState[a - 1] := hi;
    }

    /** The first free frame, otherwise the next one in turn. */
    method FrameIndex() returns (f: FrameNo)
      requires Valid()
      modifies this`frameIndex
      ensures (f, frameIndex) == GetFrameIndex(old(Abs()))
    {
      ghost var p: Pool := swapPoolTable[..];
      var i := 0;
      while i < POOLSIZE
        invariant 0 <= i <= POOLSIZE && FirstFree(p, 0) == FirstFree(p, i)
      {
        if swapPoolTable[i].asid == NOPROC {
          return i;
        }
        i := i + 1;
      }
      frameIndex := (frameIndex + 1) % TWO32 % POOLSIZE;
      f := frameIndex;
    }

    /** Rewrites the TLB's copy of an entry, if it has one. */
    method UpdateTlbEntry(e: Pte)
      modifies this`tlb
      ensures tlb == UpdateTlb(old(tlb), e)
    {
      if e.hi in tlb {
        tlb := tlb[e.hi := e.lo];
      }
    }

    /** The first entry that is free or holds `hi`; -1 if there is none. */
    method SeekIndex(a: Asid, hi: int) returns (r: int)
      requires Valid()
      ensures r == if Seek(Table(Abs(), a), hi, 0) < MAXPAGES then Seek(Table(Abs(), a), hi, 0) else -1
    {
      var t := pageTables[a - 1];
      for i := 0 to MAXPAGES
        invariant Seek(t, hi, 0) == Seek(t, hi, i)
      {
        if t[i].hi == 0 || t[i].hi == hi {
          return i;
        }
      }
      r := -1;
    }

    /** A frame is chosen; if it is in use its page is unmapped, with interrupts off. */
    method StartFault(a: Asid, hi: int) returns (f: FrameNo, used: bool, elo: int)
      requires Valid()
      modifies this, pageTables
      ensures Abs() == Start(old(Abs()), a, hi)
      ensures used == Abs().phase.Evicting? && f == Abs().phase.f && (used ==> elo == Abs().phase.elo)
    {
      f := FrameIndex();
      used, elo := swapPoolTable[f].asid != NOPROC, 0;
      phase := Loading(a, hi, f);
      if used {
        elo := Unmap(swapPoolTable[f].owner, swapPoolTable[f].slot);
        phase := Evicting(a, hi, f, elo);
      }
    }

    /** Clears an entry in the page table and the TLB, and returns what it was. */
    method Unmap(owner: Asid, slot: PteNo) returns (elo: int)
      requires Valid()
      modifies this`tlb, pageTables
      ensures var t := old(pageTables[owner - 1]);
        && elo == t[slot].lo
        && pageTables[..] == old(pageTables[..])[owner - 1 := t[slot := Pte(t[slot].hi, 0)]]
        && tlb == UpdateTlb(old(tlb), Pte(t[slot].hi, 0))
    {
      var e := pageTables[owner - 1][slot];
      elo := e.lo;
      pageTables[owner - 1] := pageTables[owner - 1][slot := Pte(e.hi, 0)];
      UpdateTlbEntry(Pte(e.hi, 0));
    }

    method WriteVictim(f: FrameNo, elo: int)
      requires Valid() && phase.Evicting? && phase.f == f && phase.elo == elo
      modifies this`flash, this`phase
      ensures Abs() == WriteBack(old(Abs()))
    {
      if DirtyBit(elo) {
        flash := flash[(swapPoolTable[f].asid, swapPoolTable[f].page) := ram[f]];
      }
      phase := Loading(phase.asid, phase.hi, f);
    }

    /** Reads the page into the frame and enters it into the swap pool; -1 if the page table is full. */
    method LoadFrame(a: Asid, hi: int, f: FrameNo) returns (slot: int)
      requires Valid() && phase == Loading(a, hi, f)
      modifies this`phase, swapPoolTable, ram, textPages
      ensures Abs() == Load(old(Abs()))
      ensures slot == if Abs().phase.Loaded? then Abs().phase.slot else -1
    {
      ghost var v := Abs();
      var page := PageOf(hi);
      slot := SeekIndex(a, excState[a - 1]);
      ram[f] := if (a, page) in flash then flash[(a, page)] else [];
      if page == 0 && textPages[a - 1] == MINUS_ONE {
        textPages[a - 1] := TextPages(ram[f]);
      }
      if slot == -1 {
        phase := Idle;
      } else {
        swapPoolTable[f] := Frame(a, page, a, slot);
        phase := Loaded(a, hi, f, slot);
      }
    }

    /** Maps the page, with interrupts off. */
    method MapFrame(a: Asid, hi: int, f: FrameNo, slot: PteNo)
      requires Valid() && phase == Loaded(a, hi, f, slot)
      modifies this`tlb, this`phase, pageTables
      ensures Abs() == Install(old(Abs()))
    {
      var e := Pte(excState[a - 1], LoFor(f, textPages[a - 1] <= PageOf(hi)));
      pageTables[a - 1] := pageTables[a - 1][slot := e];
      UpdateTlbEntry(e);
      phase := Idle;
    }

    /** tlb_handler between P and V, undisturbed. The page fault ends in a trap if the page table is full. */
    method TlbHandler(a: Asid) returns (trapped: bool)
      requires Valid()
      modifies this, swapPoolTable, pageTables, ram, textPages
      ensures var v := old(Abs());
        && Abs() == Handle(v, a, SavedHi(v, a))
        && (trapped <==> Seek(Table(v, a), SavedHi(v, a), 0) == MAXPAGES)
    {
      var hi := excState[a - 1];
      assert Raise(Abs(), a, hi) == Abs();
      SameSeek(Abs(), a, hi);
      var f, used, elo := StartFault(a, hi);
      if used {
        WriteVictim(f, elo);
      }
      var slot := LoadFrame(a, hi, f);
      if slot == -1 {
        return true;
      }
      MapFrame(a, hi, f, slot);
      trapped := false;
    }

    /** uTLB_RefillHandler */
    method RefillHandler(a: Asid, hi: int, evicted: set<int>)
      requires Valid()
      modifies this`tlb
      ensures Abs() == Refill(old(Abs()), a, hi, evicted)
    {
      var t := pageTables[a - 1];
      var i := 0;
      while i < MAXPAGES && t[i].hi != hi
        invariant 0 <= i <= MAXPAGES && Lookup(t, hi, 0) == Lookup(t, hi, i)
      {
        i := i + 1;
      }
      var elo := if i == MAXPAGES then 0 else t[i].lo;
      tlb := (tlb - evicted)[hi := elo];
    }

    method MarkFreePages(a: Asid)
      requires Valid()
      modifies swapPoolTable
      ensures Abs() == MarkFree(old(Abs()), a)
    {
      ghost var p: Pool := swapPoolTable[..];
      for i := 0 to POOLSIZE
        invariant forall k: FrameNo ::
          swapPoolTable[k] == if k < i && p[k].asid == a then p[k].(asid := NOPROC) else p[k]
      {
        if swapPoolTable[i].asid == a {
          swapPoolTable[i] := swapPoolTable[i].(asid := NOPROC);
        }
      }
      assert swapPoolTable[..] == Freed(p, a);
    }
  }
}
