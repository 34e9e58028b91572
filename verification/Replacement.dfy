/** Frames are replaced first in, first out, as long as no process exits. */
module Replacement {
  import opened Paging
  import opened PagingInv
  import opened PagingRuns

  /** No process exits along the run, and every fault finds a page-table entry. */
  ghost predicate Steady(m: Machine, es: seq<VmEvent>)
    requires Ok(m) && LegalRun(m, es)
    decreases |es|
  {
    es != [] ==>
      && Keeps(m, es[0])
      && (StepOk(m, es[0]); Steady(Step(m, es[0]), es[1..]))
  }

  predicate Keeps(m: Machine, e: VmEvent) {
    !e.Exit? && (e.LoadPage? && m.vm.phase.Loading? ==> Load(m.vm).phase.Loaded?)
  }

  /** The frames given to the faults of the run, in order. */
  ghost function Chosen(m: Machine, es: seq<VmEvent>): seq<FrameNo>
    requires Ok(m) && LegalRun(m, es)
    decreases |es|
  {
    if es == [] then []
    else
      StepOk(m, es[0]);
      (if es[0].Fault? then [GetFrameIndex(m.vm).0] else []) + Chosen(Step(m, es[0]), es[1..])
  }

  /** The frame was chosen but is not yet in the pool. */
  predicate Fetching(v: Vm) {
    v.phase.Evicting? || v.phase.Loading?
  }

  /** The pager after `n` faults from empty: the pool is filled from 0 up, then used in rotation. */
  predicate Rotated(v: Vm, n: nat) {
    && (Fetching(v) ==> n > 0 && v.phase.f == (n - 1) % POOLSIZE)
    && (forall k: FrameNo :: v.pool[k].asid == NOPROC <==> k >= if Fetching(v) then n - 1 else n)
    && v.frameIndex == if n <= POOLSIZE then MINUS_ONE else (n - POOLSIZE - 1) % POOLSIZE
  }

  lemma TurnOn(m: nat)
    ensures (m % POOLSIZE + 1) % TWO32 % POOLSIZE == (m + 1) % POOLSIZE == (m + 1 + POOLSIZE) % POOLSIZE
  {
  }

  lemma NextInTurn(v: Vm, n: nat)
    requires Rotated(v, n) && !Fetching(v)
    ensures GetFrameIndex(v).0 == n % POOLSIZE
    ensures GetFrameIndex(v).1 == if n + 1 <= POOLSIZE then MINUS_ONE else (n + 1 - POOLSIZE - 1) % POOLSIZE
  {
    var i := FirstFree(v.pool, 0);
    if n < POOLSIZE {
      assert v.pool[n].asid == NOPROC;
      assert i == n;
    } else {
      assert i == POOLSIZE;
      if n > POOLSIZE {
        TurnOn(n - POOLSIZE - 1);
      }
    }
  }

  lemma FaultRotates(v: Vm, a: Asid, hi: int, n: nat)
    requires Rotated(v, n) && v.phase.Idle?
    ensures Rotated(Start(v, a, hi), n + 1) && GetFrameIndex(v).0 == n % POOLSIZE
  {
    NextInTurn(v, n);
    assert Start(v, a, hi).pool == v.pool;
  }

  lemma LoadRotates(v: Vm, n: nat)
    requires Rotated(v, n) && v.phase.Loading? && Load(v).phase.Loaded?
    ensures Rotated(Load(v), n)
  {
    var w := Load(v);
    assert w.pool == v.pool[v.phase.f := w.pool[v.phase.f]] && w.pool[v.phase.f].asid == v.phase.asid;
  }

  /** What neither chooses a frame nor enters one into the pool does not disturb the rotation. */
  lemma OthersRotate(v: Vm, w: Vm, n: nat)
    requires Rotated(v, n) && w.pool == v.pool && w.frameIndex == v.frameIndex
    requires Fetching(v) == Fetching(w) && (Fetching(v) ==> w.phase.f == v.phase.f)
    ensures Rotated(w, n)
  {
  }

  /** Accesses, refills and the other steps of a handler do not disturb the rotation. */
  lemma StepRotates(m: Machine, e: VmEvent, n: nat)
    requires Ok(m) && Allowed(m, e) && Keeps(m, e) && Rotated(m.vm, n)
    ensures Rotated(Step(m, e).vm, if e.Fault? then n + 1 else n)
    ensures e.Fault? ==> GetFrameIndex(m.vm).0 == n % POOLSIZE
  {
    if e.Fault? {
      FaultRotates(m.vm, e.a, e.hi, n);
    } else if e.LoadPage? {
      LoadRotates(m.vm, n);
    } else {
      OthersRotate(m.vm, Step(m, e).vm, n);
    }
  }

  lemma InRotation(first: seq<FrameNo>, rest: seq<FrameNo>, n: nat)
    requires first == [] || first == [n % POOLSIZE]
    requires forall k | 0 <= k < |rest| :: rest[k] == (n + |first| + k) % POOLSIZE
    ensures forall k | 0 <= k < |first + rest| :: (first + rest)[k] == (n + k) % POOLSIZE
  {
  }

  /** The `k`-th fault takes frame k mod 16. */
  lemma {:induction false} RunRotates(m: Machine, es: seq<VmEvent>, n: nat)
    requires Ok(m) && LegalRun(m, es) && Steady(m, es) && Rotated(m.vm, n)
    ensures Rotated(Exec(m, es).vm, n + |Chosen(m, es)|)
    ensures forall k | 0 <= k < |Chosen(m, es)| :: Chosen(m, es)[k] == (n + k) % POOLSIZE
    decreases |es|
  {
    if es != [] {
      var m1, first := StepChosen(m, es[0], n);
      RunRotates(m1, es[1..], n + |first|);
      InRotation(first, Chosen(m1, es[1..]), n);
    }
  }

  /** The state after a step, and the frame that it chooses, if any. */
  lemma StepChosen(m: Machine, e: VmEvent, n: nat) returns (r: Machine, first: seq<FrameNo>)
    requires Ok(m) && Allowed(m, e) && Keeps(m, e) && Rotated(m.vm, n)
    ensures r == Step(m, e) && Ok(r) && Rotated(r.vm, n + |first|)
    ensures first == (if e.Fault? then [GetFrameIndex(m.vm).0] else []) && (first == [] || first == [n % POOLSIZE])
  {
    StepOk(m, e);
    StepRotates(m, e, n);
    r, first := Step(m, e), if e.Fault? then [GetFrameIndex(m.vm).0] else [];
  }

  /** Which fault before the `n`-th took frame `f` last; -1 if none did. */
  function LastLoad(chosen: seq<FrameNo>, n: nat, f: FrameNo): (t: int)
    requires n <= |chosen|
    ensures -1 <= t < n && (t >= 0 ==> chosen[t] == f)
    ensures forall k | t < k < n :: chosen[k] != f
  {
    if n == 0 then -1 else if chosen[n - 1] == f then n - 1 else LastLoad(chosen, n - 1, f)
  }

  /** Over every run from the start without exits and traps, whatever accesses and refills come between: the frame that
      fault `n` takes is the one that was loaded longest ago (or never), and sixteen faults in a row take sixteen
      different frames. */
  lemma FirstInFirstOut(flash: map<(int, int), Page>, ram: Ram, live: set<Asid>, es: seq<VmEvent>, n: nat)
    requires var m := Begin(flash, ram, live); LegalRun(m, es) && Steady(m, es) && n < |Chosen(m, es)|
    ensures var chosen := Chosen(Begin(flash, ram, live), es);
      && (forall f: FrameNo | f != chosen[n] ::
            LastLoad(chosen, n, chosen[n]) < LastLoad(chosen, n, f) || LastLoad(chosen, n, chosen[n]) == -1)
      && (forall i, j | n <= i < j < n + POOLSIZE && j < |chosen| :: chosen[i] != chosen[j])
  {
    var m := Begin(flash, ram, live);
    RunRotates(m, es, 0);
    OldestFirst(Chosen(m, es), n);
  }

  lemma OldestFirst(chosen: seq<FrameNo>, n: nat)
    requires n < |chosen| && forall k | 0 <= k < |chosen| :: chosen[k] == k % POOLSIZE
    ensures forall f: FrameNo | f != chosen[n] ::
      LastLoad(chosen, n, chosen[n]) < LastLoad(chosen, n, f) || LastLoad(chosen, n, chosen[n]) == -1
    ensures forall i, j | n <= i < j < n + POOLSIZE && j < |chosen| :: chosen[i] != chosen[j]
  {
    if n >= POOLSIZE {
      forall f: FrameNo | f != chosen[n] ensures LastLoad(chosen, n, chosen[n]) < LastLoad(chosen, n, f) {
        RotationOrder(chosen, n, f);
      }
    } else {
      assert forall k | 0 <= k < n :: chosen[k] == k;
    }
    forall i, j | n <= i < j < n + POOLSIZE && j < |chosen| ensures chosen[i] != chosen[j] {
      DistinctInWindow(i, j);
    }
  }

  lemma DistinctInWindow(i: nat, j: nat)
    requires i < j < i + POOLSIZE
    ensures i % POOLSIZE != j % POOLSIZE
  {
  }

  lemma RotationOrder(chosen: seq<FrameNo>, n: nat, f: FrameNo)
    requires POOLSIZE <= n < |chosen| && f != chosen[n] && forall k | 0 <= k < |chosen| :: chosen[k] == k % POOLSIZE
    ensures LastLoad(chosen, n, chosen[n]) == n - POOLSIZE < LastLoad(chosen, n, f)
  {
    var q, r := n / POOLSIZE, n % POOLSIZE;
    var t := if f < r then POOLSIZE * q + f else POOLSIZE * (q - 1) + f;
    assert n == POOLSIZE * q + r && q >= 1;
    Residue(q - 1, r);
    Residue(q, f);
    Residue(q - 1, f);
    assert chosen[n] == r && chosen[t] == f && chosen[n - POOLSIZE] == r;
    assert n - POOLSIZE < t < n;
    var last := LastLoad(chosen, n, r);
    assert last >= n - POOLSIZE;
    if last > n - POOLSIZE {
      DistinctInWindow(last, n);
    }
  }

  lemma Residue(q: nat, r: FrameNo)
    ensures (POOLSIZE * q + r) % POOLSIZE == r
  {
  }
}
