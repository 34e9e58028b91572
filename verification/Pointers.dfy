/** isPcbValid's pointer test, which lets `Kernel` speak of table entries instead of addresses. */
module Pointers {
  import opened Kernel

  /** The three comparisons of isPcbValid, for a table at `base` with entries of `size` bytes. */
  predicate InTable(p: int, base: nat, size: nat)
    requires size > 0
  {
    !(p < base || p > base + (MAXPROC - 1) * size || (p - base) % size != 0)
  }

  /** The test accepts exactly the start addresses of the table's entries. */
  lemma InTableExact(p: int, base: nat, size: nat)
    requires size > 0
    ensures InTable(p, base, size) <==> exists i: Slot :: p == base + i * size
  {
    if InTable(p, base, size) {
      var i := (p - base) / size;
      assert p - base == i * size;
      if i >= MAXPROC {
        MulGrows(MAXPROC, i, size);
        assert false;
      }
      if i < 0 {
        MulGrows(i, -1, size);
        assert false;
      }
      var k: Slot := i;
      assert p == base + k * size;
    }
    if i: Slot :| p == base + i * size {
      MulGrows(0, i, size);
      MulGrows(i, MAXPROC - 1, size);
      ModOfMultiple(i, size);
    }
  }

  lemma MulGrows(a: int, b: int, size: nat)
    requires a <= b
    ensures a * size <= b * size
  {
  }

  lemma ModOfMultiple(i: nat, size: nat)
    requires size > 0
    ensures (i * size) % size == 0
  {
    var x := i * size;
    var q := x / size;
    assert x == q * size + x % size && 0 <= x % size < size;
    assert (i - q) * size == i * size - q * size;
    if i - q >= 1 {
      MulGrows(1, i - q, size);
      assert false;
    }
    if i - q <= -1 {
      MulGrows(i - q, -1, size);
      assert false;
    }
  }
}
