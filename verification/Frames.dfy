/** First-fit windows of physical frames and of kernel page-table entries
    (kernel/mem/physical.c, kernel/mem/virtual.c, the bitmap macros of
    kernel/include/kernel.h). */
module Frames {

  // ----- windows of free numbers

  ghost predicate Window(f: set<nat>, i: nat, count: nat) { forall j: nat :: i <= j < i + count ==> j in f }

  /** f' is f without the count numbers from i; or with them. */
  ghost predicate Taken(f: set<nat>, f': set<nat>, i: nat, count: nat) {
    forall n: nat :: n in f' <==> n in f && !(i <= n < i + count)
  }

  ghost predicate Returned(f: set<nat>, f': set<nat>, i: nat, count: nat) {
    forall n: nat :: n in f' <==> n in f || i <= n < i + count
  }

  /** Returning a window that was taken restores the set. */
  lemma TakeReturn(f: set<nat>, g: set<nat>, h: set<nat>, i: nat, count: nat)
    requires Window(f, i, count) && Taken(f, g, i, count) && Returned(g, h, i, count)
    ensures h == f
  {
  }

  /** The lowest window of count free numbers below limit starts at i. */
  ghost predicate Lowest(f: set<nat>, limit: nat, count: nat, i: nat) {
    i + count <= limit && Window(f, i, count) && NoneBelow(f, count, i)
  }

  ghost predicate NoneBelow(f: set<nat>, count: nat, i: nat) { forall k: nat :: k < i ==> !Window(f, k, count) }

  ghost predicate NoWindow(f: set<nat>, limit: nat, count: nat) {
    forall k: nat :: k + count <= limit ==> !Window(f, k, count)
  }

  /** A number in use at i + j rules out every window that starts from i up to
      it, so the search may go on just after it. */
  lemma Skip(f: set<nat>, count: nat, i: nat, j: nat)
    requires NoneBelow(f, count, i) && j < count && i + j !in f
    ensures NoneBelow(f, count, i + j + 1)
  {
    forall k: nat | k < i + j + 1
      ensures !Window(f, k, count)
    {
      if k >= i {
        assert k <= i + j < k + count;
      }
    }
  }

  /** The loop bound limit - count + 1 in 32-bit unsigned arithmetic. */
  function Bound(limit: nat, count: nat): nat
    requires limit < 0x1_0000_0000 && count < 0x1_0000_0000
  {
    (limit - count + 1) % 0x1_0000_0000
  }

  /** The bound is one past the last place a window fits iff count is at most
      limit + 1; beyond that it wraps. */
  lemma BoundExact(limit: nat, count: nat)
    requires limit < 0xffff_ffff && count < 0x1_0000_0000
    ensures Bound(limit, count) == (if count <= limit then limit - count + 1 else 0) <==> count <= limit + 1
  {
  }

  /** From i to the end of a table of n numbers all are free, and count of them
      would not fit: a scan of the window at i reads on behind the table. */
  ghost predicate RunsOff(f: set<nat>, n: nat, count: nat, i: nat) {
    i <= n < i + count && Window(f, i, n - i)
  }

  ghost predicate StaysIn(f: set<nat>, n: nat, count: nat, i: nat) { forall k: nat :: k < i ==> !RunsOff(f, n, count,
                          k) }

  /** The same number in use keeps a scan from there inside the table. */
  lemma SkipInside(f: set<nat>, n: nat, count: nat, i: nat, j: nat)
    requires StaysIn(f, n, count, i) && i + j < n && i + j !in f
    ensures StaysIn(f, n, count, i + j + 1)
  {
    forall k: nat | k < i + j + 1
      ensures !RunsOff(f, n, count, k)
    {
      if k >= i && k <= n {
        assert k <= i + j < k + (n - k);
      }
    }
  }

  /** What a search for count free numbers in a table of n comes to, when it
      starts at every place below bound: the lowest window, none, or a read
      behind the table. */
  ghost predicate Searched(f: set<nat>, n: nat, count: nat, bound: nat, r: int, off: bool) {
    && (off <==> NoneBelow(f, count, bound) && !StaysIn(f, n, count, bound))
    && (r < 0 ==> r == -1 && NoneBelow(f, count, bound))
    && (r >= 0 ==> r < bound && r + count <= n && Window(f, r, count) && NoneBelow(f, count, r))
  }

  lemma SearchedOff(f: set<nat>, n: nat, count: nat, bound: nat, i: nat)
    requires NoneBelow(f, count, i) && i < bound && RunsOff(f, n, count, i) && forall x :: x in f ==> x < n
    ensures Searched(f, n, count, bound, -1, true)
  {
    forall k: nat | k < bound
      ensures !Window(f, k, count)
    {
      if k >= i {
        var last: nat := k + count - 1;
        assert k <= last < k + count && last !in f;
      }
    }
  }

  lemma SearchedNone(f: set<nat>, n: nat, count: nat, bound: nat, i: nat)
    requires NoneBelow(f, count, i) && StaysIn(f, n, count, i) && i >= bound
    ensures Searched(f, n, count, bound, -1, false)
  {
  }

  lemma SearchedFound(f: set<nat>, n: nat, count: nat, bound: nat, i: nat)
    requires NoneBelow(f, count, i) && i < bound && i + count <= n && Window(f, i, count)
    ensures Searched(f, n, count, bound, i, false)
  {
  }

  /** With the bound that was meant, the search finds the lowest window below
      limit or there is none, and it stays in the table. */
  lemma SearchExact(f: set<nat>, n: nat, limit: nat, count: nat, r: int, off: bool)
    requires limit < 0xffff_ffff && count <= limit + 1 && limit <= n
    requires Searched(f, n, count, Bound(limit, count), r, off)
    ensures !off && (r >= 0 ==> Lowest(f, limit, count, r)) && (r < 0 ==> NoWindow(f, limit, count))
  {
    BoundExact(limit, count);
    forall k: nat | k < Bound(limit, count)
      ensures !RunsOff(f, n, count, k)
    {
    }
  }

  /** Asking an all-free table for more than it has always leads behind it. */
  lemma OversizedRunsOff(f: set<nat>, n: nat, limit: nat, count: nat, r: int, off: bool)
    requires limit < 0xffff_ffff && limit <= n && limit + 1 < count < 0x1_0000_0000 && n < count
    requires (forall x: nat :: x in f <==> x < n) && Searched(f, n, count, Bound(limit, count), r, off)
    ensures off && r == -1
  {
    assert RunsOff(f, n, count, 0);
    forall k: nat ensures !Window(f, k, count) {
      var last: nat := k + count - 1;
      assert k <= last < k + count && last !in f;
    }
  }

  // ----- words of 32 bits as sets

  function Mask(k: nat): bv32
    requires k < 32
  { 1 << k }

  function And(w: bv32, m: bv32): bv32 { w & m }

  function With(w: bv32, m: bv32): bv32 { w | m }

  function Without(w: bv32, m: bv32): bv32 { w & !m }

  predicate Bit(w: bv32, k: nat)
    requires k < 32
  { And(w, Mask(k)) != 0 }

  lemma MaskApart(j: nat, k: nat)
    requires j < 32 && k < 32
    ensures And(Mask(j), Mask(k)) == if j == k then Mask(j) else 0
    ensures Mask(j) != 0
  {
  }

  lemma SetMask(w: bv32, m: bv32, n: bv32)
    ensures And(With(w, m), m) == m && (And(m, n) == 0 ==> And(With(w, m), n) == And(w, n))
  {
  }

  lemma ClearMask(w: bv32, m: bv32, n: bv32)
    ensures And(Without(w, m), m) == 0 && (And(m, n) == 0 ==> And(Without(w, m), n) == And(w, n))
  {
  }

  lemma SetBit(w: bv32, j: nat, k: nat)
    requires j < 32 && k < 32
    ensures Bit(With(w, Mask(j)), k) <==> j == k || Bit(w, k)
  {
    hide Mask, And, With;
    MaskApart(j, k);
    SetMask(w, Mask(j), Mask(k));
  }

  lemma ClearBit(w: bv32, j: nat, k: nat)
    requires j < 32 && k < 32
    ensures Bit(Without(w, Mask(j)), k) <==> j != k && Bit(w, k)
  {
    hide Mask, And, Without;
    MaskApart(j, k);
    ClearMask(w, Mask(j), Mask(k));
  }

  // ----- the frame bitmap

  /** BITMAP_TST: a set bit is a free frame. */
  predicate Free(t: seq<bv32>, n: nat) { n / 32 < |t| && Bit(t[n / 32], n % 32) }

  ghost function FreeSet(t: seq<bv32>): set<nat> { set n: nat | n < 32 * |t| && Free(t, n) }

  function Marked(t: seq<bv32>, n: nat): seq<bv32>
    requires n < 32 * |t|
  { t[n / 32 := With(t[n / 32], Mask(n % 32))] }

  function Unmarked(t: seq<bv32>, n: nat): seq<bv32>
    requires n < 32 * |t|
  { t[n / 32 := Without(t[n / 32], Mask(n % 32))] }

  lemma MarkedSet(t: seq<bv32>, n: nat)
    requires n < 32 * |t|
    ensures Returned(FreeSet(t), FreeSet(Marked(t, n)), n, 1)
  {
    hide With, Mask, Bit;
    forall m: nat | m < 32 * |t|
      ensures Free(Marked(t, n), m) <==> Free(t, m) || m == n
    {
      SetBit(t[n / 32], n % 32, m % 32);
      assert m / 32 == n / 32 && m % 32 == n % 32 ==> m == n;
    }
  }

  lemma UnmarkedSet(t: seq<bv32>, n: nat)
    requires n < 32 * |t|
    ensures Taken(FreeSet(t), FreeSet(Unmarked(t, n)), n, 1)
  {
    hide Without, Mask, Bit;
    forall m: nat | m < 32 * |t|
      ensures Free(Unmarked(t, n), m) <==> Free(t, m) && m != n
    {
      ClearBit(t[n / 32], n % 32, m % 32);
      assert m / 32 == n / 32 && m % 32 == n % 32 ==> m == n;
    }
  }

  class PhysicalMemory {
    const mmTable: array<bv32>
    const limit: nat

    ghost function Frees(): set<nat>
      reads this, mmTable
    { FreeSet(mmTable[..]) }

    ghost predicate Valid()
      reads this
    { limit <= 32 * mmTable.Length && limit < 0xffff_ffff }

    constructor (mmTable: array<bv32>, limit: nat)
      requires limit <= 32 * mmTable.Length && limit < 0xffff_ffff
      ensures Valid() && this.mmTable == mmTable && this.limit == limit
    {
      this.mmTable, this.limit := mmTable, limit;
    }

    method Test(n: nat) returns (b: bool)
      requires n < 32 * mmTable.Length
      ensures b <==> n in Frees()
    {
      b := And(mmTable[n / 32], Mask(n % 32)) != 0;
    }

    method Set(n: nat)
      requires n < 32 * mmTable.Length
      modifies mmTable
      ensures Returned(old(Frees()), Frees(), n, 1)
    {
      MarkedSet(mmTable[..], n);
      hide FreeSet, With, Mask;
      ghost var t := mmTable[..];
      mmTable[n / 32] := With(mmTable[n / 32], Mask(n % 32));
      assert mmTable[..] == Marked(t, n);
    }

    method Clear(n: nat)
      requires n < 32 * mmTable.Length
      modifies mmTable
      ensures Taken(old(Frees()), Frees(), n, 1)
    {
      UnmarkedSet(mmTable[..], n);
      hide FreeSet, Without, Mask;
      ghost var t := mmTable[..];
      mmTable[n / 32] := Without(mmTable[n / 32], Mask(n % 32));
      assert mmTable[..] == Unmarked(t, n);
    }

    /** alloc_phys_frame: the frame number, or -1. */
    method AllocFrame() returns (r: int)
      requires Valid()
      modifies mmTable
      ensures r == -1 || 0 <= r
      ensures r == -1 ==> NoWindow(old(Frees()), limit, 1) && Frees() == old(Frees())
      ensures r >= 0 ==> Lowest(old(Frees()), limit, 1, r) && Taken(old(Frees()), Frees(), r, 1)
    {
      hide FreeSet;
      var i := 0;
      while i < limit
        invariant i <= limit && NoneBelow(old(Frees()), 1, i)
        invariant Frees() == old(Frees())
      {
        var b := Test(i);
        if b {
          Clear(i);
          return i;
        }
        Skip(old(Frees()), 1, i, 0);
        i := i + 1;
      }
      return -1;
    }

    /** alloc_phys_frames: the first frame number of the window, or -1; off tells
        that the search would have read behind the table, where it stops here. */
    method AllocFrames(count: nat) returns (r: int, off: bool)
      requires Valid() && count < 0x1_0000_0000
      modifies mmTable
      ensures Searched(old(Frees()), 32 * mmTable.Length, count, Bound(limit, count), r, off)
      ensures r >= 0 ==> Taken(old(Frees()), Frees(), r, count)
      ensures r < 0 ==> Frees() == old(Frees())
      ensures count <= limit + 1 ==> !off && if r >= 0 then Lowest(old(Frees()), limit, count, r)
                                                      else NoWindow(old(Frees()), limit, count)
    {
      FreesInTable();
      hide FreeSet, Searched;
      ghost var f, n := Frees(), 32 * mmTable.Length;
      if count <= limit + 1 { SearchAlways(f, n, limit, count); }
      var i := 0;
      while i < Bound(limit, count)
        invariant i <= n && NoneBelow(f, count, i) && StaysIn(f, n, count, i) && Frees() == f
        decreases n - i
      {
        var j;
        j, off := FirstUsed(i, count);
        if off {
          SearchedOff(f, n, count, Bound(limit, count), i);
          return -1, true;
        }
        if j == count {
          SearchedFound(f, n, count, Bound(limit, count), i);
          ClearWindow(i, count);
          return i, false;
        }
        Skip(f, count, i, j);
        SkipInside(f, n, count, i, j);
        i := i + j + 1;
      }
      SearchedNone(f, n, count, Bound(limit, count), i);
      return -1, false;
    }

    lemma FreesInTable()
      ensures forall x :: x in Frees() ==> x < 32 * mmTable.Length
    {
    }

    /** The scan of one window: the offset of its first used frame. */
    method FirstUsed(i: nat, count: nat) returns (j: nat, off: bool)
      requires Valid() && i <= 32 * mmTable.Length
      ensures j <= count && Window(Frees(), i, j) && i + j <= 32 * mmTable.Length
      ensures off ==> i + j == 32 * mmTable.Length && j < count
      ensures !off && j < count ==> i + j < 32 * mmTable.Length && i + j !in Frees()
    {
      hide FreeSet;
      j := 0;
      while j < count
        invariant j <= count && Window(Frees(), i, j) && i + j <= 32 * mmTable.Length
      {
        if i + j == 32 * mmTable.Length { return j, true; }
        var b := Test(i + j);
        if !b { return j, false; }
        j := j + 1;
      }
      off := false;
    }

    method ClearWindow(i: nat, count: nat)
      requires i + count <= 32 * mmTable.Length
      modifies mmTable
      ensures Taken(old(Frees()), Frees(), i, count)
    {
      hide FreeSet;
      var j := 0;
      while j < count
        invariant j <= count && Taken(old(Frees()), Frees(), i, j)
      {
        Clear(i + j);
        j := j + 1;
      }
    }

    /** free_phys_frames */
    method FreeFrames(frame: nat, count: nat)
      requires frame + count <= 32 * mmTable.Length
      modifies mmTable
      ensures Returned(old(Frees()), Frees(), frame, count)
    {
      hide FreeSet;
      var j := 0;
      while j < count
        invariant j <= count && Returned(old(Frees()), Frees(), frame, j)
      {
        Set(frame + j);
        j := j + 1;
      }
    }
  }

  lemma SearchAlways(f: set<nat>, n: nat, limit: nat, count: nat)
    requires limit < 0xffff_ffff && count <= limit + 1 && limit <= n
    ensures forall r: int, off: bool :: Searched(f, n, count, Bound(limit, count), r, off) ==>
              !off && if r >= 0 then Lowest(f, limit, count, r) else NoWindow(f, limit, count)
  {
    forall r: int, off: bool | Searched(f, n, count, Bound(limit, count), r, off)
      ensures !off && if r >= 0 then Lowest(f, limit, count, r) else NoWindow(f, limit, count)
    {
      SearchExact(f, n, limit, count, r, off);
    }
  }
}
