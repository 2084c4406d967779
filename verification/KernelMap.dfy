/** kernel/mem/virtual.c: the kernel page table of 0x400 entries, an entry of 0
    being free. Entries stand for the virtual pages they map. */
module KernelMap {
  import opened Frames

  const ENTRIES: nat := 0x400

  function Word32(x: nat): nat { x % 0x1_0000_0000 }

  ghost function Unused(t: seq<nat>): set<nat> { set i: nat | i < |t| && t[i] == 0 }

  /** Entry i + j becomes values[j]; the others stay. */
  function Mapped(t: seq<nat>, i: nat, values: seq<nat>): seq<nat>
    requires i + |values| <= |t|
  {
    t[..i] + values + t[i + |values|..]
  }

  /** The frames that follow one another from the first. */
  function Consecutive(frame: nat, count: nat): (r: seq<nat>)
    ensures |r| == count && forall j: nat :: j < count ==> r[j] == Word32(frame + j * 0x1000)
  {
    seq(count, j requires 0 <= j => Word32(frame + j * 0x1000))
  }

  class PageTable {
    const entries: array<nat>

    ghost predicate Valid()
      reads this
    { entries.Length == ENTRIES }

    ghost function Spare(): set<nat>
      reads this, entries
    { Unused(entries[..]) }

    constructor (entries: array<nat>)
      requires entries.Length == ENTRIES
      ensures Valid() && this.entries == entries
    {
      this.entries := entries;
    }

    /** map_virtual_page: the entry used, or -1. */
    method MapPage(frame: nat) returns (r: int)
      requires Valid()
      modifies entries
      ensures -1 <= r < ENTRIES
      ensures r == -1 ==> NoWindow(old(Spare()), ENTRIES, 1) && entries[..] == old(entries[..])
      ensures r >= 0 ==> Lowest(old(Spare()), ENTRIES, 1, r) && entries[..] == old(entries[..])[r := frame]
    {
      var i := 0;
      while i < ENTRIES
        invariant i <= ENTRIES && NoneBelow(old(Spare()), 1, i)
        invariant entries[..] == old(entries[..])
      {
        if entries[i] == 0 {
          entries[i] := frame;
          return i;
        }
        Skip(old(Spare()), 1, i, 0);
        i := i + 1;
      }
      return -1;
    }

    /** unmap_virtual_page */
    method Unmap(i: nat)
      requires Valid() && i < ENTRIES
      modifies entries
      ensures entries[..] == old(entries[..])[i := 0]
    {
      entries[i] := 0;
    }

    method FirstUsed(i: nat, count: nat) returns (j: nat, off: bool)
      requires Valid() && i <= ENTRIES
      ensures j <= count && Window(Spare(), i, j) && i + j <= ENTRIES
      ensures off ==> i + j == ENTRIES && j < count
      ensures !off && j < count ==> i + j < ENTRIES && i + j !in Spare()
    {
      j := 0;
      while j < count
        invariant j <= count && Window(Spare(), i, j) && i + j <= ENTRIES
      {
        if i + j == ENTRIES { return j, true; }
        if entries[i + j] != 0 { return j, false; }
        j := j + 1;
      }
      off := false;
    }

    method Fill(i: nat, values: seq<nat>)
      requires Valid() && i + |values| <= ENTRIES
      modifies entries
      ensures entries[..] == Mapped(old(entries[..]), i, values)
    {
      var j := 0;
      while j < |values|
        invariant j <= |values| && entries[..] == Mapped(old(entries[..]), i, values[..j])
      {
        entries[i + j] := values[j];
        j := j + 1;
      }
      assert values[..|values|] == values;
    }

    /** map_virtual_pages: the first entry of the window, or -1; off tells that
        the search would have read behind the table, where it stops here. */
    method MapPages(frames: seq<nat>) returns (r: int, off: bool)
      requires Valid() && |frames| < 0x1_0000_0000
      modifies entries
      ensures |frames| == 0 ==> r == -1 && !off && entries[..] == old(entries[..])
      ensures |frames| > 0 ==> Searched(old(Spare()), ENTRIES, |frames|, Bound(ENTRIES, |frames|), r, off)
      ensures r >= 0 ==> r + |frames| <= ENTRIES && entries[..] == Mapped(old(entries[..]), r, frames)
      ensures r < 0 ==> r == -1 && entries[..] == old(entries[..])
      ensures 0 < |frames| <= ENTRIES + 1 ==> !off && if r >= 0 then Lowest(old(Spare()), ENTRIES, |frames|, r)
                                                                 else NoWindow(old(Spare()), ENTRIES, |frames|)
    {
      var count := |frames|;
      if count == 0 { return -1, false; }
      ghost var f := Spare();
      assert forall x :: x in f ==> x < ENTRIES;
      if count <= ENTRIES + 1 { SearchAlways(f, ENTRIES, ENTRIES, count); }
      hide Unused, Mapped, Searched;
      var i := 0;
      while i < Bound(ENTRIES, count)
        invariant i <= ENTRIES && NoneBelow(f, count, i) && StaysIn(f, ENTRIES, count, i)
        invariant entries[..] == old(entries[..])
        decreases ENTRIES - i
      {
        var j;
        j, off := FirstUsed(i, count);
        if off {
          SearchedOff(f, ENTRIES, count, Bound(ENTRIES, count), i);
          return -1, true;
        }
        if j == count {
          SearchedFound(f, ENTRIES, count, Bound(ENTRIES, count), i);
          Fill(i, frames);
          return i, false;
        }
        Skip(f, count, i, j);
        SkipInside(f, ENTRIES, count, i, j);
        i := i + j + 1;
      }
      SearchedNone(f, ENTRIES, count, Bound(ENTRIES, count), i);
      return -1, false;
    }

    /** map_contiguous_virtual_pages */
    method MapContiguous(frame: nat, count: nat) returns (r: int, off: bool)
      requires Valid() && count < 0x1_0000_0000
      modifies entries
      ensures count == 0 ==> r == -1 && !off && entries[..] == old(entries[..])
      ensures count > 0 ==> Searched(old(Spare()), ENTRIES, count, Bound(ENTRIES, count), r, off)
      ensures r >= 0 ==> r + count <= ENTRIES && entries[..] == Mapped(old(entries[..]), r, Consecutive(frame, count))
      ensures r < 0 ==> r == -1 && entries[..] == old(entries[..])
      ensures 0 < count <= ENTRIES + 1 ==> !off && if r >= 0 then Lowest(old(Spare()), ENTRIES, count, r)
                                                            else NoWindow(old(Spare()), ENTRIES, count)
    {
      r, off := MapPages(Consecutive(frame, count));
    }
  }
}
