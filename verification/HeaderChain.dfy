/** The free blocks of one size in the power-of-two allocator: a chain of header
    pages, each holding up to MAX_COUNT pointers.  The chain is proved to be one
    stack. */
module HeaderChain {

  const MAX_COUNT: nat := 1022

  /** The pages' contents, in chain order: all but the last are full, and only
      the first may be empty. */
  predicate WellFormed(pages: seq<seq<nat>>) {
    && pages != []
    && (forall h :: 0 <= h < |pages| - 1 ==> |pages[h]| == MAX_COUNT)
    && |pages[|pages| - 1]| <= MAX_COUNT
    && (|pages| > 1 ==> pages[|pages| - 1] != [])
  }

  function Flat(pages: seq<seq<nat>>): seq<nat> {
    if pages == [] then [] else Flat(pages[..|pages| - 1]) + pages[|pages| - 1]
  }

  lemma {:induction false} FlatLast(pages: seq<seq<nat>>, p: seq<nat>)
    ensures Flat(pages + [p]) == Flat(pages) + p
  {
    assert (pages + [p])[..|pages|] == pages;
  }

  class Chain {
    var pages: seq<seq<nat>>

    ghost predicate Valid()
      reads this
    {
      WellFormed(pages)
    }

    ghost function Stack(): seq<nat>
      reads this
    {
      Flat(pages)
    }

    /** One zeroed header page. */
    constructor ()
      ensures Valid() && Stack() == []
    {
      pages := [[]];
      new;
      assert pages[..0] == [];
    }

    /** pow2_add_free_block: chase full pages, make a new one at the end. */
    method Push(ptr: nat)
      requires Valid()
      modifies this
      ensures Valid() && Stack() == old(Stack()) + [ptr]
    {
      var hdr := 0;
      ghost var n := |pages| - 1;
      ghost var front, last := pages[..n], pages[n];
      assert pages == front + [last];
      FlatLast(front, last);
      while |pages[hdr]| >= MAX_COUNT && hdr + 1 < |pages|
        invariant 0 <= hdr <= n
      {
        hdr := hdr + 1;
      }
      assert hdr == n;
      if |pages[hdr]| < MAX_COUNT {
        FlatLast(front, last + [ptr]);
        pages := pages[hdr := pages[hdr] + [ptr]];
        assert pages == front + [last + [ptr]];
      } else {
        FlatLast(pages, [ptr]);
        pages := pages + [[ptr]];
      }
    }

    /** The pop of pow2_get_free_block: a page followed to through a link is
        released once it is empty. */
    method Pop() returns (ptr: nat)
      requires Valid() && Stack() != []
      modifies this
      ensures Valid() && old(Stack()) == Stack() + [ptr]
    {
      NonEmpty(pages);
      Popped(pages);
      FullBefore(pages);
      hide Flat, WellFormed;
      var hdr := 0;
      ghost var was, n := pages, |pages| - 1;
      while !(|pages[hdr]| < MAX_COUNT || hdr + 1 == |pages|)
        invariant 0 <= hdr <= n && pages == was
      {
        hdr := hdr + 1;
      }
      assert hdr == n;
      ptr := pages[hdr][|pages[hdr]| - 1];
      pages := pages[hdr := pages[hdr][..|pages[hdr]| - 1]];
      assert pages == was[..n] + [was[n][..|was[n]| - 1]];
      if hdr > 0 && |pages[hdr]| == 0 {
        pages := pages[..hdr];
        assert pages == was[..n];
      }
    }

    /** Only the first page can be empty, so an empty first page means an empty
        chain. */
    method IsEmpty() returns (e: bool)
      requires Valid()
      ensures e == (Stack() == [])
    {
      NonEmpty(pages);
      e := |pages[0]| == 0;
    }
  }

  lemma FullBefore(pages: seq<seq<nat>>)
    requires WellFormed(pages)
    ensures pages != [] && forall k :: 0 <= k < |pages| - 1 ==> |pages[k]| == MAX_COUNT
  {
  }

  /** What is left of a chain once the last pointer is gone. */
  lemma {:induction false} Popped(pages: seq<seq<nat>>)
    requires WellFormed(pages) && pages[|pages| - 1] != []
    ensures var n := |pages| - 1;
            var rest := pages[n][..|pages[n]| - 1];
            var left := if n > 0 && rest == [] then pages[..n] else pages[..n] + [rest];
            WellFormed(left) && Flat(pages) == Flat(left) + [pages[n][|pages[n]| - 1]]
  {
    var n := |pages| - 1;
    var front, last := pages[..n], pages[n];
    var rest := last[..|last| - 1];
    assert pages == front + [last] && last == rest + [last[|last| - 1]];
    FlatLast(front, last);
    FlatLast(front, rest);
  }

  lemma {:induction false} NonEmpty(pages: seq<seq<nat>>)
    requires WellFormed(pages)
    ensures Flat(pages) == [] <==> pages[0] == []
    ensures pages[0] == [] ==> |pages| == 1
    ensures Flat(pages) != [] ==> pages[|pages| - 1] != []
  {
    var n := |pages| - 1;
    if n == 0 {
      assert pages[..0] == [];
    }
  }
}
