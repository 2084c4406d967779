/** Blocks of the power-of-two allocator: sizes, descriptors, and the rows of
    blocks that tile the 64 KiB chunks obtained so far. */
module Pow2Blocks {

  const MIN_POW: nat := 5
  const MAX_POW: nat := 16
  const CHUNK: nat := 65536

  datatype Block = Block(ptr: nat, index: nat)

  function Pow(i: nat): (r: nat)
    ensures r >= 1
  {
    if i == 0 then 1 else 2 * Pow(i - 1)
  }

  lemma PowValues()
    ensures Pow(5) == 32 && Pow(16) == CHUNK
  {
    assert Pow(8) == 256 && Pow(12) == 4096;
  }

  lemma {:induction false} PowMono(i: nat, j: nat)
    requires i <= j
    ensures Pow(i) <= Pow(j)
    ensures i < j ==> Pow(i) < Pow(j)
    decreases j
  {
    if i < j { PowMono(i, j - 1); }
  }

  lemma {:induction false} PowDivides(i: nat)
    requires i >= MIN_POW
    ensures Pow(i) % 32 == 0
    decreases i
  {
    PowValues();
    if i > MIN_POW { PowDivides(i - 1); }
  }

  // ----- choosing a size

  /** Bit scan reverse: the position of the most significant set bit. */
  function Bsr(x: nat): (i: nat)
    requires x > 0
    ensures Pow(i) <= x < Pow(i + 1)
  {
    if x == 1 then 0 else 1 + Bsr(x / 2)
  }

  function ComputeIndex(size: nat): nat {
    if size <= 32 then MIN_POW
    else if size >= CHUNK then MAX_POW
    else Bsr(size - 1) + 1
  }

  /** The index is the least whose block holds the request, for every request
      up to 64 KiB; larger requests get a block that is too small. */
  lemma {:induction false} ComputeIndexLeast(size: nat)
    ensures MIN_POW <= ComputeIndex(size) <= MAX_POW
    ensures Pow(ComputeIndex(size)) >= size <==> size <= CHUNK
    ensures forall i :: MIN_POW <= i < ComputeIndex(size) ==> Pow(i) < size
  {
    PowValues();
    if 32 < size < CHUNK {
      var i := Bsr(size - 1);
      if i < 5 { PowMono(i + 1, 5); }
      if i >= 16 { PowMono(16, i); }
      forall j | MIN_POW <= j < i + 1 ensures Pow(j) < size { PowMono(j, i); }
    } else if size >= CHUNK {
      forall j | MIN_POW <= j < MAX_POW ensures Pow(j) < size { PowMono(j, MAX_POW); }
    }
  }

  // ----- descriptors

  /** pointer | index, for a pointer whose low five bits are clear. */
  function Describe(b: Block): nat {
    b.ptr + b.index
  }

  /** descriptor & ~31 and descriptor & 31. */
  function Decode(d: nat): Block {
    Block(d - d % 32, d % 32)
  }

  lemma DescribeDecodes(b: Block)
    requires b.ptr % 32 == 0 && b.index < 32
    ensures Decode(Describe(b)) == b
  {
  }

  /** The arithmetic above is what the bit operations do. */
  lemma DescriptorBits(p: bv32, i: bv32)
    requires p & 31 == 0 && i < 32
    ensures p | i == p + i && (p | i) & 31 == i && (p | i) & !31 == p
  {
  }

  // ----- rows of blocks

  /** The blocks cover [lo, hi) in address order without gap or overlap. */
  predicate Tiled(bs: seq<Block>, lo: nat, hi: nat) {
    if bs == [] then lo == hi
    else bs[0].ptr == lo && MIN_POW <= bs[0].index <= MAX_POW && Tiled(bs[1..], lo + Pow(bs[0].index), hi)
  }

  ghost predicate Has(b: Block, x: nat) {
    b.ptr <= x < b.ptr + Pow(b.index)
  }

  lemma {:induction false} TiledBounds(bs: seq<Block>, lo: nat, hi: nat)
    requires Tiled(bs, lo, hi)
    ensures lo <= hi
  {
    if bs != [] { TiledBounds(bs[1..], lo + Pow(bs[0].index), hi); }
  }

  lemma {:induction false} TiledWithin(bs: seq<Block>, lo: nat, hi: nat, k: nat)
    requires Tiled(bs, lo, hi) && k < |bs|
    ensures lo <= bs[k].ptr && bs[k].ptr + Pow(bs[k].index) <= hi && MIN_POW <= bs[k].index <= MAX_POW
    decreases k
  {
    hide Pow;
    TiledBounds(bs[1..], lo + Pow(bs[0].index), hi);
    if k > 0 { TiledWithin(bs[1..], lo + Pow(bs[0].index), hi, k - 1); }
  }

  lemma {:induction false} TiledAligned(bs: seq<Block>, lo: nat, hi: nat, k: nat)
    requires Tiled(bs, lo, hi) && k < |bs| && lo % 32 == 0
    ensures bs[k].ptr % 32 == 0
    decreases k
  {
    hide Pow;
    if k > 0 {
      PowDivides(bs[0].index);
      ModAdd(lo, Pow(bs[0].index));
      TiledAligned(bs[1..], lo + Pow(bs[0].index), hi, k - 1);
    }
  }

  lemma ModAdd(a: nat, b: nat)
    requires a % 32 == 0 && b % 32 == 0
    ensures (a + b) % 32 == 0
  {
  }

  lemma {:induction false} TiledApart(bs: seq<Block>, lo: nat, hi: nat, j: nat, k: nat)
    requires Tiled(bs, lo, hi) && j < k < |bs|
    ensures bs[j].ptr + Pow(bs[j].index) <= bs[k].ptr
    decreases j
  {
    if j == 0 {
      TiledWithin(bs[1..], lo + Pow(bs[0].index), hi, k - 1);
    } else {
      TiledApart(bs[1..], lo + Pow(bs[0].index), hi, j - 1, k - 1);
    }
  }

  lemma {:induction false} TiledCovers(bs: seq<Block>, lo: nat, hi: nat, x: nat)
    requires Tiled(bs, lo, hi) && lo <= x < hi
    ensures exists k :: 0 <= k < |bs| && Has(bs[k], x)
  {
    if !Has(bs[0], x) {
      TiledCovers(bs[1..], lo + Pow(bs[0].index), hi, x);
      var k :| 0 <= k < |bs[1..]| && Has(bs[1..][k], x);
      assert Has(bs[k + 1], x);
    }
  }

  /** Replace block k by its two halves. */
  function Halve(bs: seq<Block>, k: nat): seq<Block>
    requires k < |bs| && bs[k].index > 0
  {
    var b := bs[k];
    bs[..k] + ([Block(b.ptr, b.index - 1), Block(b.ptr + Pow(b.index - 1), b.index - 1)] + bs[k + 1..])
  }

  lemma HalveFirst(bs: seq<Block>, lo: nat, hi: nat)
    requires Tiled(bs, lo, hi) && bs != [] && bs[0].index > MIN_POW
    ensures Tiled(Halve(bs, 0), lo, hi)
  {
    var r, i := Halve(bs, 0), bs[0].index - 1;
    assert Pow(i + 1) == 2 * Pow(i);
    hide Pow;
    var second := [Block(lo + Pow(i), i)] + bs[1..];
    assert second[1..] == bs[1..];
    assert Tiled(second, lo + Pow(i), hi);
    assert r[1..] == second;
  }

  lemma {:induction false} HalveTiled(bs: seq<Block>, lo: nat, hi: nat, k: nat)
    requires Tiled(bs, lo, hi) && k < |bs| && bs[k].index > MIN_POW
    ensures Tiled(Halve(bs, k), lo, hi)
    decreases k
  {
    var r := Halve(bs, k);
    if k == 0 {
      HalveFirst(bs, lo, hi);
    } else {
      hide Pow;
      HalveTiled(bs[1..], lo + Pow(bs[0].index), hi, k - 1);
      assert r[1..] == Halve(bs[1..], k - 1);
    }
  }

  lemma {:induction false} HalveBlocks(bs: seq<Block>, k: nat)
    requires k < |bs| && bs[k].index > 0
    ensures var b := bs[k];
            multiset(Halve(bs, k)) + multiset{b}
            == multiset(bs) + multiset{Block(b.ptr, b.index - 1), Block(b.ptr + Pow(b.index - 1), b.index - 1)}
  {
    assert bs == bs[..k] + ([bs[k]] + bs[k + 1..]);
  }
}
