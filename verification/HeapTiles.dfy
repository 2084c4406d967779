/** The arena of the libc heap as a row of tiles, and malloc and free on it.
    The row is the reference the record lists are proved against: it partitions
    the arena by construction, so blocks cannot overlap or leak. */
module HeapTiles {

  const ARENA: nat := 800000
  const MAXBLKS: nat := 128

  datatype Tile = Tile(addr: nat, len: nat, free: bool)

  /** A free-list entry. */
  datatype Block = Block(addr: int, len: int)

  /** `ts` covers [lo, hi) without gap or overlap. */
  predicate Tiling(ts: seq<Tile>, lo: nat, hi: nat) {
    if ts == [] then lo == hi
    else ts[0].addr == lo && ts[0].len > 0 && Tiling(ts[1..], lo + ts[0].len, hi)
  }

  /** No two neighbours are both free. */
  predicate Coalesced(ts: seq<Tile>) {
    |ts| > 1 ==> !(ts[0].free && ts[1].free) && Coalesced(ts[1..])
  }

  function Frees(ts: seq<Tile>): seq<Block> {
    if ts == [] then []
    else if ts[0].free then [Block(ts[0].addr, ts[0].len)] + Frees(ts[1..])
    else Frees(ts[1..])
  }

  function Lives(ts: seq<Tile>): nat {
    if ts == [] then 0 else (if ts[0].free then 0 else 1) + Lives(ts[1..])
  }

  /** Strictly address-ordered, and no entry ends where the next one starts. */
  predicate Separated(fl: seq<Block>) {
    |fl| > 1 ==> fl[0].addr + fl[0].len < fl[1].addr && Separated(fl[1..])
  }

  // ----- what a tiling means for bytes

  ghost predicate Holds(t: Tile, x: nat) {
    t.addr <= x < t.addr + t.len
  }

  /** Every byte of the arena lies in a tile. */
  lemma {:induction false} Covered(ts: seq<Tile>, lo: nat, hi: nat, x: nat)
    requires Tiling(ts, lo, hi) && lo <= x < hi
    ensures exists k :: 0 <= k < |ts| && Holds(ts[k], x)
  {
    if Holds(ts[0], x) {
    } else {
      Covered(ts[1..], lo + ts[0].len, hi, x);
      var k :| 0 <= k < |ts[1..]| && Holds(ts[1..][k], x);
      assert Holds(ts[k + 1], x);
    }
  }

  lemma {:induction false} Within(ts: seq<Tile>, lo: nat, hi: nat, k: nat)
    requires Tiling(ts, lo, hi) && k < |ts|
    ensures lo <= ts[k].addr && ts[k].addr + ts[k].len <= hi && ts[k].len > 0
    decreases k
  {
    Bounds(ts, lo, hi);
    Bounds(ts[1..], lo + ts[0].len, hi);
    if k > 0 { Within(ts[1..], lo + ts[0].len, hi, k - 1); }
  }

  lemma {:induction false} Bounds(ts: seq<Tile>, lo: nat, hi: nat)
    requires Tiling(ts, lo, hi)
    ensures lo <= hi && (ts != [] ==> lo < hi)
  {
    if ts != [] { Bounds(ts[1..], lo + ts[0].len, hi); }
  }

  /** Different tiles share no byte. */
  lemma {:induction false} Apart(ts: seq<Tile>, lo: nat, hi: nat, j: nat, k: nat)
    requires Tiling(ts, lo, hi) && j < k < |ts|
    ensures ts[j].addr + ts[j].len <= ts[k].addr
    decreases j
  {
    if j == 0 {
      Within(ts[1..], lo + ts[0].len, hi, k - 1);
    } else {
      Apart(ts[1..], lo + ts[0].len, hi, j - 1, k - 1);
    }
  }

  // ----- splitting a row

  lemma {:induction false} TilingAppend(a: seq<Tile>, b: seq<Tile>, lo: nat, mid: nat, hi: nat)
    requires Tiling(a, lo, mid) && Tiling(b, mid, hi)
    ensures Tiling(a + b, lo, hi)
  {
    if a == [] {
      assert a + b == b;
    } else {
      assert (a + b)[1..] == a[1..] + b;
      TilingAppend(a[1..], b, lo + a[0].len, mid, hi);
    }
  }

  lemma {:induction false} TilingSplit(a: seq<Tile>, t: Tile, b: seq<Tile>, lo: nat, hi: nat)
    requires Tiling(a + [t] + b, lo, hi)
    ensures Tiling(a, lo, t.addr) && t.len > 0 && Tiling(b, t.addr + t.len, hi)
    decreases |a|
  {
    if a == [] {
      assert (a + [t] + b)[0] == t && (a + [t] + b)[1..] == b;
    } else {
      assert (a + [t] + b)[0] == a[0] && (a + [t] + b)[1..] == a[1..] + [t] + b;
      TilingSplit(a[1..], t, b, lo + a[0].len, hi);
    }
  }

  lemma {:induction false} FreesAppend(a: seq<Tile>, b: seq<Tile>)
    ensures Frees(a + b) == Frees(a) + Frees(b)
    ensures Lives(a + b) == Lives(a) + Lives(b)
  {
    if a == [] {
      assert a + b == b;
    } else {
      assert (a + b)[1..] == a[1..] + b;
      FreesAppend(a[1..], b);
    }
  }

  /** The free list of a coalesced row is ordered and has no adjacent entries. */
  lemma {:induction false} FreesSeparated(ts: seq<Tile>, lo: nat, hi: nat)
    requires Tiling(ts, lo, hi) && Coalesced(ts)
    ensures Separated(Frees(ts))
    ensures Frees(ts) != [] ==> Frees(ts)[0].addr >= lo
    ensures ts != [] && !ts[0].free && Frees(ts) != [] ==> Frees(ts)[0].addr > lo
  {
    if ts != [] {
      var rest := Frees(ts[1..]);
      FreesSeparated(ts[1..], lo + ts[0].len, hi);
      if ts[0].free {
        assert Frees(ts)[1..] == rest;
      } else {
        assert Frees(ts) == rest;
      }
    }
  }

  /** Free entries are separated by live tiles, so there is at most one more. */
  lemma {:induction false} FreesAtMostLives(ts: seq<Tile>)
    requires Coalesced(ts)
    ensures |Frees(ts)| <= Lives(ts) + if ts != [] && ts[0].free then 1 else 0
  {
    if ts != [] { FreesAtMostLives(ts[1..]); }
  }

  // ----- malloc

  /** Remove the first `n` bytes from entry j of the free list. */
  function Take(fl: seq<Block>, j: nat, n: int): seq<Block>
    requires j < |fl| && n <= fl[j].len
  {
    var b := fl[j];
    if b.len == n then fl[..j] + fl[j + 1..] else fl[j := Block(b.addr + n, b.len - n)]
  }

  /** What is left of free tile t once its first `n` bytes are allocated. */
  function Rest(t: Tile, n: nat): seq<Tile>
    requires n <= t.len
  {
    if t.len == n then [] else [Tile(t.addr + n, t.len - n, true)]
  }

  function Carve(a: seq<Tile>, t: Tile, b: seq<Tile>, n: nat): seq<Tile>
    requires n <= t.len
  {
    a + ([Tile(t.addr, n, false)] + Rest(t, n) + b)
  }

  lemma {:induction false} CoalescedAppend(a: seq<Tile>, b: seq<Tile>)
    ensures Coalesced(a + b) <==>
            Coalesced(a) && Coalesced(b) && !(a != [] && b != [] && a[|a| - 1].free && b[0].free)
  {
    if a == [] {
      assert a + b == b;
    } else {
      assert (a + b)[1..] == a[1..] + b;
      CoalescedAppend(a[1..], b);
    }
  }

  lemma {:induction false} CarveTiling(a: seq<Tile>, t: Tile, b: seq<Tile>, n: nat, lo: nat, hi: nat)
    requires Tiling(a + [t] + b, lo, hi) && 0 < n <= t.len
    ensures Tiling(Carve(a, t, b, n), lo, hi)
  {
    TilingSplit(a, t, b, lo, hi);
    var live := Tile(t.addr, n, false);
    assert [live][1..] == [];
    assert Tiling([live], t.addr, t.addr + n);
    if t.len != n {
      var r := Tile(t.addr + n, t.len - n, true);
      assert [r][1..] == [];
      assert Tiling([r], t.addr + n, t.addr + t.len);
    }
    TilingAppend(Rest(t, n), b, t.addr + n, t.addr + t.len, hi);
    TilingAppend([live], Rest(t, n) + b, t.addr, t.addr + n, hi);
    assert [live] + (Rest(t, n) + b) == [live] + Rest(t, n) + b;
    TilingAppend(a, [live] + Rest(t, n) + b, lo, t.addr, hi);
  }

  lemma {:induction false} CarveCoalesced(a: seq<Tile>, t: Tile, b: seq<Tile>, n: nat)
    requires Coalesced(a + [t] + b) && t.free && n <= t.len
    ensures Coalesced(Carve(a, t, b, n))
  {
    var live := Tile(t.addr, n, false);
    CoalescedAppend(a + [t], b);
    CoalescedAppend(a, [t]);
    assert (a + [t])[|a|] == t;
    CoalescedAppend(Rest(t, n), b);
    CoalescedAppend([live], Rest(t, n) + b);
    assert [live] + (Rest(t, n) + b) == [live] + Rest(t, n) + b;
    CoalescedAppend(a, [live] + Rest(t, n) + b);
  }

  /** What a tile contributes to the free list. */
  function FreeOf(t: Tile): seq<Block> {
    if t.free then [Block(t.addr, t.len)] else []
  }

  lemma {:induction false} CarvedFrees(a: seq<Tile>, t: Tile, b: seq<Tile>, n: nat)
    requires t.free && n <= t.len
    ensures Frees(Carve(a, t, b, n))
            == Frees(a) + ((if t.len == n then [] else [Block(t.addr + n, t.len - n)]) + Frees(b))
    ensures Lives(Carve(a, t, b, n)) == Lives(a) + 1 + Lives(b)
  {
    var live := Tile(t.addr, n, false);
    FreesAppend(Rest(t, n), b);
    assert ([live] + Rest(t, n) + b)[1..] == Rest(t, n) + b;
    FreesAppend(a, [live] + Rest(t, n) + b);
    if t.len != n { assert Rest(t, n)[1..] == []; }
  }

  lemma {:induction false} TakeMiddle(fa: seq<Block>, e: Block, fb: seq<Block>, n: nat)
    requires n <= e.len
    ensures var fl := fa + [e] + fb;
            Take(fl, |fa|, n) == fa + ((if e.len == n then [] else [Block(e.addr + n, e.len - n)]) + fb)
  {
    var fl := fa + [e] + fb;
    assert fl[|fa|] == e;
    if e.len == n {
      assert fl[..|fa|] == fa && fl[|fa| + 1..] == fb;
    }
  }

  lemma {:induction false} CarveFrees(a: seq<Tile>, t: Tile, b: seq<Tile>, n: nat)
    requires t.free && n <= t.len
    ensures var fl, j := Frees(a + [t] + b), |Frees(a)|;
            && j < |fl| && fl[j] == Block(t.addr, t.len)
            && Frees(Carve(a, t, b, n)) == Take(fl, j, n)
            && Lives(Carve(a, t, b, n)) == Lives(a + [t] + b) + 1
  {
    FreesSplit(a, t, b);
    CarvedFrees(a, t, b, n);
    hide Frees, Carve, Take, Lives;
    TakeMiddle(Frees(a), Block(t.addr, t.len), Frees(b), n);
  }

  lemma {:induction false} FreesSplit(a: seq<Tile>, t: Tile, b: seq<Tile>)
    ensures Frees(a + [t] + b) == Frees(a) + FreeOf(t) + Frees(b)
    ensures Lives(a + [t] + b) == Lives(a) + (if t.free then 0 else 1) + Lives(b)
  {
    FreesAppend(a + [t], b);
    FreesAppend(a, [t]);
    assert [t][1..] == [];
  }

  /** The tile that entry j of the free list stands for. */
  lemma {:induction false} FindFree(ts: seq<Tile>, j: nat) returns (a: seq<Tile>, t: Tile, b: seq<Tile>)
    requires j < |Frees(ts)|
    ensures ts == a + [t] + b && t.free && |Frees(a)| == j && Frees(ts)[j] == Block(t.addr, t.len)
  {
    if ts[0].free && j == 0 {
      a, t, b := [], ts[0], ts[1..];
      assert ts == [] + [ts[0]] + ts[1..];
    } else {
      var a', t', b' := FindFree(ts[1..], if ts[0].free then j - 1 else j);
      a, t, b := [ts[0]] + a', t', b';
      assert a[1..] == a';
      assert ts == [ts[0]] + ts[1..];
      assert [ts[0]] + (a' + [t'] + b') == a + [t] + b;
    }
  }

  // ----- free

  function End(e: Block): int {
    e.addr + e.len
  }

  /** Merge entry p with the next one if they touch. */
  function MergeAt(fl: seq<Block>, p: nat): seq<Block> {
    if p + 1 < |fl| && End(fl[p]) == fl[p + 1].addr
    then fl[..p] + [Block(fl[p].addr, fl[p].len + fl[p + 1].len)] + fl[p + 2..]
    else fl
  }

  /** MergeRecords at entry p: one merge with the next entry, then one more
      from wherever that left off. */
  function MergeRecords(fl: seq<Block>, p: nat): seq<Block> {
    if p + 1 >= |fl| then fl
    else if End(fl[p]) == fl[p + 1].addr then MergeAt(MergeAt(fl, p), p)
    else MergeAt(fl, p + 1)
  }

  /** free: insert `e` at position p and merge around it. */
  function InsertMerge(fl: seq<Block>, p: nat, e: Block): seq<Block>
    requires p <= |fl|
  {
    MergeRecords(fl[..p] + [e] + fl[p..], if p == 0 then 0 else p - 1)
  }

  predicate TouchesLeft(fa: seq<Block>, e: Block) {
    fa != [] && End(fa[|fa| - 1]) == e.addr
  }

  predicate TouchesRight(e: Block, fb: seq<Block>) {
    fb != [] && End(e) == fb[0].addr
  }

  /** `e` between two lists, united with every neighbour it touches. */
  function Join(fa: seq<Block>, e: Block, fb: seq<Block>): seq<Block> {
    var left, right := TouchesLeft(fa, e), TouchesRight(e, fb);
    var start := if left then fa[|fa| - 1].addr else e.addr;
    var len := (if left then fa[|fa| - 1].len else 0) + e.len + (if right then fb[0].len else 0);
    (if left then fa[..|fa| - 1] else fa) + [Block(start, len)] + (if right then fb[1..] else fb)
  }

  lemma {:induction false} MergeMiddle(fa: seq<Block>, e: Block, f: Block, fb: seq<Block>)
    ensures MergeAt(fa + [e, f] + fb, |fa|)
            == if End(e) == f.addr then fa + [Block(e.addr, e.len + f.len)] + fb else fa + [e, f] + fb
  {
    var fl := fa + [e, f] + fb;
    assert fl[|fa|] == e && fl[|fa| + 1] == f;
    assert fl[..|fa|] == fa && fl[|fa| + 2..] == fb;
  }

  lemma {:induction false} MergeLast(fa: seq<Block>, e: Block)
    ensures MergeAt(fa + [e], |fa|) == fa + [e]
  {
  }

  lemma {:induction false} MergeBehind(fa: seq<Block>, e: Block, fb: seq<Block>)
    ensures MergeAt(fa + [e] + fb, |fa|)
            == if TouchesRight(e, fb) then fa + [Block(e.addr, e.len + fb[0].len)] + fb[1..] else fa + [e] + fb
  {
    if fb == [] {
      assert fa + [e] + fb == fa + [e];
      MergeLast(fa, e);
    } else {
      assert fa + [e] + fb == fa + [e, fb[0]] + fb[1..];
      MergeMiddle(fa, e, fb[0], fb[1..]);
    }
  }

  /** With nothing in front, the second merge finds nothing to do. */
  lemma {:induction false} MergeFront(e: Block, fb: seq<Block>)
    requires Separated(fb)
    ensures MergeRecords([e] + fb, 0) == Join([], e, fb)
  {
    if fb != [] {
      var g := [e] + fb;
      assert g[1] == fb[0];
      if End(e) == fb[0].addr {
        var m := Block(e.addr, e.len + fb[0].len);
        MergeBehind([], e, fb);
        MergeBehind([], m, fb[1..]);
        assert [] + [e] + fb == g;
        assert !TouchesRight(m, fb[1..]);
        hide MergeAt;
      } else {
        MergeBehind([e], fb[0], fb[1..]);
        assert [e] + [fb[0]] + fb[1..] == g;
        hide MergeAt;
      }
    }
  }

  lemma {:induction false} MergeInside(f: seq<Block>, l: Block, e: Block, fb: seq<Block>)
    ensures MergeRecords(f + [l, e] + fb, |f|)
            == if End(l) == e.addr then MergeAt(f + [Block(l.addr, l.len + e.len)] + fb, |f|)
               else MergeAt(f + [l, e] + fb, |f| + 1)
  {
    MergeMiddle(f, l, e, fb);
    var g := f + [l, e] + fb;
    assert g[|f|] == l && g[|f| + 1] == e;
    hide MergeAt;
  }

  /** The two merges of MergeRecords unite the new block with exactly the
      neighbours it touches. */
  lemma {:induction false} InsertMergeJoins(fa: seq<Block>, e: Block, fb: seq<Block>)
    requires Separated(fb)
    ensures InsertMerge(fa + fb, |fa|, e) == Join(fa, e, fb)
  {
    hide MergeAt, MergeRecords;
    assert (fa + fb)[..|fa|] == fa && (fa + fb)[|fa|..] == fb;
    if fa == [] {
      assert fa + [e] + fb == [e] + fb;
      MergeFront(e, fb);
    } else {
      var f, l := fa[..|fa| - 1], fa[|fa| - 1];
      assert fa + [e] + fb == f + [l, e] + fb;
      MergeInside(f, l, e, fb);
      if End(l) == e.addr {
        MergeBehind(f, Block(l.addr, l.len + e.len), fb);
      } else {
        MergeBehind(fa, e, fb);
      }
    }
  }

  /** Live tile t becomes free and is united with free neighbours. */
  function Release(a: seq<Tile>, t: Tile, b: seq<Tile>): seq<Tile> {
    var left, right := a != [] && a[|a| - 1].free, b != [] && b[0].free;
    var start := if left then a[|a| - 1].addr else t.addr;
    var len := (if left then a[|a| - 1].len else 0) + t.len + (if right then b[0].len else 0);
    (if left then a[..|a| - 1] else a) + [Tile(start, len, true)] + (if right then b[1..] else b)
  }

  /** A list of tiles ending at `mid`: its last entry touches `mid` iff its last
      tile is free. */
  lemma {:induction false} LastFree(a: seq<Tile>, lo: nat, mid: nat)
    requires Tiling(a, lo, mid) && Frees(a) != []
    ensures var fa := Frees(a);
            && End(fa[|fa| - 1]) <= mid
            && (End(fa[|fa| - 1]) == mid <==> a[|a| - 1].free)
            && (a[|a| - 1].free ==> Frees(a[..|a| - 1]) == fa[..|fa| - 1]
                                    && fa[|fa| - 1] == Block(a[|a| - 1].addr, a[|a| - 1].len))
  {
    var n := |a| - 1;
    assert a == a[..n] + [a[n]] + [];
    FreesSplit(a[..n], a[n], []);
    TilingSplit(a[..n], a[n], [], lo, mid);
    if !a[n].free {
      LastFree(a[..n], lo, a[n].addr);
    }
  }

  lemma {:induction false} FirstFree(b: seq<Tile>, mid: nat, hi: nat)
    requires Tiling(b, mid, hi) && Coalesced(b) && Frees(b) != []
    ensures Frees(b)[0].addr == mid <==> b[0].free
    ensures b[0].free ==> Frees(b)[1..] == Frees(b[1..]) && Frees(b)[0] == Block(b[0].addr, b[0].len)
  {
    FreesSeparated(b, mid, hi);
  }

  lemma {:induction false} ReleaseFrees(a: seq<Tile>, t: Tile, b: seq<Tile>, lo: nat, hi: nat)
    requires Tiling(a + [t] + b, lo, hi) && Coalesced(a + [t] + b) && !t.free
    ensures Frees(a + [t] + b) == Frees(a) + Frees(b)
    ensures Frees(Release(a, t, b)) == InsertMerge(Frees(a) + Frees(b), |Frees(a)|, Block(t.addr, t.len))
    ensures Lives(Release(a, t, b)) == Lives(a + [t] + b) - 1
  {
    TilingSplit(a, t, b, lo, hi);
    CoalescedAppend(a + [t], b);
    FreesSplit(a, t, b);
    FreesSeparated(b, t.addr + t.len, hi);
    InsertMergeJoins(Frees(a), Block(t.addr, t.len), Frees(b));
    ReleaseJoins(a, t, b, lo, hi);
  }

  /** What is left of the tiles before t once a free neighbour is taken in. */
  lemma {:induction false} LeftPart(a: seq<Tile>, t: Tile, lo: nat)
    requires Tiling(a, lo, t.addr)
    ensures var left, fa := a != [] && a[|a| - 1].free, Frees(a);
            var a' := if left then a[..|a| - 1] else a;
            && (TouchesLeft(fa, Block(t.addr, t.len)) <==> left)
            && Frees(a') == (if left then fa[..|fa| - 1] else fa) && Lives(a') == Lives(a)
            && (left ==> fa[|fa| - 1] == Block(a[|a| - 1].addr, a[|a| - 1].len))
  {
    if a != [] {
      assert a == a[..|a| - 1] + [a[|a| - 1]] + [];
      FreesSplit(a[..|a| - 1], a[|a| - 1], []);
    }
    if Frees(a) != [] { LastFree(a, lo, t.addr); }
  }

  lemma {:induction false} RightPart(t: Tile, b: seq<Tile>, hi: nat)
    requires Tiling(b, t.addr + t.len, hi) && Coalesced(b)
    ensures var right, fb := b != [] && b[0].free, Frees(b);
            var b' := if right then b[1..] else b;
            && (TouchesRight(Block(t.addr, t.len), fb) <==> right)
            && Frees(b') == (if right then fb[1..] else fb) && Lives(b') == Lives(b)
            && (right ==> fb[0] == Block(b[0].addr, b[0].len))
  {
    if Frees(b) != [] { FirstFree(b, t.addr + t.len, hi); }
  }

  lemma {:induction false} ReleaseJoins(a: seq<Tile>, t: Tile, b: seq<Tile>, lo: nat, hi: nat)
    requires Tiling(a, lo, t.addr) && Tiling(b, t.addr + t.len, hi) && Coalesced(b)
    ensures Frees(Release(a, t, b)) == Join(Frees(a), Block(t.addr, t.len), Frees(b))
    ensures Lives(Release(a, t, b)) == Lives(a) + Lives(b)
  {
    hide Tiling, Coalesced, TouchesLeft, TouchesRight, Frees, Lives;
    LeftPart(a, t, lo);
    RightPart(t, b, hi);
    var left, right := a != [] && a[|a| - 1].free, b != [] && b[0].free;
    var a', b' := if left then a[..|a| - 1] else a, if right then b[1..] else b;
    var start := if left then a[|a| - 1].addr else t.addr;
    var len := (if left then a[|a| - 1].len else 0) + t.len + (if right then b[0].len else 0);
    FreesSplit(a', Tile(start, len, true), b');
  }

  lemma {:induction false} ReleaseTiling(a: seq<Tile>, t: Tile, b: seq<Tile>, lo: nat, hi: nat)
    requires Tiling(a + [t] + b, lo, hi)
    ensures Tiling(Release(a, t, b), lo, hi)
  {
    TilingSplit(a, t, b, lo, hi);
    var left, right := a != [] && a[|a| - 1].free, b != [] && b[0].free;
    var a', b' := if left then a[..|a| - 1] else a, if right then b[1..] else b;
    var start := if left then a[|a| - 1].addr else t.addr;
    var len := (if left then a[|a| - 1].len else 0) + t.len + (if right then b[0].len else 0);
    if left {
      assert a == a' + [a[|a| - 1]] + [];
      TilingSplit(a', a[|a| - 1], [], lo, t.addr);
    }
    var m := Tile(start, len, true);
    assert ([m] + b')[1..] == b';
    assert Tiling([m] + b', start, hi);
    TilingAppend(a', [m] + b', lo, start, hi);
    assert a' + ([m] + b') == a' + [m] + b';
  }

  lemma {:induction false} ReleaseCoalesced(a: seq<Tile>, t: Tile, b: seq<Tile>)
    requires Coalesced(a + [t] + b)
    ensures Coalesced(Release(a, t, b))
  {
    CoalescedAppend(a + [t], b);
    CoalescedAppend(a, [t]);
    var left, right := a != [] && a[|a| - 1].free, b != [] && b[0].free;
    var a', b' := if left then a[..|a| - 1] else a, if right then b[1..] else b;
    if left {
      assert a == a' + [a[|a| - 1]];
      CoalescedAppend(a', [a[|a| - 1]]);
    }
    var start := if left then a[|a| - 1].addr else t.addr;
    var len := (if left then a[|a| - 1].len else 0) + t.len + (if right then b[0].len else 0);
    var m := Tile(start, len, true);
    CoalescedAppend(a', [m]);
    CoalescedAppend(a' + [m], b');
    assert a' != [] ==> !a'[|a'| - 1].free;
    assert b' != [] ==> !b'[0].free;
  }

  // ----- every run

  /** One malloc that succeeds, from any free tile, or one free of a live tile. */
  datatype Call = Grab(a: seq<Tile>, t: Tile, b: seq<Tile>, n: nat) | Drop(a: seq<Tile>, t: Tile, b: seq<Tile>)

  predicate Applies(ts: seq<Tile>, c: Call) {
    && ts == c.a + [c.t] + c.b
    && (c.Grab? ==> c.t.free && 0 < c.n <= c.t.len)
    && (c.Drop? ==> !c.t.free)
  }

  function After(ts: seq<Tile>, c: Call): seq<Tile>
    requires Applies(ts, c)
  {
    match c
    case Grab(a, t, b, n) => Carve(a, t, b, n)
    case Drop(a, t, b) => Release(a, t, b)
  }

  predicate IsRun(rows: seq<seq<Tile>>, cs: seq<Call>) {
    && |rows| == |cs| + 1 && rows[0] == [Tile(0, ARENA, true)]
    && forall k :: 0 <= k < |cs| ==> Applies(rows[k], cs[k]) && rows[k + 1] == After(rows[k], cs[k])
  }

  /** After any sequence of allocations and releases the blocks tile the arena,
      the free list is ordered and fully coalesced, and it has at most one
      entry more than there are live blocks. */
  lemma {:induction false} EveryRun(rows: seq<seq<Tile>>, cs: seq<Call>, k: nat)
    requires IsRun(rows, cs) && k <= |cs|
    ensures Tiling(rows[k], 0, ARENA) && Coalesced(rows[k])
    ensures Separated(Frees(rows[k])) && |Frees(rows[k])| <= Lives(rows[k]) + 1
    decreases k
  {
    var ts := rows[k];
    if k == 0 {
      assert ts[1..] == [];
    } else {
      EveryRun(rows, cs, k - 1);
      assert ts == After(rows[k - 1], cs[k - 1]);
      hide Separated, Frees, Lives;
      match cs[k - 1]
      case Grab(a, t, b, n) =>
        CarveTiling(a, t, b, n, 0, ARENA);
        CarveCoalesced(a, t, b, n);
      case Drop(a, t, b) =>
        ReleaseTiling(a, t, b, 0, ARENA);
        ReleaseCoalesced(a, t, b);
    }
    FreesSeparated(ts, 0, ARENA);
    FreesAtMostLives(ts);
  }
}
