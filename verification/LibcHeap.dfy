/** The libc heap as it runs: MAXBLKS records, each on the free list or on the
    list of spare records, both threaded through the records' `next` links
    (record = index, NULL = -1), and a size word in front of every block.
    Addresses are offsets into the arena. */
module LibcHeap {
  import opened Links
  import opened HeapTiles

  const NULL: int := -1

  /** The lowest `2 * half` values of an integer, read as signed. */
  function Signed(x: int, half: int): int
    requires half > 0
  {
    (x + half) % (2 * half) - half
  }

  /** 32-bit int arithmetic. size_t is an int here, and sums and products that
      overflow are taken to wrap. */
  function Wrap(x: int): int { Signed(x, 0x8000_0000) }

  predicate Int32(x: int) { -0x8000_0000 <= x < 0x8000_0000 }

  /** The macro ALIGN * ceil(size, ALIGN) as the compiler parses it: the product
      is taken before the division, so the alignment cancels and the result is
      size + 7, less the bits that the product pushed out. */
  function AllocBytes(size: int): int {
    Wrap(8 * Wrap(size + 7)) / 8
  }

  lemma SignedIs(x: int, half: int, q: int, r: int)
    requires half > 0 && x == 2 * half * q + r && -half <= r < half
    ensures Signed(x, half) == r
  {
    ModIs(x + half, 2 * half, q, r + half);
  }

  lemma ModIs(a: int, m: int, q: int, r: int)
    requires m > 0 && a == m * q + r && 0 <= r < m
    ensures a % m == r
  {
    var p := a / m;
    assert a == m * p + a % m;
    Multiple(m, p - q);
    assert m * (p - q) == m * p - m * q;
  }

  lemma Multiple(m: int, k: int)
    requires m > 0
    ensures k >= 1 ==> m * k >= m
    ensures k <= -1 ==> m * k <= -m
    ensures k == 0 ==> m * k == 0
  {
  }

  lemma AllocBytesMod(size: int)
    ensures AllocBytes(size) == Signed(size + 7, 0x1000_0000)
  {
    var x := size + 7;
    var q, s := (x + 0x1000_0000) / 0x2000_0000, Signed(x, 0x1000_0000);
    assert x == 0x2000_0000 * q + s;
    var k := (x + 0x8000_0000) / 0x1_0000_0000;
    assert Wrap(x) == x - 0x1_0000_0000 * k;
    SignedIs(8 * Wrap(x), 0x8000_0000, q - 8 * k, 8 * s);
  }

  /** The length of the block that malloc(size) looks for. */
  lemma BlockLength(size: int)
    ensures AllocBytes(Wrap(size + 8)) == Signed(size + 15, 0x1000_0000)
    ensures Int32(size) && -0x1000_0000 <= size + 15 < 0x1000_0000 ==> AllocBytes(Wrap(size + 8)) == size + 15
  {
    var x := size + 8;
    AllocBytesMod(Wrap(x));
    hide AllocBytes;
    var k := (x + 0x8000_0000) / 0x1_0000_0000;
    assert Wrap(x) == x - 0x1_0000_0000 * k;
    var q, s := (x + 7 + 0x1000_0000) / 0x2000_0000, Signed(x + 7, 0x1000_0000);
    SignedIs(Wrap(x) + 7, 0x1000_0000, q - 8 * k, s);
  }

  /** A request for `size` bytes gets a block that holds the size word and the
      request exactly when 8 * (size + 15) does not overflow upwards. */
  lemma AllocBytesHold(size: int)
    requires Int32(size)
    ensures AllocBytes(Wrap(size + 8)) >= size + 8 <==> size + 15 < 0x1000_0000
  {
    BlockLength(size);
    hide AllocBytes, Wrap;
  }

  /** malloc(2^29) asks for 512 MiB and is given 15 bytes, malloc(2^29 - 15) none
      at all, and malloc(2^28) a negative number of them. */
  lemma OverflowingRequest()
    ensures AllocBytes(Wrap(0x2000_0000 + 8)) == 15
    ensures AllocBytes(Wrap(0x2000_0000 - 15 + 8)) == 0
    ensures AllocBytes(Wrap(0x1000_0000 + 8)) == 15 - 0x1000_0000
  {
    BlockLength(0x2000_0000);
    BlockLength(0x2000_0000 - 15);
    BlockLength(0x1000_0000);
    hide AllocBytes, Wrap;
  }

  ghost function Read(fbp: seq<int>, size: seq<int>, order: seq<int>): (fl: seq<Block>)
    requires |fbp| == |size| && forall i :: 0 <= i < |order| ==> 0 <= order[i] < |fbp|
    ensures |fl| == |order|
    ensures forall i :: 0 <= i < |fl| ==> fl[i] == Block(fbp[order[i]], size[order[i]])
  {
    seq(|order|, i requires 0 <= i < |order| => Block(fbp[order[i]], size[order[i]]))
  }

  ghost predicate InRange(order: seq<int>) {
    forall i :: 0 <= i < |order| ==> 0 <= order[i] < MAXBLKS
  }

  /** No record is on both lists. */
  ghost predicate Disjoint(order: seq<int>, spare: seq<int>) {
    forall x :: x in order ==> x !in spare
  }

  lemma {:induction false} ListInRange(next: seq<int>, h: int, order: seq<int>)
    requires List(next, h, order, NULL) && |next| == MAXBLKS
    ensures InRange(order) && Distinct(order)
    ensures h == if order == [] then NULL else order[0]
  {
    Acyclic(next, h, order, NULL);
    forall i | 0 <= i < |order| ensures 0 <= order[i] < MAXBLKS { Members(next, h, order, NULL, order[i]); }
  }

  class Records {
    const fbp: array<int>
    const size: array<int>
    const next: array<int>
    var frhead: int
    var frecs: int
    ghost var order: seq<int>
    ghost var spare: seq<int>
    ghost var fl: seq<Block>

    ghost predicate Valid()
      reads this, fbp, size, next
    {
      && fbp != size && fbp != next && size != next
      && fbp.Length == size.Length == next.Length == MAXBLKS
      && List(next[..], frhead, order, NULL)
      && List(next[..], frecs, spare, NULL)
      && Disjoint(order, spare)
      && |order| + |spare| == MAXBLKS
      && InRange(order)
      && fl == Read(fbp[..], size[..], order)
    }

    /** mem_init: record 0 describes the whole arena, the others are spare. */
    constructor ()
      ensures Valid() && fresh(fbp) && fresh(size) && fresh(next)
      ensures fl == [Block(0, ARENA)]
    {
      fbp := new int[MAXBLKS](_ => 0);
      size := new int[MAXBLKS](_ => 0);
      next := new int[MAXBLKS](i => if i == 0 || i == MAXBLKS - 1 then NULL else i + 1);
      frhead, frecs := 0, 1;
      order, spare, fl := [0], seq(MAXBLKS - 1, i => i + 1), [Block(0, ARENA)];
      new;
      size[0] := ARENA;
      SpareChain(next[..], 1);
      assert spare == seq(MAXBLKS - 1, i => i + 1);
    }

    lemma At(j: nat)
      requires Valid() && j < |order|
      ensures var r := order[j];
              && 0 <= r < MAXBLKS && fl[j] == Block(fbp[r], size[r]) && |fl| == |order|
              && next[r] == (if j + 1 < |order| then order[j + 1] else NULL)
              && (r == frhead <==> j == 0)
    {
      ListInRange(next[..], frhead, order);
      NextAt(next[..], frhead, order, NULL, j);
    }

    lemma AtHead()
      requires Valid()
      ensures |fl| == |order| && frhead == if fl == [] then NULL else order[0]
    {
    }

    /** Overwrite entry j of the free list, record r. */
    method SetBlock(r: int, addr: int, len: int, ghost j: nat)
      requires Valid() && j < |order| && r == order[j]
      modifies this`fl, fbp, size
      ensures Valid() && fl == old(fl)[j := Block(addr, len)]
    {
      ListInRange(next[..], frhead, order);
      hide List;
      fbp[r], size[r] := addr, len;
      fl := fl[j := Block(addr, len)];
    }

    /** Move entry j, record r, to the spare records. */
    method DelRecord(prev: int, r: int, ghost j: nat)
      requires Valid() && j < |order| && r == order[j] && (j > 0 ==> prev == order[j - 1])
      modifies this, next
      ensures Valid() && order == old(order)[..j] + old(order)[j + 1..]
      ensures fl == old(fl)[..j] + old(fl)[j + 1..]
    {
      At(j);
      DelLists(next[..], frhead, frecs, order, spare, j);
      ReadOmit(fbp[..], size[..], order, j);
      ghost var was := next[..];
      if r == frhead {
        frhead := next[r];
      } else {
        next[prev] := next[r];
      }
      next[r] := frecs;
      frecs := r;
      assert next[..] == (if j == 0 then was else was[prev := was[r]])[r := old(frecs)];
      order, spare := order[..j] + order[j + 1..], [r] + spare;
      fl := fl[..j] + fl[j + 1..];
    }

    /** The insertion half of free: a spare record describes the block and goes
        in front of entry p; `prev` is the record of entry p - 1. */
    method Insert(prev: int, addr: nat, len: nat, ghost p: nat) returns (r: int)
      requires Valid() && frecs != NULL && p <= |order| && prev == (if p == 0 then NULL else order[p - 1])
      modifies this, fbp, size, next
      ensures Valid() && r == old(frecs) && order == old(order)[..p] + [r] + old(order)[p..]
      ensures fl == old(fl)[..p] + [Block(addr, len)] + old(fl)[p..]
    {
      InsLists(next[..], frhead, frecs, order, spare, p);
      r := frecs;
      ReadInsert(fbp[..], size[..], order, p, r, addr, len);
      ghost var was, f0, s0 := next[..], fbp[..], size[..];
      fbp[r], size[r] := addr, len;
      assert fbp[..] == f0[r := addr] && size[..] == s0[r := len];
      frecs := next[r];
      if prev == NULL {
        next[r] := frhead;
        frhead := r;
      } else {
        next[r] := next[prev];
        next[prev] := r;
      }
      assert next[..] == if p == 0 then was[r := old(frhead)] else was[r := was[prev]][prev := r];
      order, spare := order[..p] + [r] + order[p..], spare[1..];
      fl := fl[..p] + [Block(addr, len)] + fl[p..];
    }

    /** Merge entry p, record r, with the next one if they touch; tells whether
        it did. */
    method MergeOnce(r: int, ghost p: nat) returns (merged: bool)
      requires Valid() && p < |order| && r == order[p]
      modifies this, fbp, size, next
      ensures Valid() && fl == MergeAt(old(fl), p) && p < |order| && r == order[p]
      ensures merged == (p + 1 < |old(fl)| && End(old(fl)[p]) == old(fl)[p + 1].addr)
      ensures !merged ==> order == old(order)
    {
      hide List, Read;
      At(p);
      var n := next[r];
      merged := false;
      if n != NULL {
        At(p + 1);
        if fbp[r] + size[r] == fbp[n] {
          merged := true;
          ghost var fl0 := fl;
          SetBlock(r, fbp[r], size[r] + size[n], p);
          DelRecord(r, n, p + 1);
          assert fl == fl0[..p] + [Block(fl0[p].addr, fl0[p].len + fl0[p + 1].len)] + fl0[p + 2..];
        }
      }
    }

    method MergeRecords(r: int, ghost p: nat)
      requires Valid() && p < |order| && r == order[p]
      modifies this, fbp, size, next
      ensures Valid() && fl == HeapTiles.MergeRecords(old(fl), p)
    {
      hide List, Read;
      At(p);
      if next[r] == NULL { return; }
      At(p + 1);
      ghost var fl0 := fl;
      var merged := MergeOnce(r, p);
      if merged {
        merged := MergeOnce(r, p);
      } else {
        At(p);
        merged := MergeOnce(next[r], p + 1);
      }
    }
  }

  lemma {:induction false} DelLists(next: seq<int>, frhead: int, frecs: int, order: seq<int>, spare: seq<int>, j: nat)
    requires |next| == MAXBLKS && List(next, frhead, order, NULL) && List(next, frecs, spare, NULL)
    requires Disjoint(order, spare) && j < |order|
    ensures InRange(order) && InRange(order[..j] + order[j + 1..])
    ensures var r := order[j];
            var order', spare' := order[..j] + order[j + 1..], [r] + spare;
            var next' := (if j == 0 then next else next[order[j - 1] := next[r]])[r := frecs];
            && List(next', if j == 0 then next[r] else frhead, order', NULL)
            && List(next', r, spare', NULL)
            && Disjoint(order', spare')
  {
    ListInRange(next, frhead, order);
    OmitFacts(order, spare, j);
    hide List, Disjoint, Distinct;
    var r := order[j];
    var order' := order[..j] + order[j + 1..];
    var h := if j == 0 then next[r] else frhead;
    var mid := if j == 0 then next else next[order[j - 1] := next[r]];
    var next' := mid[r := frecs];
    if j == 0 {
      ListTail(next, frhead, order);
    } else {
      Unlink(next, frhead, order, j, NULL);
    }
    Frame(mid, next', h, order', NULL);
    Frame(next, next', frecs, spare, NULL);
    ListCons(next', r, spare);
  }

  lemma ListTail(next: seq<int>, h: int, s: seq<int>)
    requires List(next, h, s, NULL) && s != []
    ensures h == s[0] && 0 <= h < |next| && List(next, next[h], s[..0] + s[1..], NULL)
  {
    assert s[..0] + s[1..] == s[1..];
  }

  lemma ListCons(next: seq<int>, r: int, s: seq<int>)
    requires 0 <= r < |next| && List(next, next[r], s, NULL) && r !in s
    ensures List(next, r, [r] + s, NULL)
  {
    assert ([r] + s)[1..] == s;
  }

  lemma OmitFacts(order: seq<int>, spare: seq<int>, j: nat)
    requires j < |order| && Distinct(order) && Disjoint(order, spare)
    ensures var r, order' := order[j], order[..j] + order[j + 1..];
            && r !in order' && r !in spare && Disjoint(order', [r] + spare)
            && (forall x :: x in order' ==> x in order)
            && (j > 0 ==> order[j - 1] != r && order[j - 1] !in spare)
  {
    assert order[j] in order;
    assert j > 0 ==> order[j - 1] in order;
  }

  lemma {:induction false} InsLists(next: seq<int>, frhead: int, frecs: int, order: seq<int>, spare: seq<int>, p: nat)
    requires |next| == MAXBLKS && List(next, frhead, order, NULL) && List(next, frecs, spare, NULL)
    requires Disjoint(order, spare) && p <= |order| && frecs != NULL
    ensures InRange(order) && 0 <= frecs < MAXBLKS && frecs !in order && spare != []
    ensures var r := frecs;
            var order', spare' := order[..p] + [r] + order[p..], spare[1..];
            var next' := if p == 0 then next[r := frhead] else next[r := next[order[p - 1]]][order[p - 1] := r];
            && List(next', if p == 0 then r else frhead, order', NULL)
            && List(next', next[r], spare', NULL)
            && Disjoint(order', spare') && InRange(order')
  {
    ListInRange(next, frhead, order);
    ListInRange(next, frecs, spare);
    var r := frecs;
    assert r in spare && r !in order;
    var order', spare' := order[..p] + [r] + order[p..], spare[1..];
    assert r !in spare';
    if p == 0 {
      var next' := next[r := frhead];
      Frame(next, next', frhead, order, NULL);
      Frame(next, next', next[r], spare', NULL);
      assert order' == [r] + order && order'[1..] == order;
    } else {
      NextAt(next, frhead, order, NULL, p - 1);
      var mid := next[r := next[order[p - 1]]];
      Frame(next, mid, frhead, order, NULL);
      Links.Link(mid, frhead, order, p, r, NULL);
      assert order[p - 1] in order;
      Frame(next, mid[order[p - 1] := r], next[r], spare', NULL);
    }
    forall x | x in order' ensures x !in spare' {
      if x != r { assert x in order; }
    }
  }

  lemma {:induction false} ReadOmit(fbp: seq<int>, size: seq<int>, order: seq<int>, j: nat)
    requires |fbp| == |size| == MAXBLKS && InRange(order) && j < |order|
    ensures InRange(order[..j] + order[j + 1..])
    ensures Read(fbp, size, order[..j] + order[j + 1..])
            == Read(fbp, size, order)[..j] + Read(fbp, size, order)[j + 1..]
  {
  }

  lemma {:induction false} ReadInsert(fbp: seq<int>, size: seq<int>, order: seq<int>, p: nat, r: int, addr: nat,
                                      len: nat)
    requires |fbp| == |size| == MAXBLKS && InRange(order) && p <= |order| && 0 <= r < MAXBLKS && r !in order
    ensures InRange(order[..p] + [r] + order[p..])
    ensures Read(fbp[r := addr], size[r := len], order[..p] + [r] + order[p..])
            == Read(fbp, size, order)[..p] + [Block(addr, len)] + Read(fbp, size, order)[p..]
  {
    var order' := order[..p] + [r] + order[p..];
    var q, q' := Read(fbp, size, order), Read(fbp[r := addr], size[r := len], order');
    forall i | 0 <= i < |q'| ensures q'[i] == (q[..p] + [Block(addr, len)] + q[p..])[i] {
      if i < p {
        assert order'[i] == order[i];
      } else if i > p {
        assert order'[i] == order[i - 1];
      }
    }
  }

  lemma {:induction false} SpareChain(next: seq<int>, i: nat)
    requires |next| == MAXBLKS && 1 <= i < MAXBLKS
    requires forall k :: 1 <= k < MAXBLKS ==> next[k] == if k == MAXBLKS - 1 then NULL else k + 1
    ensures List(next, i, seq(MAXBLKS - i, k => k + i), NULL)
    decreases MAXBLKS - i
  {
    var s := seq(MAXBLKS - i, k => k + i);
    if i + 1 < MAXBLKS {
      SpareChain(next, i + 1);
      assert s[1..] == seq(MAXBLKS - (i + 1), k => k + (i + 1));
    } else {
      assert s[1..] == [];
    }
  }

  // ----- the heap

  /** Bytes of the size word in front of a block. */
  const WORD: nat := 4

  /** Every live tile has room for, and starts with, the size word that malloc
      stored. */
  ghost predicate Headed(ts: seq<Tile>, hdr: map<nat, int>) {
    ts != [] ==>
      && (ts[0].free || (ts[0].addr in hdr && AllocBytes(hdr[ts[0].addr]) == ts[0].len >= WORD))
      && Headed(ts[1..], hdr)
  }

  lemma {:induction false} HeadedAppend(a: seq<Tile>, b: seq<Tile>, hdr: map<nat, int>)
    ensures Headed(a + b, hdr) <==> Headed(a, hdr) && Headed(b, hdr)
  {
    if a == [] {
      assert a + b == b;
    } else {
      assert (a + b)[1..] == a[1..] + b;
      HeadedAppend(a[1..], b, hdr);
    }
  }

  lemma {:induction false} HeadedElsewhere(ts: seq<Tile>, lo: nat, hi: nat, hdr: map<nat, int>, x: nat, v: int)
    requires Tiling(ts, lo, hi) && Headed(ts, hdr) && (x < lo || x >= hi)
    ensures Headed(ts, hdr[x := v])
  {
    if ts != [] {
      Bounds(ts[1..], lo + ts[0].len, hi);
      HeadedElsewhere(ts[1..], lo + ts[0].len, hi, hdr, x, v);
    }
  }

  lemma {:induction false} HeadedCarve(a: seq<Tile>, t: Tile, b: seq<Tile>, n: nat, hdr: map<nat, int>, v: int,
                                       lo: nat, hi: nat)
    requires Tiling(a + [t] + b, lo, hi) && Headed(a + [t] + b, hdr) && n <= t.len && AllocBytes(v) == n
    ensures Headed(Carve(a, t, b, n), hdr[t.addr := v]) <==> n >= WORD
  {
    hide AllocBytes;
    var live, hdr' := Tile(t.addr, n, false), hdr[t.addr := v];
    TilingSplit(a, t, b, lo, hi);
    HeadedAppend(a + [t], b, hdr);
    HeadedAppend(a, [t], hdr);
    HeadedElsewhere(a, lo, t.addr, hdr, t.addr, v);
    HeadedElsewhere(b, t.addr + t.len, hi, hdr, t.addr, v);
    HeadedAppend(Rest(t, n), b, hdr');
    assert ([live] + Rest(t, n) + b)[1..] == Rest(t, n) + b;
    HeadedAppend(a, [live] + Rest(t, n) + b, hdr');
    if t.len != n { assert Rest(t, n)[1..] == []; }
  }

  /** A live block starts at x. */
  ghost predicate Live(ts: seq<Tile>, x: int) {
    exists k :: 0 <= k < |ts| && !ts[k].free && ts[k].addr == x
  }

  lemma {:induction false} NotLive(a: seq<Tile>, t: Tile, b: seq<Tile>, lo: nat, hi: nat)
    requires Tiling(a + [t] + b, lo, hi) && t.free
    ensures !Live(a + [t] + b, t.addr)
  {
    var ts := a + [t] + b;
    assert ts[|a|] == t;
    forall k | 0 <= k < |ts| && ts[k].addr == t.addr
      ensures ts[k].free
    {
      Within(ts, lo, hi, k);
      Within(ts, lo, hi, |a|);
      if k < |a| {
        Apart(ts, lo, hi, k, |a|);
      } else if k > |a| {
        Apart(ts, lo, hi, |a|, k);
      }
    }
  }

  lemma CarveLive(a: seq<Tile>, t: Tile, b: seq<Tile>, n: nat)
    requires n <= t.len
    ensures Live(Carve(a, t, b, n), t.addr)
  {
    assert Carve(a, t, b, n)[|a|] == Tile(t.addr, n, false);
  }

  ghost predicate IsTake(fl: seq<Block>, was: seq<Block>, j: nat, n: int) {
    j < |was| && n <= was[j].len && fl == Take(was, j, n)
  }

  /** A block of 1 to 3 bytes: its size word reaches into another tile. */
  lemma {:induction false} SizeWordSpills(a: seq<Tile>, t: Tile, b: seq<Tile>, n: nat)
    requires Tiling(a + [t] + b, 0, ARENA) && t.free && 0 < n <= t.len && n < WORD && t.addr + n < ARENA
    ensures var ts := Carve(a, t, b, n);
            exists k :: 0 <= k < |ts| && k != |a| && Holds(ts[k], t.addr + n)
  {
    TilingSplit(a, t, b, 0, ARENA);
    var ts := Carve(a, t, b, n);
    assert b != [] ==> b[0].addr == t.addr + t.len;
    assert ts[|a| + 1] == if n < t.len then Rest(t, n)[0] else b[0];
    assert Holds(ts[|a| + 1], t.addr + n);
  }

  /** A block of no bytes leaves the free list as it was, so the next request
      is given the same bytes; one of fewer than none puts the bytes in front
      of the entry on the free list, whoever owns them. */
  lemma {:induction false} EmptyGrab(a: seq<Tile>, t: Tile, b: seq<Tile>, n: int)
    requires Tiling(a + [t] + b, 0, ARENA) && t.free && n <= 0
    ensures var fl, j := Frees(a + [t] + b), |Frees(a)|;
            && j < |fl| && fl[j] == Block(t.addr, t.len)
            && (n == 0 ==> Take(fl, j, n) == fl)
            && (n < 0 ==> Take(fl, j, n)[j].addr <= t.addr - 1 < End(Take(fl, j, n)[j]))
  {
    TilingSplit(a, t, b, 0, ARENA);
    CarveFrees(a, t, b, 0);
  }

  lemma {:induction false} HeadedRelease(a: seq<Tile>, t: Tile, b: seq<Tile>, hdr: map<nat, int>)
    requires Headed(a + [t] + b, hdr)
    ensures Headed(Release(a, t, b), hdr)
    ensures !t.free ==> t.addr in hdr && AllocBytes(hdr[t.addr]) == t.len
  {
    hide AllocBytes;
    HeadedAppend(a + [t], b, hdr);
    HeadedAppend(a, [t], hdr);
    var left, right := a != [] && a[|a| - 1].free, b != [] && b[0].free;
    var a', b' := if left then a[..|a| - 1] else a, if right then b[1..] else b;
    if left {
      assert a == a' + [a[|a| - 1]];
      HeadedAppend(a', [a[|a| - 1]], hdr);
    }
    var m := Tile(if left then a[|a| - 1].addr else t.addr,
                  (if left then a[|a| - 1].len else 0) + t.len + (if right then b[0].len else 0), true);
    HeadedAppend(a', [m], hdr);
    HeadedAppend(a' + [m], b', hdr);
  }

  /** The place of a live tile in the free list: behind everything free before
      it, in front of everything free after it. */
  lemma {:induction false} FreePosition(a: seq<Tile>, t: Tile, b: seq<Tile>, lo: nat, hi: nat)
    requires Tiling(a + [t] + b, lo, hi) && Coalesced(a + [t] + b) && !t.free
    ensures forall i :: 0 <= i < |Frees(a)| ==> Frees(a)[i].addr < t.addr
    ensures Frees(b) != [] ==> Frees(b)[0].addr > t.addr
  {
    TilingSplit(a, t, b, lo, hi);
    FreesBelow(a, lo, t.addr);
    CoalescedAppend(a + [t], b);
    FreesSeparated(b, t.addr + t.len, hi);
  }

  lemma {:induction false} FreesBelow(a: seq<Tile>, lo: nat, mid: nat)
    requires Tiling(a, lo, mid)
    ensures forall i :: 0 <= i < |Frees(a)| ==> Frees(a)[i].addr < mid
  {
    if a != [] {
      Bounds(a[1..], lo + a[0].len, mid);
      FreesBelow(a[1..], lo + a[0].len, mid);
      assert a[0].free ==> Frees(a) == [Block(a[0].addr, a[0].len)] + Frees(a[1..]);
    }
  }

  /** free finds a spare record whenever at most MAXBLKS - 2 blocks are live. */
  lemma {:induction false} SpareRecordLeft(ts: seq<Tile>)
    requires Coalesced(ts) && Lives(ts) <= MAXBLKS - 2
    ensures |Frees(ts)| < MAXBLKS
  {
    FreesAtMostLives(ts);
  }

  class Heap {
    const recs: Records
    var hdr: map<nat, int>
    ghost var ts: seq<Tile>

    ghost predicate Valid()
      reads this, recs, recs.fbp, recs.size, recs.next
    {
      && recs.Valid()
      && Tiling(ts, 0, ARENA)
      && Coalesced(ts)
      && recs.fl == Frees(ts)
      && Headed(ts, hdr)
    }

    constructor ()
      ensures Valid() && fresh(recs) && fresh(recs.fbp) && fresh(recs.size) && fresh(recs.next)
      ensures ts == [Tile(0, ARENA, true)]
    {
      recs := new Records();
      hdr := map[];
      ts := [Tile(0, ARENA, true)];
      new;
      assert ts[1..] == [];
    }

    /** The first free-list entry with at least n bytes (|fl| if there is none). */
    method FirstFit(n: int) returns (prev: int, r: int, ghost j: nat)
      requires recs.Valid()
      ensures j <= |recs.fl| == |recs.order|
      ensures forall i :: 0 <= i < j ==> recs.fl[i].len < n
      ensures j < |recs.fl| ==> recs.fl[j].len >= n && r == recs.order[j] && (j > 0 ==> prev == recs.order[j - 1])
      ensures r == NULL <==> j == |recs.fl|
      ensures r == NULL <==> forall i :: 0 <= i < |recs.fl| ==> recs.fl[i].len < n
    {
      recs.AtHead();
      prev, r, j := recs.frhead, recs.frhead, 0;
      ghost var fl, order := recs.fl, recs.order;
      Positive(recs);
      while r != NULL
        invariant j <= |fl| == |order|
        invariant r == (if j < |fl| then order[j] else NULL)
        invariant j > 0 ==> prev == order[j - 1]
        invariant forall i :: 0 <= i < j ==> fl[i].len < n
        decreases |fl| - j
      {
        recs.At(j);
        if recs.size[r] >= n { return; }
        prev, r, j := r, recs.next[r], j + 1;
      }
    }

    /** Returns the payload address, NULL if no entry has the n bytes it looks
        for. For every size, wrapped or negative, the heap stays valid and the
        block is live in it iff the block holds its size word. */
    method Malloc(size: int) returns (p: int, n: int, ghost a: seq<Tile>, ghost t: Tile, ghost b: seq<Tile>)
      requires Valid() && Int32(size)
      modifies this, recs, recs.fbp, recs.size, recs.next
      ensures n == Signed(size + 15, 0x1000_0000)
      ensures p == NULL ==> Valid() && ts == old(ts) && forall i :: 0 <= i < |Frees(ts)| ==> Frees(ts)[i].len < n
      ensures p != NULL ==>
                && old(ts) == a + [t] + b && t.free && n <= t.len && p == t.addr + 8
                && forall i :: 0 <= i < |Frees(a)| ==> Frees(a)[i].len < n
      ensures recs.Valid() && (p != NULL ==> IsTake(recs.fl, old(recs.fl), |Frees(a)|, n))
      ensures p != NULL && n <= 0 ==> ts == old(ts)
      ensures p != NULL && n > 0 ==> ts == Carve(a, t, b, n) && Lives(ts) == Lives(old(ts)) + 1
      ensures p != NULL ==> (Valid() && Live(ts, p - 8) <==> n >= WORD)
    {
      hide List, Read, Tiling, Coalesced, Headed, Frees, Lives, Live;
      var sz := Wrap(size + 8);
      BlockLength(size);
      n := AllocBytes(sz);
      hide AllocBytes, Wrap, Signed;
      var prev, r, j := FirstFit(n);
      if r == NULL {
        a, t, b := [], Tile(0, 0, false), [];
        return NULL, n, a, t, b;
      }
      a, t, b := FindFree(ts, j);
      FrontOfFrees(a, t, b);
      NotLive(a, t, b, 0, ARENA);
      recs.At(j);
      var frstart := recs.fbp[r];
      if n > 0 {
        CarveFrees(a, t, b, n);
        CarveTiling(a, t, b, n, 0, ARENA);
        CarveCoalesced(a, t, b, n);
        HeadedCarve(a, t, b, n, hdr, sz, 0, ARENA);
        CarveLive(a, t, b, n);
      }
      Shrink(prev, r, n, j);
      hdr := hdr[frstart := sz];
      if n > 0 { ts := Carve(a, t, b, n); }
      p := frstart + 8;
    }

    /** Take n bytes off the front of entry j, record r, dropping it if empty. */
    method Shrink(prev: int, r: int, n: int, ghost j: nat)
      requires recs.Valid() && j < |recs.fl| == |recs.order| && r == recs.order[j] && n <= recs.fl[j].len
      requires j > 0 ==> prev == recs.order[j - 1]
      modifies recs, recs.fbp, recs.size, recs.next
      ensures recs.Valid() && recs.fl == Take(old(recs.fl), j, n)
    {
      hide List, Read;
      recs.At(j);
      ghost var fl0 := recs.fl;
      recs.SetBlock(r, recs.fbp[r] + n, recs.size[r] - n, j);
      recs.At(j);
      if recs.size[r] != 0 { return; }
      recs.DelRecord(prev, r, j);
    }

    /** free of the live block t: false when it exits for want of a record. */
    method Free(p: int, ghost a: seq<Tile>, ghost t: Tile, ghost b: seq<Tile>) returns (ok: bool)
      requires Valid() && ts == a + [t] + b && !t.free && p == t.addr + 8
      modifies this, recs, recs.fbp, recs.size, recs.next
      ensures Valid()
      ensures ok <==> |Frees(old(ts))| < MAXBLKS
      ensures Lives(old(ts)) <= MAXBLKS - 2 ==> ok
      ensures !ok ==> ts == old(ts)
      ensures ok ==> ts == Release(a, t, b) && Lives(ts) == Lives(old(ts)) - 1
    {
      hide List, Read, Tiling, Coalesced, Headed, Frees, AllocBytes;
      HeadedRelease(a, t, b, hdr);
      ReleaseFrees(a, t, b, 0, ARENA);
      ReleaseTiling(a, t, b, 0, ARENA);
      ReleaseCoalesced(a, t, b);
      FreePosition(a, t, b, 0, ARENA);
      if Lives(ts) <= MAXBLKS - 2 { SpareRecordLeft(ts); }
      var addr := p - 8;
      var size := hdr[addr];
      SpareLeft();
      if recs.frecs == NULL {
        return false;
      }
      Reinsert(addr, AllocBytes(size), Frees(a), Frees(b));
      ts := Release(a, t, b);
      ok := true;
    }

    lemma SpareLeft()
      requires recs.Valid()
      ensures recs.frecs == NULL <==> |recs.fl| == MAXBLKS
    {
    }

    /** The record after which a block at addr belongs (NULL for the front). */
    method FindPlace(addr: nat, ghost fa: seq<Block>, ghost fb: seq<Block>) returns (prev: int)
      requires recs.Valid() && recs.fl == fa + fb
      requires forall i :: 0 <= i < |fa| ==> fa[i].addr < addr
      requires fb != [] ==> fb[0].addr > addr
      ensures |fa| <= |recs.order| && prev == if fa == [] then NULL else recs.order[|fa| - 1]
    {
      hide List, Read, Records.Valid;
      recs.AtHead();
      ghost var p: nat := 0;
      var r := recs.frhead;
      prev := NULL;
      Positive(recs);
      while r != NULL && addr > recs.fbp[r]
        invariant p <= |fa + fb| == |recs.order| && p <= |fa|
        invariant r == (if p < |fa + fb| then recs.order[p] else NULL)
        invariant prev == (if p == 0 then NULL else recs.order[p - 1])
        decreases |fa + fb| - p
      {
        recs.At(p);
        Side(fa, fb, addr, p);
        prev, r, p := r, recs.next[r], p + 1;
      }
      if r != NULL {
        recs.At(p);
        Side(fa, fb, addr, p);
      }
    }

    /** Find the place of the freed block, insert its record and merge. */
    method Reinsert(addr: nat, len: nat, ghost fa: seq<Block>, ghost fb: seq<Block>)
      requires recs.Valid() && recs.frecs != NULL && recs.fl == fa + fb
      requires forall i :: 0 <= i < |fa| ==> fa[i].addr < addr
      requires fb != [] ==> fb[0].addr > addr
      modifies recs, recs.fbp, recs.size, recs.next
      ensures recs.Valid() && recs.fl == InsertMerge(fa + fb, |fa|, Block(addr, len))
    {
      hide List, Read, Records.Valid;
      var prev := FindPlace(addr, fa, fb);
      recs.AtHead();
      Positive(recs);
      var r := recs.Insert(prev, addr, len, |fa|);
      recs.MergeRecords(if prev == NULL then r else prev, if fa == [] then 0 else |fa| - 1);
    }
  }

  /** Entry p lies on one side of `addr` or the other. */
  lemma Side(fa: seq<Block>, fb: seq<Block>, addr: nat, p: nat)
    requires p < |fa + fb| && p <= |fa|
    requires forall i :: 0 <= i < |fa| ==> fa[i].addr < addr
    requires fb != [] ==> fb[0].addr > addr
    ensures (fa + fb)[p].addr < addr <==> p < |fa|
    ensures (fa + fb)[p].addr > addr <==> p == |fa|
  {
  }

  lemma Positive(recs: Records)
    requires recs.Valid()
    ensures recs.fbp.Length == MAXBLKS == recs.next.Length
    ensures forall i :: 0 <= i < |recs.order| ==> 0 <= recs.order[i] < MAXBLKS
  {
  }

  lemma {:induction false} FrontOfFrees(a: seq<Tile>, t: Tile, b: seq<Tile>)
    requires t.free
    ensures var fl := Frees(a + [t] + b);
            |Frees(a)| < |fl| && forall i :: 0 <= i < |Frees(a)| ==> Frees(a)[i] == fl[i]
  {
    FreesSplit(a, t, b);
  }
}
