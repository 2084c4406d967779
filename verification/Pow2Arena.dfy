/** All blocks of the power-of-two allocator: one tiled row per chunk. */
module Pow2Arena {
  import opened Pow2Blocks

  /** Chunks are page-aligned and disjoint, and row c tiles chunk c. */
  ghost predicate Chunked(rows: seq<seq<Block>>, chunks: seq<nat>) {
    && |rows| == |chunks|
    && (forall c :: 0 <= c < |chunks| ==> chunks[c] % 4096 == 0 && Tiled(rows[c], chunks[c], chunks[c] + CHUNK))
    && (forall c, d :: 0 <= c < d < |chunks| ==> Disjoint(chunks[c], chunks[d]))
  }

  predicate Disjoint(x: nat, y: nat) {
    x + CHUNK <= y || y + CHUNK <= x
  }

  ghost function All(rows: seq<seq<Block>>): multiset<Block> {
    if rows == [] then multiset{} else multiset(rows[0]) + All(rows[1..])
  }

  lemma {:induction false} Locate(rows: seq<seq<Block>>, b: Block) returns (c: nat, k: nat)
    requires b in All(rows)
    ensures c < |rows| && k < |rows[c]| && rows[c][k] == b
  {
    if b in multiset(rows[0]) {
      assert b in rows[0];
      c := 0;
      k :| 0 <= k < |rows[0]| && rows[0][k] == b;
    } else {
      var c', k' := Locate(rows[1..], b);
      c, k := c' + 1, k';
    }
  }

  lemma {:induction false} Member(rows: seq<seq<Block>>, c: nat, k: nat)
    requires c < |rows| && k < |rows[c]|
    ensures rows[c][k] in All(rows)
  {
    if c == 0 {
      assert rows[0][k] in multiset(rows[0]);
    } else {
      Member(rows[1..], c - 1, k);
    }
  }

  lemma {:induction false} AllUpdate(rows: seq<seq<Block>>, c: nat, r: seq<Block>)
    requires c < |rows|
    ensures All(rows[c := r]) + multiset(rows[c]) == All(rows) + multiset(r)
    decreases c
  {
    if c == 0 {
      assert rows[0 := r][1..] == rows[1..];
    } else {
      assert rows[c := r][1..] == rows[1..][c - 1 := r];
      AllUpdate(rows[1..], c - 1, r);
      assert All(rows[c := r]) + multiset(rows[c])
             == multiset(rows[0]) + (All(rows[1..][c - 1 := r]) + multiset(rows[1..][c - 1]));
      assert All(rows) + multiset(r) == multiset(rows[0]) + (All(rows[1..]) + multiset(r));
    }
  }

  lemma Exchange(a: multiset<Block>, a': multiset<Block>, m: multiset<Block>, r: multiset<Block>,
                 b: multiset<Block>, h: multiset<Block>)
    requires a' + m == a + r && r + b == m + h
    ensures a' + b == a + h
  {
    forall x: Block ensures (a' + b)[x] == (a + h)[x] {
      assert (a' + m)[x] == (a + r)[x] && (r + b)[x] == (m + h)[x];
    }
  }

  lemma {:induction false} AllAppend(rows: seq<seq<Block>>, r: seq<Block>)
    ensures All(rows + [r]) == All(rows) + multiset(r)
  {
    if rows == [] {
      assert rows + [r] == [r];
      assert [r][1..] == [];
    } else {
      assert (rows + [r])[1..] == rows[1..] + [r];
      AllAppend(rows[1..], r);
    }
  }

  /** Halving any block keeps the rows tiled. */
  lemma {:induction false} HalveAny(rows: seq<seq<Block>>, chunks: seq<nat>, b: Block) returns (rows': seq<seq<Block>>)
    requires Chunked(rows, chunks) && b in All(rows) && b.index > MIN_POW
    ensures Chunked(rows', chunks)
    ensures All(rows') + multiset{b}
            == All(rows) + multiset{Block(b.ptr, b.index - 1), Block(b.ptr + Pow(b.index - 1), b.index - 1)}
  {
    hide Tiled, Pow, Halve, All;
    var c, k := Locate(rows, b);
    var r := Halve(rows[c], k);
    HalveTiled(rows[c], chunks[c], chunks[c] + CHUNK, k);
    HalveBlocks(rows[c], k);
    AllUpdate(rows, c, r);
    rows' := rows[c := r];
    Exchange(All(rows), All(rows'), multiset(rows[c]), multiset(r), multiset{b},
             multiset{Block(b.ptr, b.index - 1), Block(b.ptr + Pow(b.index - 1), b.index - 1)});
  }

  /** A fresh chunk is one block of the largest size. */
  lemma {:induction false} AddChunk(rows: seq<seq<Block>>, chunks: seq<nat>, x: nat)
    requires Chunked(rows, chunks) && x % 4096 == 0 && forall c :: 0 <= c < |chunks| ==> Disjoint(chunks[c], x)
    ensures Chunked(rows + [[Block(x, MAX_POW)]], chunks + [x])
    ensures All(rows + [[Block(x, MAX_POW)]]) == All(rows) + multiset{Block(x, MAX_POW)}
  {
    var r := [Block(x, MAX_POW)];
    PowValues();
    assert r[1..] == [];
    assert Tiled(r, x, x + CHUNK);
    AllAppend(rows, r);
    hide Tiled, Pow;
  }

  // ----- what the rows mean

  lemma {:induction false} InChunk(rows: seq<seq<Block>>, chunks: seq<nat>, b: Block) returns (c: nat)
    requires Chunked(rows, chunks) && b in All(rows)
    ensures c < |chunks| && chunks[c] <= b.ptr && b.ptr + Pow(b.index) <= chunks[c] + CHUNK
    ensures MIN_POW <= b.index <= MAX_POW && b.ptr % 32 == 0
  {
    hide Tiled, Pow;
    var c', k := Locate(rows, b);
    c := c';
    TiledWithin(rows[c], chunks[c], chunks[c] + CHUNK, k);
    Mod32(chunks[c]);
    TiledAligned(rows[c], chunks[c], chunks[c] + CHUNK, k);
  }

  lemma Mod32(x: nat)
    requires x % 4096 == 0
    ensures x % 32 == 0
  {
    assert x == 4096 * (x / 4096);
  }

  /** Different blocks share no byte. */
  lemma {:induction false} BlocksApart(rows: seq<seq<Block>>, chunks: seq<nat>, a: Block, b: Block)
    requires Chunked(rows, chunks) && a in All(rows) && b in All(rows) && a != b
    ensures a.ptr + Pow(a.index) <= b.ptr || b.ptr + Pow(b.index) <= a.ptr
  {
    hide Tiled, Pow;
    var c, j := Locate(rows, a);
    var d, k := Locate(rows, b);
    TiledWithin(rows[c], chunks[c], chunks[c] + CHUNK, j);
    TiledWithin(rows[d], chunks[d], chunks[d] + CHUNK, k);
    if c == d {
      if j < k { TiledApart(rows[c], chunks[c], chunks[c] + CHUNK, j, k); }
      else { TiledApart(rows[c], chunks[c], chunks[c] + CHUNK, k, j); }
    } else {
      assert Disjoint(chunks[if c < d then c else d], chunks[if c < d then d else c]);
    }
  }

  /** Every byte of every chunk lies in a block. */
  lemma {:induction false} BytesCovered(rows: seq<seq<Block>>, chunks: seq<nat>, c: nat, x: nat) returns (b: Block)
    requires Chunked(rows, chunks) && c < |chunks| && chunks[c] <= x < chunks[c] + CHUNK
    ensures b in All(rows) && Has(b, x)
  {
    TiledCovers(rows[c], chunks[c], chunks[c] + CHUNK, x);
    var k :| 0 <= k < |rows[c]| && Has(rows[c][k], x);
    b := rows[c][k];
    Member(rows, c, k);
  }

  /** No block is listed twice. */
  lemma {:induction false} BlocksOnce(rows: seq<seq<Block>>, chunks: seq<nat>, b: Block)
    requires Chunked(rows, chunks)
    ensures All(rows)[b] <= 1
  {
    if rows != [] {
      assert Chunked(rows[1..], chunks[1..]) by {
        assert forall c :: 0 <= c < |chunks[1..]| ==> chunks[1..][c] == chunks[c + 1] && rows[1..][c] == rows[c + 1];
      }
      BlocksOnce(rows[1..], chunks[1..], b);
      TiledOnce(rows[0], chunks[0], chunks[0] + CHUNK, b);
      assert forall d :: 0 < d < |chunks| ==> Disjoint(chunks[0], chunks[d]);
      if b in multiset(rows[0]) && b in All(rows[1..]) {
        var k :| 0 <= k < |rows[0]| && rows[0][k] == b;
        TiledWithin(rows[0], chunks[0], chunks[0] + CHUNK, k);
        var c := InChunk(rows[1..], chunks[1..], b);
        assert false;
      }
    }
  }

  lemma {:induction false} TiledOnce(bs: seq<Block>, lo: nat, hi: nat, b: Block)
    requires Tiled(bs, lo, hi)
    ensures multiset(bs)[b] <= 1
  {
    if bs != [] {
      assert bs == [bs[0]] + bs[1..];
      TiledOnce(bs[1..], lo + Pow(bs[0].index), hi, b);
      if b == bs[0] && b in multiset(bs[1..]) {
        var k :| 0 <= k < |bs[1..]| && bs[1..][k] == b;
        TiledWithin(bs[1..], lo + Pow(bs[0].index), hi, k);
        assert false;
      }
    }
  }
}
