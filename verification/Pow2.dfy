/** The kernel's power-of-two allocator: free blocks in one header chain per
    size, used blocks in a growing table of descriptors. */
module Pow2 {
  import opened Pow2Blocks
  import opened Pow2Arena
  import opened HeaderChain

  const PAGE_WORDS: nat := 0x400

  ghost function Decoded(ds: seq<nat>): (m: multiset<Block>)
    ensures |m| == |ds|
  {
    if ds == [] then multiset{} else Decoded(ds[..|ds| - 1]) + multiset{Decode(ds[|ds| - 1])}
  }

  lemma {:induction false} DecodedAppend(a: seq<nat>, b: seq<nat>)
    ensures Decoded(a + b) == Decoded(a) + Decoded(b)
    decreases |b|
  {
    if b == [] {
      assert a + b == a;
    } else {
      assert (a + b)[..|a + b| - 1] == a + b[..|b| - 1];
      DecodedAppend(a, b[..|b| - 1]);
    }
  }

  /** Moving the last descriptor into slot i and dropping the last slot removes
      exactly descriptor i. */
  lemma {:induction false} DecodedRemove(ds: seq<nat>, i: nat)
    requires i < |ds|
    ensures var n := |ds| - 1;
            Decoded(ds[i := ds[n]][..n]) + multiset{Decode(ds[i])} == Decoded(ds)
  {
    var n := |ds| - 1;
    var r := ds[i := ds[n]][..n];
    if i == n {
      assert r == ds[..n];
    } else {
      assert ds == ds[..i] + [ds[i]] + ds[i + 1..n] + [ds[n]];
      assert r == ds[..i] + [ds[n]] + ds[i + 1..n];
      DecodedThree(ds[..i], ds[n], ds[i + 1..n]);
      DecodedThree(ds[..i], ds[i], ds[i + 1..n]);
      DecodedAppend(ds[..i] + [ds[i]] + ds[i + 1..n], [ds[n]]);
      DecodedOne(ds[n]);
      hide Decoded, Decode;
    }
  }

  lemma DecodedOne(d: nat)
    ensures Decoded([d]) == multiset{Decode(d)}
  {
    assert [d][..0] == [];
  }

  lemma {:induction false} DecodedThree(a: seq<nat>, d: nat, b: seq<nat>)
    ensures Decoded(a + [d] + b) == Decoded(a) + multiset{Decode(d)} + Decoded(b)
  {
    hide Decode;
    DecodedAppend(a + [d], b);
    DecodedAppend(a, [d]);
    DecodedOne(d);
  }

  lemma {:induction false} DecodedMember(ds: seq<nat>, i: nat)
    requires i < |ds|
    ensures Decode(ds[i]) in Decoded(ds)
    decreases |ds|
  {
    if i < |ds| - 1 { DecodedMember(ds[..|ds| - 1], i); }
  }

  lemma {:induction false} DecodedFind(ds: seq<nat>, b: Block) returns (i: nat)
    requires b in Decoded(ds)
    ensures i < |ds| && Decode(ds[i]) == b
    decreases |ds|
  {
    var n := |ds| - 1;
    if Decode(ds[n]) == b {
      i := n;
    } else {
      i := DecodedFind(ds[..n], b);
    }
  }

  class UsedTable {
    var words: array<nat>
    var count: nat

    ghost predicate Valid()
      reads this, words
    {
      count <= words.Length && words.Length > 0 && words.Length % PAGE_WORDS == 0
    }

    ghost function Descriptors(): seq<nat>
      requires Valid()
      reads this, words
    {
      words[..count]
    }

    constructor ()
      ensures Valid() && fresh(words) && Descriptors() == []
    {
      words := new nat[PAGE_WORDS];
      count := 0;
    }

    /** pow2_insert_used_table: one more page, copied over, when full. */
    method Insert(d: nat)
      requires Valid()
      modifies this, words
      ensures Valid() && Descriptors() == old(Descriptors()) + [d]
      ensures words == old(words) || fresh(words)
    {
      if count >= words.Length {
        var virt := new nat[words.Length + PAGE_WORDS];
        var i := 0;
        while i < count
          invariant count == old(count) && words == old(words) && words[..] == old(words[..])
          invariant 0 <= i <= count && virt[..i] == words[..i]
        {
          virt[i] := words[i];
          i := i + 1;
        }
        words := virt;
      }
      words[count] := d;
      count := count + 1;
    }

    /** pow2_remove_used_table: the index of the first descriptor of `ptr`, or
        -1; its slot is filled with the last descriptor. */
    method Remove(ptr: nat) returns (index: int)
      requires Valid()
      modifies this, words
      ensures Valid() && words == old(words)
      ensures index == -1 ==>
                Descriptors() == old(Descriptors())
                && forall b :: b in Decoded(Descriptors()) ==> b.ptr != ptr
      ensures index != -1 ==>
                index >= 0 && Decoded(old(Descriptors())) == Decoded(Descriptors()) + multiset{Block(ptr, index)}
    {
      hide Decoded;
      ghost var ds := Descriptors();
      var i := 0;
      while i < count
        invariant 0 <= i <= count && Valid() && Descriptors() == ds
        invariant count == old(count) && words == old(words) && words[..] == old(words[..])
        invariant forall k :: 0 <= k < i ==> Decode(ds[k]).ptr != ptr
      {
        if ptr == words[i] - words[i] % 32 {
          index := words[i] % 32;
          DecodedRemove(ds, i);
          count := count - 1;
          words[i] := words[count];
          words[count] := 0;
          assert words[..count] == ds[i := ds[|ds| - 1]][..|ds| - 1];
          return;
        }
        assert Decode(ds[i]).ptr != ptr;
        i := i + 1;
      }
      forall b | b in Decoded(ds) ensures b.ptr != ptr {
        var k := DecodedFind(ds, b);
      }
      return -1;
    }
  }

  /** `free` counts exactly the pointers on the stacks, with their sizes. */
  ghost predicate Matches(free: multiset<Block>, stacks: seq<seq<nat>>) {
    && |stacks| == MAX_POW - MIN_POW + 1
    && forall b: Block :: free[b] == CountOn(stacks, b)
  }

  ghost function CountOn(stacks: seq<seq<nat>>, b: Block): nat {
    if MIN_POW <= b.index < MIN_POW + |stacks| then multiset(stacks[b.index - MIN_POW])[b.ptr] else 0
  }

  lemma {:induction false} MatchesPush(free: multiset<Block>, stacks: seq<seq<nat>>, b: Block)
    requires Matches(free, stacks) && MIN_POW <= b.index <= MAX_POW
    ensures var i := b.index - MIN_POW;
            Matches(free + multiset{b}, stacks[i := stacks[i] + [b.ptr]])
  {
    var i := b.index - MIN_POW;
    var stacks' := stacks[i := stacks[i] + [b.ptr]];
    forall c: Block ensures (free + multiset{b})[c] == CountOn(stacks', c) {
      assert free[c] == CountOn(stacks, c);
    }
  }

  lemma {:induction false} MatchesPop(free: multiset<Block>, stacks: seq<seq<nat>>, b: Block, rest: seq<nat>)
    requires Matches(free, stacks) && MIN_POW <= b.index <= MAX_POW && stacks[b.index - MIN_POW] == rest + [b.ptr]
    ensures b in free && Matches(free - multiset{b}, stacks[b.index - MIN_POW := rest])
  {
    var stacks' := stacks[b.index - MIN_POW := rest];
    assert free[b] == CountOn(stacks, b) >= 1;
    forall c: Block ensures (free - multiset{b})[c] == CountOn(stacks', c) {
      assert free[c] == CountOn(stacks, c);
    }
  }

  /** Free blocks, used blocks and the blocks `held` by an operation in progress
      are together exactly the blocks that tile the chunks. */
  ghost predicate Balanced(free: multiset<Block>, stacks: seq<seq<nat>>, ds: seq<nat>, held: multiset<Block>,
                           rows: seq<seq<Block>>, chunks: seq<nat>)
  {
    && Matches(free, stacks)
    && Chunked(rows, chunks)
    && free + Decoded(ds) + held == All(rows)
  }

  lemma {:induction false} BalancedPush(free: multiset<Block>, stacks: seq<seq<nat>>, ds: seq<nat>,
                                        held: multiset<Block>,
                                        rows: seq<seq<Block>>, chunks: seq<nat>, b: Block)
    requires Balanced(free, stacks, ds, held + multiset{b}, rows, chunks) && MIN_POW <= b.index <= MAX_POW
    ensures |stacks| == MAX_POW - MIN_POW + 1
    ensures var i := b.index - MIN_POW;
            Balanced(free + multiset{b}, stacks[i := stacks[i] + [b.ptr]], ds, held, rows, chunks)
  {
    MatchesPush(free, stacks, b);
    hide Chunked, Matches, All, Decoded;
    Regroup(free, Decoded(ds), held, b);
  }

  lemma {:induction false} BalancedPop(free: multiset<Block>, stacks: seq<seq<nat>>, ds: seq<nat>,
                                       rows: seq<seq<Block>>, chunks: seq<nat>, b: Block, rest: seq<nat>)
    requires Balanced(free, stacks, ds, multiset{}, rows, chunks)
    requires MIN_POW <= b.index <= MAX_POW && |stacks| == MAX_POW - MIN_POW + 1
    requires stacks[b.index - MIN_POW] == rest + [b.ptr]
    ensures Balanced(free - multiset{b}, stacks[b.index - MIN_POW := rest], ds, multiset{b}, rows, chunks)
  {
    MatchesPop(free, stacks, b, rest);
    hide Chunked, Matches, All, Decoded;
    assert free == (free - multiset{b}) + multiset{b};
    Regroup(free - multiset{b}, Decoded(ds), multiset{}, b);
  }

  lemma {:induction false} BalancedHalve(free: multiset<Block>, stacks: seq<seq<nat>>, ds: seq<nat>,
                                         rows: seq<seq<Block>>, chunks: seq<nat>, ptr: nat, index: nat)
    returns (rows': seq<seq<Block>>)
    requires MIN_POW <= index < MAX_POW && Balanced(free, stacks, ds, multiset{Block(ptr, index + 1)}, rows, chunks)
    ensures Balanced(free, stacks, ds, multiset{Block(ptr + Pow(index), index)} + multiset{Block(ptr, index)},
                     rows', chunks)
  {
    hide Chunked, Matches, All, Decoded, Pow;
    var b, l, r := Block(ptr, index + 1), Block(ptr, index), Block(ptr + Pow(index), index);
    var m := free + Decoded(ds);
    assert b in m + multiset{b};
    rows' := HalveAny(rows, chunks, b);
    Cancel(m, b, multiset{l, r}, All(rows'));
    assert multiset{r} + multiset{l} == multiset{l, r};
  }

  lemma {:induction false} BalancedChunk(free: multiset<Block>, stacks: seq<seq<nat>>, ds: seq<nat>,
                                         rows: seq<seq<Block>>, chunks: seq<nat>, x: nat)
    requires Balanced(free, stacks, ds, multiset{}, rows, chunks) && x % 4096 == 0
    requires forall c :: 0 <= c < |chunks| ==> Disjoint(chunks[c], x)
    ensures Balanced(free, stacks, ds, multiset{Block(x, MAX_POW)}, rows + [[Block(x, MAX_POW)]], chunks + [x])
  {
    AddChunk(rows, chunks, x);
    hide Chunked, Matches, All, Decoded;
  }

  /** The held block becomes used. */
  lemma {:induction false} BalancedUse(free: multiset<Block>, stacks: seq<seq<nat>>, ds: seq<nat>,
                                       rows: seq<seq<Block>>, chunks: seq<nat>, b: Block)
    requires Balanced(free, stacks, ds, multiset{b}, rows, chunks)
    ensures Balanced(free, stacks, ds + [Describe(b)], multiset{}, rows, chunks)
    ensures Decoded(ds + [Describe(b)]) == Decoded(ds) + multiset{b}
  {
    hide Chunked, Matches, All, Decoded;
    assert b in free + Decoded(ds) + multiset{b};
    var c := InChunk(rows, chunks, b);
    DescribeDecodes(b);
    DecodedAppend(ds, [Describe(b)]);
    DecodedOne(Describe(b));
    assert free + (Decoded(ds) + multiset{b}) + multiset{} == free + Decoded(ds) + multiset{b};
  }

  /** A used block becomes held; it was used with that size only. */
  lemma {:induction false} BalancedUnuse(free: multiset<Block>, stacks: seq<seq<nat>>, ds: seq<nat>, ds': seq<nat>,
                                         rows: seq<seq<Block>>, chunks: seq<nat>, b: Block)
    requires Balanced(free, stacks, ds, multiset{}, rows, chunks) && Decoded(ds) == Decoded(ds') + multiset{b}
    ensures Balanced(free, stacks, ds', multiset{} + multiset{b}, rows, chunks)
    ensures MIN_POW <= b.index <= MAX_POW
    ensures forall i :: Block(b.ptr, i) in Decoded(ds) ==> i == b.index
    ensures Decoded(ds') == Decoded(ds) - multiset{b}
  {
    hide Chunked, Matches, All, Decoded;
    assert b in free + Decoded(ds) + multiset{};
    var c := InChunk(rows, chunks, b);
    OneSize(rows, chunks, free + Decoded(ds) + multiset{}, Decoded(ds), b.ptr, b.index);
    assert free + Decoded(ds') + (multiset{} + multiset{b}) == free + Decoded(ds) + multiset{};
  }

  /** One chain of header pages per block size. */
  class FreeTable {
    const chains: seq<Chain>
    ghost var stacks: seq<seq<nat>>

    ghost predicate Valid()
      reads this, chains
    {
      && |chains| == |stacks| == MAX_POW - MIN_POW + 1
      && (forall i, j :: 0 <= i < j < |chains| ==> chains[i] != chains[j])
      && (forall i :: 0 <= i < |chains| ==> chains[i].Valid() && stacks[i] == chains[i].Stack())
    }

    constructor ()
      ensures Valid() && (forall i :: 0 <= i < |chains| ==> fresh(chains[i]))
      ensures forall i :: 0 <= i < |stacks| ==> stacks[i] == []
    {
      hide WellFormed, Flat;
      var t: seq<Chain> := [];
      var i := 0;
      while i < MAX_POW - MIN_POW + 1
        invariant |t| == i <= MAX_POW - MIN_POW + 1
        invariant forall k :: 0 <= k < |t| ==> fresh(t[k]) && t[k].Valid() && t[k].Stack() == []
        invariant forall j, k :: 0 <= j < k < |t| ==> t[j] != t[k]
      {
        var c := new Chain();
        t := t + [c];
        i := i + 1;
      }
      chains := t;
      stacks := seq(MAX_POW - MIN_POW + 1, _ => []);
    }

    method IsEmpty(i: nat) returns (e: bool)
      requires Valid() && i < |stacks|
      ensures e == (stacks[i] == [])
    {
      e := chains[i].IsEmpty();
    }

    method Push(i: nat, ptr: nat)
      requires Valid() && i < |stacks|
      modifies this, chains
      ensures Valid() && stacks == old(stacks)[i := old(stacks)[i] + [ptr]]
    {
      hide WellFormed, Flat;
      chains[i].Push(ptr);
      stacks := stacks[i := stacks[i] + [ptr]];
    }

    method Pop(i: nat) returns (ptr: nat)
      requires Valid() && i < |stacks| && stacks[i] != []
      modifies this, chains
      ensures Valid() && |stacks| == |old(stacks)| && stacks == old(stacks)[i := stacks[i]]
      ensures old(stacks)[i] == stacks[i] + [ptr]
    {
      hide WellFormed, Flat;
      ptr := chains[i].Pop();
      stacks := stacks[i := chains[i].Stack()];
    }
  }

  /** The free stacks and the block after a request for size `index`: the top of
      its own stack; or else the upper half of a block of the next size, whose
      lower half becomes free; or, for the largest size, a new chunk. */
  ghost function Taken(stacks: seq<seq<nat>>, index: nat, chunk: nat): (r: (seq<seq<nat>>, nat))
    requires |stacks| == MAX_POW - MIN_POW + 1 && MIN_POW <= index <= MAX_POW
    ensures |r.0| == |stacks|
    decreases MAX_POW - index
  {
    var i := index - MIN_POW;
    var s := stacks[i];
    if s != [] then (stacks[i := s[..|s| - 1]], s[|s| - 1])
    else if index < MAX_POW then
      var (t, p) := Taken(stacks, index + 1, chunk);
      (t[i := t[i] + [p]], p + Pow(index))
    else (stacks, chunk)
  }

  class Allocator {
    const table: FreeTable
    const used: UsedTable
    ghost var free: multiset<Block>
    ghost var rows: seq<seq<Block>>
    ghost var chunks: seq<nat>

    ghost predicate Valid(held: multiset<Block>)
      reads this, table, table.chains, used, used.words
    {
      && table.Valid()
      && used.Valid()
      && Balanced(free, table.stacks, used.Descriptors(), held, rows, chunks)
    }

    /** pow2_init. */
    constructor ()
      ensures Valid(multiset{}) && chunks == [] && free == multiset{} && used.Descriptors() == []
      ensures fresh(table) && fresh(used) && fresh(used.words)
      ensures forall i :: 0 <= i < |table.chains| ==> fresh(table.chains[i])
    {
      table := new FreeTable();
      used := new UsedTable();
      free, rows, chunks := multiset{}, [], [];
    }

    method AddFreeBlock(ptr: nat, index: nat, ghost held: multiset<Block>)
      requires MIN_POW <= index <= MAX_POW && Valid(held + multiset{Block(ptr, index)})
      modifies this`free, table, table.chains
      ensures Valid(held) && free == old(free) + multiset{Block(ptr, index)}
      ensures |old(table.stacks)| == MAX_POW - MIN_POW + 1
      ensures table.stacks == old(table.stacks)[index - MIN_POW := old(table.stacks)[index - MIN_POW] + [ptr]]
    {
      hide Balanced, FreeTable.Valid;
      BalancedPush(free, table.stacks, used.Descriptors(), held, rows, chunks, Block(ptr, index));
      table.Push(index - MIN_POW, ptr);
      free := free + multiset{Block(ptr, index)};
    }

    lemma StackCount()
      requires table.Valid()
      ensures |table.stacks| == MAX_POW - MIN_POW + 1
    {
    }

    /** pow2_get_free_block.  `chunk` is the address that mapping 64 KiB of new
        pages would yield. */
    method GetFreeBlock(index: nat, chunk: nat) returns (ptr: nat)
      requires MIN_POW <= index <= MAX_POW && Valid(multiset{})
      requires chunk % 4096 == 0 && forall c :: 0 <= c < |chunks| ==> Disjoint(chunks[c], chunk)
      modifies this, table, table.chains
      ensures Valid(multiset{Block(ptr, index)})
      ensures chunks == old(chunks) || chunks == old(chunks) + [chunk]
      ensures |old(table.stacks)| == MAX_POW - MIN_POW + 1
      ensures (table.stacks, ptr) == Taken(old(table.stacks), index, chunk)
      decreases MAX_POW - index
    {
      hide Balanced, Pow, Disjoint, FreeTable.Valid;
      StackCount();
      var empty := table.IsEmpty(index - MIN_POW);
      if empty {
        if index < MAX_POW {
          ptr := SplitLarger(index, chunk);
        } else {
          ptr := NewChunk(chunk);
        }
      } else {
        ptr := PopFree(index);
      }
    }

    /** Take the upper half of a block of the next size, and free the lower. */
    method SplitLarger(index: nat, chunk: nat) returns (ptr2: nat)
      requires MIN_POW <= index < MAX_POW && Valid(multiset{})
      requires |table.stacks| == MAX_POW - MIN_POW + 1 && table.stacks[index - MIN_POW] == []
      requires chunk % 4096 == 0 && forall c :: 0 <= c < |chunks| ==> Disjoint(chunks[c], chunk)
      modifies this, table, table.chains
      ensures Valid(multiset{Block(ptr2, index)})
      ensures chunks == old(chunks) || chunks == old(chunks) + [chunk]
      ensures (table.stacks, ptr2) == Taken(old(table.stacks), index, chunk)
      decreases MAX_POW - index, 0
    {
      hide Valid, Pow, Disjoint;
      var ptr1 := GetFreeBlock(index + 1, chunk);
      ptr2 := ptr1 + Pow(index);
      Halved(ptr1, index);
      AddFreeBlock(ptr1, index, multiset{Block(ptr2, index)});
    }

    method NewChunk(chunk: nat) returns (ptr: nat)
      requires Valid(multiset{})
      requires chunk % 4096 == 0 && forall c :: 0 <= c < |chunks| ==> Disjoint(chunks[c], chunk)
      modifies this`rows, this`chunks
      ensures Valid(multiset{Block(ptr, MAX_POW)}) && chunks == old(chunks) + [chunk] && ptr == chunk
    {
      hide Balanced, FreeTable.Valid;
      BalancedChunk(free, table.stacks, used.Descriptors(), rows, chunks, chunk);
      rows, chunks := rows + [[Block(chunk, MAX_POW)]], chunks + [chunk];
      ptr := chunk;
    }

    method PopFree(index: nat) returns (ptr: nat)
      requires MIN_POW <= index <= MAX_POW && Valid(multiset{})
      requires |table.stacks| == MAX_POW - MIN_POW + 1 && table.stacks[index - MIN_POW] != []
      modifies this`free, table, table.chains
      ensures Valid(multiset{Block(ptr, index)})
      ensures (table.stacks, ptr) == Taken(old(table.stacks), index, 0)
    {
      hide Balanced, FreeTable.Valid;
      ghost var s0 := table.stacks;
      ptr := table.Pop(index - MIN_POW);
      BalancedPop(free, s0, used.Descriptors(), rows, chunks, Block(ptr, index), table.stacks[index - MIN_POW]);
      free := free - multiset{Block(ptr, index)};
    }

    /** Account for the halves of a held block. */
    ghost method Halved(ptr: nat, index: nat)
      requires MIN_POW <= index < MAX_POW && Valid(multiset{Block(ptr, index + 1)})
      modifies this`rows
      ensures Valid(multiset{Block(ptr + Pow(index), index)} + multiset{Block(ptr, index)})
    {
      hide Balanced, FreeTable.Valid;
      rows := BalancedHalve(free, table.stacks, used.Descriptors(), rows, chunks, ptr, index);
    }

    /** pow2_alloc: the block has the least size that holds the request (for
        requests up to 64 KiB) and becomes used; all other blocks keep their
        state except that free ones may have been split. */
    method Alloc(size: nat, chunk: nat) returns (ptr: nat, index: nat)
      requires Valid(multiset{})
      requires chunk % 4096 == 0 && forall c :: 0 <= c < |chunks| ==> Disjoint(chunks[c], chunk)
      modifies this, table, table.chains, used, used.words
      ensures Valid(multiset{}) && (used.words == old(used.words) || fresh(used.words))
      ensures index == ComputeIndex(size) && MIN_POW <= index <= MAX_POW && |old(table.stacks)| == MAX_POW - MIN_POW + 1
      ensures (table.stacks, ptr) == Taken(old(table.stacks), index, chunk)
      ensures Decoded(used.Descriptors()) == Decoded(old(used.Descriptors())) + multiset{Block(ptr, index)}
      ensures chunks == old(chunks) || chunks == old(chunks) + [chunk]
    {
      hide Balanced, Decoded, Disjoint, ComputeIndex, FreeTable.Valid;
      ComputeIndexLeast(size);
      index := ComputeIndex(size);
      ptr := GetFreeBlock(index, chunk);
      BalancedUse(free, table.stacks, used.Descriptors(), rows, chunks, Block(ptr, index));
      used.Insert(ptr + index);
    }

    /** pow2_free: a used block goes back to the free blocks of its size; an
        unknown pointer changes nothing. */
    method Free(ptr: nat)
      requires Valid(multiset{})
      modifies this, table, table.chains, used, used.words
      ensures Valid(multiset{}) && chunks == old(chunks)
      ensures (forall i :: Block(ptr, i) !in Decoded(old(used.Descriptors()))) ==>
                free == old(free) && used.Descriptors() == old(used.Descriptors())
      ensures forall i :: Block(ptr, i) in Decoded(old(used.Descriptors())) ==>
                && free == old(free) + multiset{Block(ptr, i)}
                && Decoded(used.Descriptors()) == Decoded(old(used.Descriptors())) - multiset{Block(ptr, i)}
    {
      hide Balanced, Decoded, FreeTable.Valid;
      ghost var ds := used.Descriptors();
      var index := used.Remove(ptr);
      if index != -1 {
        BalancedUnuse(free, table.stacks, ds, used.Descriptors(), rows, chunks, Block(ptr, index));
        AddFreeBlock(ptr, index, multiset{});
      }
    }
  }

  /** A pointer is used with one size at most. */
  lemma {:induction false} OneSize(rows: seq<seq<Block>>, chunks: seq<nat>, all: multiset<Block>, u: multiset<Block>,
                                   ptr: nat, index: nat)
    requires Chunked(rows, chunks) && all == All(rows) && u <= all && Block(ptr, index) in u
    ensures forall i :: Block(ptr, i) in u ==> i == index
  {
    hide Chunked;
    forall i | Block(ptr, i) in u ensures i == index {
      if i != index { BlocksApart(rows, chunks, Block(ptr, i), Block(ptr, index)); }
    }
  }

  lemma Regroup(f: multiset<Block>, u: multiset<Block>, held: multiset<Block>, b: Block)
    ensures f + u + (held + multiset{b}) == (f + multiset{b}) + u + held
  {
  }

  lemma Cancel(m: multiset<Block>, b: Block, h: multiset<Block>, all': multiset<Block>)
    requires all' + multiset{b} == m + multiset{b} + h
    ensures all' == m + h
  {
    forall x: Block ensures all'[x] == (m + h)[x] {
      assert (all' + multiset{b})[x] == (m + multiset{b} + h)[x];
    }
  }
}
