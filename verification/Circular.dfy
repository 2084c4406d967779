/** kernel/util/circular.c: the blocking circular buffer. Each stretch with the
    lock held is one step; a blocked task tries again after being woken. */
module Circular {

  type Elt = seq<bv8>

  // ----- what the buffer is for: a bounded queue

  datatype Fifo = Fifo(
    num: nat, contents: seq<Elt>, insWaitq: seq<nat>, remWaitq: seq<nat>,
    inserted: seq<Elt>, removed: seq<Elt>)

  datatype Outcome = Done(count: nat) | WouldBlock | Blocked

  function InsertOutcome(f: Fifo, nowait: bool): Outcome {
    if |f.contents| != f.num then Done(|f.contents| + 1) else if nowait then WouldBlock else Blocked
  }

  function RemoveOutcome(f: Fifo, nowait: bool): Outcome {
    if f.contents != [] then Done(|f.contents| - 1) else if nowait then WouldBlock else Blocked
  }

  /** One turn of an insertion by task me: everyone waiting to remove wakes. */
  function Insert(f: Fifo, me: nat, elt: Elt, nowait: bool): Fifo {
    match InsertOutcome(f, nowait)
    case Done(_) => f.(contents := f.contents + [elt], remWaitq := [], inserted := f.inserted + [elt])
    case WouldBlock => f
    case Blocked => f.(insWaitq := f.insWaitq + [me])
  }

  /** One turn of a removal by task me: everyone waiting to insert wakes. */
  function Remove(f: Fifo, me: nat, nowait: bool): Fifo {
    match RemoveOutcome(f, nowait)
    case Done(_) => f.(contents := f.contents[1..], insWaitq := [], removed := f.removed + [f.contents[0]])
    case WouldBlock => f
    case Blocked => f.(remWaitq := f.remWaitq + [me])
  }

  /** Nothing lost or reordered, and nobody waits for what is there. */
  predicate Inv(f: Fifo) {
    && |f.contents| <= f.num
    && f.inserted == f.removed + f.contents
    && (f.remWaitq != [] ==> f.contents == [])
    && (f.insWaitq != [] ==> |f.contents| == f.num)
  }

  datatype Event = Put(me: nat, elt: Elt, nowait: bool) | Take(me: nat, nowait: bool)

  function Step(f: Fifo, e: Event): Fifo {
    match e
    case Put(me, elt, nowait) => Insert(f, me, elt, nowait)
    case Take(me, nowait) => Remove(f, me, nowait)
  }

  function Run(f: Fifo, es: seq<Event>): Fifo
    decreases |es|
  {
    if es == [] then f else Run(Step(f, es[0]), es[1..])
  }

  lemma StepKeeps(f: Fifo, e: Event)
    requires Inv(f)
    ensures Inv(Step(f, e)) && Step(f, e).num == f.num
    ensures f.inserted <= Step(f, e).inserted && f.removed <= Step(f, e).removed
  {
    var g := Step(f, e);
    match e
    case Put(_, elt, _) =>
      assert f.removed + (f.contents + [elt]) == (f.removed + f.contents) + [elt];
    case Take(_, _) =>
      if f.contents != [] {
        assert f.removed + f.contents == (f.removed + [f.contents[0]]) + f.contents[1..];
      }
  }

  /** Over every run: removals return the inserted elements in order, at most
      num are held, removers wait only while the buffer is empty and inserters
      only while it is full. */
  lemma {:induction false} EveryRun(f: Fifo, es: seq<Event>)
    requires Inv(f)
    ensures Inv(Run(f, es)) && Run(f, es).num == f.num
    ensures Run(f, es).removed <= Run(f, es).inserted
    decreases |es|
  {
    if es != [] {
      StepKeeps(f, es[0]);
      EveryRun(Step(f, es[0]), es[1..]);
    }
  }

  // ----- slots of a byte buffer

  lemma {:induction false} SlotsApart(i: nat, j: nat, size: nat)
    requires i < j
    ensures 0 <= i * size && i * size + size <= j * size
    decreases j
  {
    assert (j - 1) * size + size == j * size;
    if j > i + 1 {
      SlotsApart(i, j - 1, size);
    }
  }

  lemma SlotBounds(i: nat, num: nat, size: nat)
    requires i < num
    ensures 0 <= i * size && i * size + size <= num * size
  {
    SlotsApart(i, num, size);
  }

  function Slot(buf: seq<bv8>, num: nat, size: nat, i: nat): Elt
    requires i < num && |buf| == num * size
  {
    SlotBounds(i, num, size);
    buf[i * size..i * size + size]
  }

  function Overwrite(buf: seq<bv8>, at: nat, elt: Elt): (r: seq<bv8>)
    requires at + |elt| <= |buf|
    ensures |r| == |buf|
  {
    buf[..at] + elt + buf[at + |elt|..]
  }

  /** Overwriting one slot changes that slot and no other. */
  lemma SlotWritten(buf: seq<bv8>, num: nat, size: nat, i: nat, elt: Elt, j: nat)
    requires i < num && j < num && |buf| == num * size && |elt| == size
    requires 0 <= i * size && i * size + size <= |buf|
    ensures Slot(Overwrite(buf, i * size, elt), num, size, j) == if j == i then elt else Slot(buf, num, size, j)
  {
    var r := Overwrite(buf, i * size, elt);
    SlotBounds(j, num, size);
    if j < i {
      SlotsApart(j, i, size);
    } else if i < j {
      SlotsApart(i, j, size);
    }
    hide Slot;
    SlotIs(r, num, size, j);
    SlotIs(buf, num, size, j);
  }

  lemma SlotIs(buf: seq<bv8>, num: nat, size: nat, i: nat)
    requires i < num && |buf| == num * size
    ensures 0 <= i * size && i * size + size <= |buf| && Slot(buf, num, size, i) == buf[i * size..i * size + size]
  {
    SlotBounds(i, num, size);
  }

  function Ahead(rem: nat, k: nat, num: nat): nat
    requires rem < num && k <= num
  {
    if rem + k < num then rem + k else rem + k - num
  }

  /** The queue lies in the slots from rem on, wrapping at the end. */
  ghost predicate Holds(buf: seq<bv8>, num: nat, size: nat, rem: nat, contents: seq<Elt>) {
    && |buf| == num * size && |contents| <= num && (num > 0 ==> rem < num)
    && (forall k: nat :: k < |contents| ==> contents[k] == Slot(buf, num, size, Ahead(rem, k, num)))
  }

  lemma HoldsInsert(buf: seq<bv8>, num: nat, size: nat, rem: nat, contents: seq<Elt>, elt: Elt)
    requires Holds(buf, num, size, rem, contents) && |contents| < num && |elt| == size
    ensures var i := Ahead(rem, |contents|, num);
            && 0 <= i * size && i * size + size <= |buf|
            && Holds(Overwrite(buf, i * size, elt), num, size, rem, contents + [elt])
  {
    var i := Ahead(rem, |contents|, num);
    SlotBounds(i, num, size);
    hide Slot, Overwrite;
    forall k: nat | k <= |contents|
      ensures (contents + [elt])[k] == Slot(Overwrite(buf, i * size, elt), num, size, Ahead(rem, k, num))
    {
      SlotWritten(buf, num, size, i, elt, Ahead(rem, k, num));
    }
  }

  lemma HoldsRemove(buf: seq<bv8>, num: nat, size: nat, rem: nat, contents: seq<Elt>)
    requires Holds(buf, num, size, rem, contents) && contents != []
    ensures contents[0] == Slot(buf, num, size, rem)
    ensures Holds(buf, num, size, Next(rem, num), contents[1..])
  {
    hide Slot;
    var rem' := Next(rem, num);
    assert Ahead(rem, 0, num) == rem;
    forall k: nat | k < |contents[1..]|
      ensures contents[1..][k] == Slot(buf, num, size, Ahead(rem', k, num))
    {
      assert Ahead(rem', k, num) == Ahead(rem, k + 1, num);
    }
  }

  function Next(i: nat, num: nat): nat { if i + 1 < num then i + 1 else 0 }

  /** Moving the pointer by one element and resetting it at the end of the
      buffer moves to the next slot. */
  lemma Advance(i: nat, num: nat, size: nat)
    requires i < num
    ensures (if i * size + size >= num * size then 0 else i * size + size) == Next(i, num) * size
  {
    assert i * size + size == (i + 1) * size;
    if i + 1 < num && size > 0 {
      SlotsApart(i + 1, num, size);
    }
  }

  lemma NextAhead(rem: nat, k: nat, num: nat)
    requires rem < num && k < num
    ensures Next(Ahead(rem, k, num), num) == Ahead(rem, k + 1, num)
    ensures Ahead(Next(rem, num), k, num) == Ahead(rem, k + 1, num)
  {
  }

  /** The pointers stand at the first slot in use and the first free one. */
  ghost predicate Placed(num: nat, size: nat, rem: nat, count: nat, removePtr: nat, insertPtr: nat) {
    num > 0 ==> rem < num && count <= num && removePtr == rem * size && insertPtr == Ahead(rem, count, num) * size
  }

  lemma PlacedInsert(num: nat, size: nat, rem: nat, count: nat, removePtr: nat, insertPtr: nat)
    requires Placed(num, size, rem, count, removePtr, insertPtr) && count < num
    ensures Placed(num, size, rem, count + 1, removePtr, if insertPtr + size >= num * size then 0 else insertPtr + size)
  {
    Advance(Ahead(rem, count, num), num, size);
    NextAhead(rem, count, num);
  }

  lemma PlacedRemove(num: nat, size: nat, rem: nat, count: nat, removePtr: nat, insertPtr: nat)
    requires Placed(num, size, rem, count, removePtr, insertPtr) && 0 < count <= num
    ensures var next := if removePtr + size >= num * size then 0 else removePtr + size;
            Placed(num, size, Next(rem, num), count - 1, next, insertPtr)
  {
    Advance(rem, num, size);
    NextAhead(rem, count - 1, num);
  }

  // ----- the buffer as the kernel holds it

  class Circular {
    const buffer: array<bv8>
    const num: nat
    const size: nat
    const end: nat
    var insertPtr: nat
    var removePtr: nat
    var curCount: nat
    var insWaitq: seq<nat>
    var remWaitq: seq<nat>
    ghost var contents: seq<Elt>
    ghost var inserted: seq<Elt>
    ghost var removed: seq<Elt>
    ghost var rem: nat

    ghost function Abs(): Fifo
      reads this
    { Fifo(num, contents, insWaitq, remWaitq, inserted, removed) }

    ghost predicate Valid()
      reads this, buffer
    {
      && buffer.Length == end && end == num * size && curCount == |contents| && Inv(Abs())
      && Holds(buffer[..], num, size, rem, contents)
      && Placed(num, size, rem, curCount, removePtr, insertPtr)
    }

    /** circular_init over a buffer of num elements of size bytes. */
    constructor (buffer: array<bv8>, num: nat, size: nat)
      requires buffer.Length == num * size
      ensures Valid() && this.buffer == buffer && Abs() == Fifo(num, [], [], [], [], [])
      ensures this.num == num && this.size == size
    {
      this.buffer, this.num, this.size, end := buffer, num, size, num * size;
      insertPtr, removePtr, curCount, insWaitq, remWaitq := 0, 0, 0, [], [];
      contents, inserted, removed, rem := [], [], [], 0;
    }

    /** One turn of generic_circular_insert with the lock held. */
    method InsertTurn(me: nat, elt: Elt, nowait: bool) returns (r: Outcome, woken: seq<nat>)
      requires Valid() && |elt| == size
      modifies this, buffer
      ensures Valid() && Abs() == Insert(old(Abs()), me, elt, nowait)
      ensures r == InsertOutcome(old(Abs()), nowait)
      ensures woken == if r.Done? then old(remWaitq) else []
    {
      StepKeeps(Abs(), Put(me, elt, nowait));
      woken := [];
      if curCount == num {
        if nowait {
          return WouldBlock, [];
        }
        insWaitq := insWaitq + [me];
        return Blocked, [];
      }
      HoldsInsert(buffer[..], num, size, rem, contents, elt);
      PlacedInsert(num, size, rem, curCount, removePtr, insertPtr);
      assert insertPtr == Ahead(rem, curCount, num) * size;
      hide Holds, Overwrite, Ahead, Next, Inv, Placed;
      CopyIn(buffer, insertPtr, elt);
      insertPtr := insertPtr + size;
      if insertPtr >= end {
        insertPtr := 0;
      }
      curCount := curCount + 1;
      contents, inserted := contents + [elt], inserted + [elt];
      woken := remWaitq;
      remWaitq := [];
      return Done(curCount), woken;
    }

    /** One turn of generic_circular_remove with the lock held. */
    method RemoveTurn(me: nat, nowait: bool) returns (r: Outcome, elt: Elt, woken: seq<nat>)
      requires Valid()
      modifies this
      ensures Valid() && Abs() == Remove(old(Abs()), me, nowait)
      ensures r == RemoveOutcome(old(Abs()), nowait)
      ensures r.Done? ==> elt == old(contents[0])
      ensures woken == if r.Done? then old(insWaitq) else []
    {
      StepKeeps(Abs(), Take(me, nowait));
      hide Inv;
      if curCount == 0 {
        if nowait {
          return WouldBlock, [], [];
        }
        remWaitq := remWaitq + [me];
        return Blocked, [], [];
      }
      HoldsRemove(buffer[..], num, size, rem, contents);
      SlotIs(buffer[..], num, size, rem);
      PlacedRemove(num, size, rem, curCount, removePtr, insertPtr);
      assert removePtr == rem * size;
      hide Holds, Ahead, Next, Inv, Slot, Placed;
      elt := buffer[removePtr..removePtr + size];
      removePtr := removePtr + size;
      if removePtr >= end {
        removePtr := 0;
      }
      curCount := curCount - 1;
      removed, rem := removed + [contents[0]], Next(rem, num);
      contents := contents[1..];
      woken := insWaitq;
      insWaitq := [];
      return Done(curCount), elt, woken;
    }
  }

  lemma OverwriteNone(buf: seq<bv8>, at: nat)
    requires at <= |buf|
    ensures Overwrite(buf, at, []) == buf
  {
  }

  lemma OverwriteNext(buf: seq<bv8>, at: nat, elt: Elt, i: nat)
    requires at + |elt| <= |buf| && i < |elt|
    ensures Overwrite(buf, at, elt[..i + 1]) == Overwrite(buf, at, elt[..i])[at + i := elt[i]]
  {
  }

  /** memcpy into the buffer. */
  method CopyIn(dst: array<bv8>, at: nat, elt: Elt)
    requires at + |elt| <= dst.Length
    modifies dst
    ensures dst[..] == Overwrite(old(dst[..]), at, elt)
  {
    hide Overwrite;
    ghost var was := dst[..];
    var i := 0;
    OverwriteNone(was, at);
    assert elt[..0] == [];
    while i < |elt|
      invariant i <= |elt| && dst[..] == Overwrite(was, at, elt[..i])
    {
      OverwriteNext(was, at, elt, i);
      ghost var now := dst[..];
      dst[at + i] := elt[i];
      assert dst[..] == now[at + i := elt[i]];
      i := i + 1;
    }
    assert elt[..|elt|] == elt;
  }
}
