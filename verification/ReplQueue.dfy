/** The replenishment queue as the kernel stores it: MAX_REPL slots in an
    array, linked in queue order, a slot being free exactly when its time is 0.
    A pointer to a slot is its index, NULL is -1; the slot fields are parallel
    arrays. */
module ReplQueue {
  import opened SporadicServer
  import opened Links

  const NULL: int := -1

  /** The entries of the slots listed in `order`. */
  ghost function Read(t: seq<nat>, b: seq<nat>, order: seq<int>): (q: seq<Repl>)
    requires |t| == |b| && forall i :: 0 <= i < |order| ==> 0 <= order[i] < |t|
    ensures |q| == |order|
    ensures forall i :: 0 <= i < |q| ==> q[i] == Repl(t[order[i]], b[order[i]])
  {
    seq(|order|, i requires 0 <= i < |order| => Repl(t[order[i]], b[order[i]]))
  }

  /** A slot is linked exactly when its time is set. */
  ghost predicate Marked(t: seq<nat>, order: seq<int>) {
    && (forall i :: 0 <= i < |order| ==> 0 <= order[i] < |t| && t[order[i]] > 0)
    && (forall k :: 0 <= k < |t| && t[k] > 0 ==> k in order)
  }

  lemma {:induction false} InsertAt(q: seq<Repl>, r: Repl, p: nat)
    requires p <= |q|
    requires forall i :: 0 <= i < p ==> q[i].t < r.t
    requires p < |q| ==> q[p].t >= r.t
    ensures Insert(q, r) == q[..p] + [r] + q[p..]
    decreases p
  {
    if p > 0 {
      InsertAt(q[1..], r, p - 1);
      assert q[1..][..p - 1] == q[1..p] && q[1..][p - 1..] == q[p..];
      assert q[..p] == [q[0]] + q[1..p];
    }
  }

  lemma {:induction false} MarkedInsert(t: seq<nat>, order: seq<int>, p: nat, r: nat, e: nat)
    requires Marked(t, order) && p <= |order| && r < |t| && t[r] == 0 && e > 0
    ensures Marked(t[r := e], order[..p] + [r] + order[p..])
  {
    var order', t' := order[..p] + [r] + order[p..], t[r := e];
    assert order'[p] == r;
    forall k | 0 <= k < |t'| && t'[k] > 0 ensures k in order' {
      if k != r {
        assert t[k] > 0 && k in order;
        assert order == order[..p] + order[p..];
      }
    }
  }

  /** Filling slot `r` and listing it at position `p` inserts its entry there. */
  lemma {:induction false} ReadInsert(t: seq<nat>, b: seq<nat>, order: seq<int>, p: nat, r: nat, e: Repl)
    requires |t| == |b| && Marked(t, order) && p <= |order| && r < |t| && t[r] == 0
    ensures forall i :: 0 <= i <= |order| ==> 0 <= (order[..p] + [r] + order[p..])[i] < |t|
    ensures Read(t[r := e.t], b[r := e.b], order[..p] + [r] + order[p..])
            == Read(t, b, order)[..p] + [e] + Read(t, b, order)[p..]
  {
    var order' := order[..p] + [r] + order[p..];
    var q, q' := Read(t, b, order), Read(t[r := e.t], b[r := e.b], order');
    forall i | 0 <= i < |q'| ensures q'[i] == (q[..p] + [e] + q[p..])[i] {
      if i < p {
        assert order'[i] == order[i];
      } else if i > p {
        assert order'[i] == order[i - 1];
      }
    }
  }

  /** Unlinking and zeroing the slot at the head. */
  lemma {:induction false} PopList(next: seq<int>, head: int, order: seq<int>)
    requires List(next, head, order, NULL) && head != NULL
    ensures order != [] && head == order[0] && 0 <= head < |next| && Distinct(order)
    ensures List(next[head := NULL], next[head], order[1..], NULL)
  {
    Acyclic(next, head, order, NULL);
    assert head !in order[1..];
    Frame(next, next[head := NULL], next[head], order[1..], NULL);
  }

  lemma {:induction false} PopMarked(t: seq<nat>, order: seq<int>)
    requires Marked(t, order) && order != [] && Distinct(order)
    ensures Marked(t[order[0] := 0], order[1..])
  {
    var rest := order[1..];
    assert forall i :: 0 <= i < |rest| ==> rest[i] == order[i + 1];
    forall k | 0 <= k < |t| && k != order[0] && t[k] > 0 ensures k in rest {
      assert k in order;
      assert order == [order[0]] + rest;
    }
  }

  lemma {:induction false} PopRead(t: seq<nat>, b: seq<nat>, order: seq<int>)
    requires |t| == |b| && Marked(t, order) && order != [] && Distinct(order)
    ensures forall i :: 0 <= i < |order[1..]| ==> 0 <= order[1..][i] < |t|
    ensures Read(t[order[0] := 0], b[order[0] := 0], order[1..]) == Read(t, b, order)[1..]
  {
    assert forall i :: 0 <= i < |order[1..]| ==> order[1..][i] == order[i + 1];
  }

  /** Distinct indices that fill the array leave no slot out. */
  lemma {:induction false} Pigeon(order: seq<int>, n: nat)
    requires Distinct(order)
    requires forall k :: 0 <= k < n ==> k in order
    ensures |order| >= n
    decreases n
  {
    if n > 0 {
      assert n - 1 in order;
      var p :| 0 <= p < |order| && order[p] == n - 1;
      var rest := order[..p] + order[p + 1..];
      forall k | 0 <= k < n - 1 ensures k in rest {
        assert k in order;
        var i :| 0 <= i < |order| && order[i] == k;
        assert rest[if i < p then i else i - 1] == k;
      }
      Pigeon(rest, n - 1);
    }
  }

  class Queue {
    const t: array<nat>
    const b: array<nat>
    const next: array<int>
    var head: int
    var size: nat
    ghost var order: seq<int>
    ghost var contents: seq<Repl>

    ghost predicate Valid()
      reads this, t, b, next
    {
      && t != b
      && t.Length == b.Length == next.Length == MAX_REPL
      && size == |order|
      && List(next[..], head, order, NULL)
      && Marked(t[..], order)
      && contents == Read(t[..], b[..], order)
    }

    /** The zeroed queue of a fresh VCPU. */
    constructor ()
      ensures Valid() && fresh(t) && fresh(b) && fresh(next) && contents == []
    {
      t := new nat[MAX_REPL](_ => 0);
      b := new nat[MAX_REPL](_ => 0);
      next := new int[MAX_REPL](_ => NULL);
      head, size, order, contents := NULL, 0, [], [];
    }

    /** The head entry; NULL is told apart by the caller. */
    method Head() returns (t': nat, b': nat)
      requires Valid() && contents != []
      ensures contents[0] == Repl(t', b') && t' > 0
    {
      t', b' := t[head], b[head];
    }

    method IsEmpty() returns (e: bool)
      requires Valid()
      ensures e == (contents == [])
    {
      e := head == NULL;
    }

    method HasTwo() returns (e: bool)
      requires Valid()
      ensures e == (|contents| > 1)
    {
      e := size > 1;
    }

    method IsFull() returns (e: bool)
      requires Valid()
      ensures e == (|contents| == MAX_REPL)
    {
      e := size == MAX_REPL;
    }

    /** The time of the entry behind the head. */
    method NextTime() returns (t': nat)
      requires Valid() && |contents| > 1
      ensures contents[1].t == t'
    {
      NextAt(next[..], head, order, NULL, 0);
      t' := t[next[head]];
    }

    /** The time of the first entry in queue order that is still to come, 0 if
        there is none. */
    method FirstAfter(now: nat) returns (e: nat)
      requires Valid()
      ensures e == SporadicServer.FirstAfter(contents, now)
    {
      ghost var p := 0;
      var r := head;
      assert contents[0..] == contents;
      while r != NULL
        invariant 0 <= p <= |order| == |contents|
        invariant r == if p < |order| then order[p] else NULL
        invariant SporadicServer.FirstAfter(contents[p..], now) == SporadicServer.FirstAfter(contents, now)
        decreases |order| - p
      {
        assert contents[p].t == t[r];
        assert contents[p..][1..] == contents[p + 1..];
        if now < t[r] { return t[r]; }
        NextAt(next[..], head, order, NULL, p);
        r, p := next[r], p + 1;
      }
      return 0;
    }

    lemma EmptyIff()
      requires Valid()
      ensures |contents| == |order| && (head == NULL <==> order == []) && t != b
    {
    }

    method Pop()
      requires Valid()
      modifies this, t, b, next
      ensures Valid()
      ensures contents == if old(contents) == [] then [] else old(contents)[1..]
    {
      EmptyIff();
      hide List, Marked, Read, Distinct;
      if head != NULL {
        PopList(next[..], head, order);
        PopMarked(t[..], order);
        PopRead(t[..], b[..], order);
        var h, r := head, next[head];
        ghost var t0, b0, next0 := t[..], b[..], next[..];
        t[h], b[h], next[h] := 0, 0, NULL;
        assert t[..] == t0[h := 0] && b[..] == b0[h := 0] && next[..] == next0[h := NULL];
        head := r;
        size := size - 1;
        order, contents := order[1..], contents[1..];
      }
    }

    /** Overwrite the head entry in place. */
    method SetHead(t': nat, b': nat)
      requires Valid() && contents != [] && t' > 0
      modifies this`contents, t, b
      ensures Valid()
      ensures contents == [Repl(t', b')] + old(contents)[1..]
    {
      Acyclic(next[..], head, order, NULL);
      t[head], b[head] := t', b';
      contents := [Repl(t', b')] + contents[1..];
    }

    /** The first free slot; there is one because the queue is not full. */
    method FreeSlot() returns (r: nat)
      requires Valid() && size < MAX_REPL
      ensures r < MAX_REPL && t[r] == 0
    {
      r := 0;
      while r < MAX_REPL
        invariant r <= MAX_REPL
        invariant forall k :: 0 <= k < r ==> t[..][k] > 0
      {
        if t[r] == 0 { return; }
        assert t[..][r] > 0;
        r := r + 1;
      }
      Acyclic(next[..], head, order, NULL);
      Pigeon(order, MAX_REPL);
      assert false;
    }

    /** Walk to the insertion point: `prev` is the entry whose link is to be
        rewritten, NULL standing for the queue head itself. */
    method InsertionPoint(t': nat) returns (prev: int, cur: int, ghost p: nat)
      requires Valid()
      ensures p <= |order|
      ensures prev == if p == 0 then NULL else order[p - 1]
      ensures cur == if p < |order| then order[p] else NULL
      ensures forall i :: 0 <= i < p ==> contents[i].t < t'
      ensures p < |order| ==> contents[p].t >= t'
      ensures cur == NULL <==> forall i :: 0 <= i < |contents| ==> contents[i].t < t'
    {
      prev, cur, p := NULL, head, 0;
      while cur != NULL && t[cur] < t'
        invariant p <= |order|
        invariant prev == if p == 0 then NULL else order[p - 1]
        invariant cur == if p < |order| then order[p] else NULL
        invariant forall i :: 0 <= i < p ==> contents[i].t < t'
        decreases |order| - p
      {
        NextAt(next[..], head, order, NULL, p);
        assert contents[p].t == t[cur];
        prev, cur, p := cur, next[cur], p + 1;
      }
    }

    /** Link slot `r` between `prev` and `cur`. */
    method Thread(r: nat, prev: int, cur: int, ghost p: nat)
      requires Valid() && r < MAX_REPL && t[r] == 0 && p <= |order|
      requires prev == if p == 0 then NULL else order[p - 1]
      requires cur == if p < |order| then order[p] else NULL
      modifies this`head, next
      ensures List(next[..], head, order[..p] + [r] + order[p..], NULL)
    {
      ghost var was := next[..];
      next[r] := cur;
      Frame(was, next[..], head, order, NULL);
      if prev == NULL {
        assert order[..p] + [r] + order[p..] == [r] + order;
        head := r;
      } else {
        Links.Link(next[..], head, order, p, r, NULL);
        ghost var was' := next[..];
        next[prev] := r;
        assert next[..] == was'[prev := r];
      }
    }

    /** Put a new entry at position `p` of the queue, using free slot `r`. */
    method Place(r: nat, prev: int, cur: int, e: Repl, ghost p: nat)
      requires Valid() && r < MAX_REPL && t[r] == 0 && e.t > 0 && p <= |order|
      requires prev == if p == 0 then NULL else order[p - 1]
      requires cur == if p < |order| then order[p] else NULL
      modifies this, t, b, next
      ensures Valid()
      ensures contents == old(contents)[..p] + [e] + old(contents)[p..]
    {
      hide List, Marked;
      MarkedInsert(t[..], order, p, r, e.t);
      ReadInsert(t[..], b[..], order, p, r, e);
      ghost var t0, b0 := t[..], b[..];
      Thread(r, prev, cur, p);
      t[r], b[r] := e.t, e.b;
      assert t[..] == t0[r := e.t] && b[..] == b0[r := e.b];
      size := size + 1;
      order := order[..p] + [r] + order[p..];
      contents := contents[..p] + [e] + contents[p..];
    }

    method Add(b': nat, t': nat)
      requires Valid() && t' > 0
      modifies this, t, b, next
      ensures Valid()
      ensures contents == SporadicServer.Add(old(contents), b', t')
    {
      if size < MAX_REPL {
        var r := FreeSlot();
        var prev, cur, p := InsertionPoint(t');
        InsertAt(contents, Repl(t', b'), p);
        Place(r, prev, cur, Repl(t', b'), p);
      }
    }
  }
}
