/** The kernel's task queues.  Every queue (VCPU runqueues, the sleep queue,
    semaphore and buffer wait queues) is threaded through the one `next` field
    of the task state segments, so queues must stay pairwise disjoint.  A task
    is its selector; 0 is the empty queue. */
module TaskQueues {
  import opened Links

  /** Queue k is the list `qs[k]`, except for queues that are being edited;
      no task is on two queues or twice on one. */
  ghost predicate Queues(next: seq<int>, heads: seq<int>, qs: seq<seq<int>>, edited: set<int>) {
    && |heads| == |qs|
    && (forall k :: 0 <= k < |qs| && k !in edited ==> List(next, heads[k], qs[k], 0))
    && (forall k :: 0 <= k < |qs| ==> Distinct(qs[k]))
    && (forall k, x :: 0 <= k < |qs| && x in qs[k] ==> 0 < x < |next|)
    && (forall k, j, x :: 0 <= k < j < |qs| && x in qs[k] ==> x !in qs[j])
  }

  ghost predicate OnlyOn(qs: seq<seq<int>>, x: int, k: int) {
    forall j :: 0 <= j < |qs| && j != k ==> x !in qs[j]
  }

  ghost predicate OnNone(qs: seq<seq<int>>, x: int) {
    forall j :: 0 <= j < |qs| ==> x !in qs[j]
  }

  function Without(s: seq<int>, x: int): (r: seq<int>) {
    if s == [] then [] else if s[0] == x then s[1..] else [s[0]] + Without(s[1..], x)
  }

  lemma {:induction false} WithoutAt(s: seq<int>, x: int, p: nat)
    requires p < |s| && s[p] == x && x !in s[..p]
    ensures Without(s, x) == s[..p] + s[p + 1..]
    decreases p
  {
    if p > 0 {
      assert s[0] == s[..p][0];
      assert s[1..][..p - 1] == s[..p][1..];
      WithoutAt(s[1..], x, p - 1);
      assert s[1..][p..] == s[p + 1..];
      assert s[..p] == [s[0]] + s[..p][1..];
    }
  }

  /** Removing from one queue a task found there loses and duplicates nothing. */
  lemma {:induction false} WithoutKeeps(s: seq<int>, x: int)
    requires x in s
    ensures multiset(s) == multiset(Without(s, x)) + multiset{x}
  {
    assert s == [s[0]] + s[1..];
    if s[0] != x { WithoutKeeps(s[1..], x); }
  }

  lemma {:induction false} QueueAppended(next: seq<int>, heads: seq<int>, qs: seq<seq<int>>, edited: set<int>,
                                         k: nat, x: int)
    requires Queues(next, heads, qs, edited) && k < |qs| && k !in edited
    requires 0 < x < |next| && x !in qs[k] && OnlyOn(qs, x, k)
    ensures var qs' := qs[k := qs[k] + [x]];
            && (qs[k] == [] ==> Queues(next[x := 0], heads[k := x], qs', edited))
            && (qs[k] != [] ==>
                  && 0 <= qs[k][|qs[k]| - 1] < |next|
                  && Queues(next[qs[k][|qs[k]| - 1] := x][x := 0], heads, qs', edited))
  {
    var qs' := qs[k := qs[k] + [x]];
    if qs[k] == [] {
      QueueOthers(next, heads, next[x := 0], heads[k := x], qs, qs', edited, k, x);
    } else {
      var last := qs[k][|qs[k]| - 1];
      Append(next, heads[k], qs[k], x, 0);
      QueueOthers(next, heads, next[last := x][x := 0], heads, qs, qs', edited, k, x);
    }
  }

  /** Appending a task anywhere while it is still on a queue cuts off all tasks
      behind it there: its link becomes 0. */
  lemma {:induction false} AppendTears(next: seq<int>, h: int, a: seq<int>, x: int, b: seq<int>)
    requires List(next, h, a + [x] + b, 0) && 0 <= x < |next|
    ensures List(next[x := 0], h, a + [x], 0)
    decreases |a|
  {
    var s := a + [x] + b;
    if a == [] {
      assert s[0] == x && (a + [x])[1..] == [];
    } else {
      Acyclic(next, h, s, 0);
      assert s[0] == a[0] && s[|a|] == x;
      assert s[1..] == a[1..] + [x] + b && (a + [x])[1..] == a[1..] + [x];
      AppendTears(next, next[h], a[1..], x, b);
    }
  }

  /** A change to queue `k` that writes only the links of its own members and
      of one task `x` that is on no other queue keeps all the other queues. */
  lemma {:induction false} QueueOthers(next: seq<int>, heads: seq<int>, next': seq<int>, heads': seq<int>,
                                       qs: seq<seq<int>>, qs': seq<seq<int>>, edited: set<int>, k: nat, x: int)
    requires Queues(next, heads, qs, edited) && k < |qs|
    requires |qs'| == |qs| && |next'| == |next| && |heads'| == |heads| == |qs|
    requires forall j :: 0 <= j < |qs| && j != k ==> qs'[j] == qs[j] && heads'[j] == heads[j]
    requires forall y :: 0 <= y < |next| && y !in qs[k] && y != x ==> next'[y] == next[y]
    requires OnlyOn(qs, x, k) && 0 < x < |next|
    requires forall y :: y in qs'[k] ==> y in qs[k] || y == x
    requires Distinct(qs'[k])
    requires k in edited || List(next', heads'[k], qs'[k], 0)
    ensures Queues(next', heads', qs', edited)
  {
    forall j | 0 <= j < |qs| && j !in edited ensures List(next', heads'[j], qs'[j], 0) {
      if j != k { Frame(next, next', heads[j], qs[j], 0); }
    }
    forall i, j, y | 0 <= i < j < |qs| && y in qs'[i] ensures y !in qs'[j] {
      if i == k && y != x {
        assert y in qs[i] && y !in qs[j];
      } else if j == k {
        assert y in qs[i] && y != x;
      }
    }
  }

  /** Start editing queue k: count task `x` out of it although the links still
      run through it. */
  lemma {:induction false} Detach(next: seq<int>, heads: seq<int>, qs: seq<seq<int>>, k: nat, a: seq<int>, x: int,
                                  b: seq<int>)
    requires Queues(next, heads, qs, {}) && k < |qs| && qs[k] == a + [x] + b
    ensures Queues(next, heads, qs[k := a + b], {k})
    ensures OnNone(qs[k := a + b], x)
    ensures 0 < x < |next|
  {
    var s := qs[k];
    assert s[|a|] == x && x in qs[k];
    assert forall y :: y in a + b ==> y in qs[k];
    assert Distinct(a + b) by {
      forall i, j | 0 <= i < j < |a + b| ensures (a + b)[i] != (a + b)[j] {
        assert (a + b)[i] == s[if i < |a| then i else i + 1];
        assert (a + b)[j] == s[if j < |a| then j else j + 1];
      }
    }
    assert x !in a + b by {
      forall i | 0 <= i < |a + b| ensures (a + b)[i] != x {
        assert (a + b)[i] == s[if i < |a| then i else i + 1];
      }
    }
  }

  /** Finish editing: the link that pointed at `x` now points past it.  The
      links of `a` and `b` are as they were, whatever happened to x's own. */
  lemma {:induction false} Reattach(next0: seq<int>, h0: int, next: seq<int>, heads: seq<int>, qs: seq<seq<int>>,
                                    k: nat, a: seq<int>, x: int, b: seq<int>)
    requires List(next0, h0, a + [x] + b, 0) && |next| == |next0|
    requires Queues(next, heads, qs, {k}) && k < |qs| && qs[k] == a + b && heads[k] == h0
    requires forall y :: y in a + b && 0 <= y < |next| ==> next[y] == next0[y]
    ensures 0 <= x < |next|
    ensures a == [] ==> Queues(next, heads[k := next0[x]], qs, {})
    ensures a != [] ==> 0 < a[|a| - 1] < |next| && Queues(next[a[|a| - 1] := next0[x]], heads, qs, {})
  {
    var s := a + [x] + b;
    NextAt(next0, h0, s, 0, |a|);
    Suffix(next0, h0, s, 0, |a| + 1);
    assert s[|a| + 1..] == b;
    assert next0[x] == if b == [] then 0 else b[0];
    if a == [] {
      Frame(next0, next, next0[x], b, 0);
      assert a + b == b;
      QueueReattached(next, heads, next, heads[k := next0[x]], qs, k);
    } else {
      var last := a[|a| - 1];
      assert last in qs[k];
      var next' := next[last := next0[x]];
      var ab := a + b;
      assert Distinct(ab) && ab[|a| - 1] == last;
      forall j | 0 <= j < |b| ensures b[j] != last { assert b[j] == ab[|a| + j]; }
      forall i | 0 <= i < |a| - 1 && 0 <= a[i] < |next| ensures next'[a[i]] == next0[a[i]] {
        assert a[i] == ab[i] && a[i] in ab;
      }
      Frame(next0, next', next0[x], b, 0);
      assert s == a + ([x] + b);
      Splice(next0, next', h0, a, [x] + b, next0[x], b, 0);
      QueueReattached(next, heads, next', heads, qs, k);
    }
  }

  lemma {:induction false} QueueReattached(next: seq<int>, heads: seq<int>, next': seq<int>, heads': seq<int>,
                                           qs: seq<seq<int>>, k: nat)
    requires Queues(next, heads, qs, {k}) && k < |qs| && |next'| == |next| && |heads'| == |heads|
    requires forall y :: 0 <= y < |next| && y !in qs[k] ==> next'[y] == next[y]
    requires forall j :: 0 <= j < |qs| && j != k ==> heads'[j] == heads[j]
    requires List(next', heads'[k], qs[k], 0)
    ensures Queues(next', heads', qs, {})
  {
    forall j | 0 <= j < |qs| ensures List(next', heads'[j], qs[j], 0) {
      if j != k {
        forall y | y in qs[j] && 0 <= y < |next| ensures next'[y] == next[y] {
          assert y !in qs[k];
        }
        Frame(next, next', heads[j], qs[j], 0);
      }
    }
  }

  class Tasks {
    var next: seq<int>
    var heads: seq<int>
    ghost var qs: seq<seq<int>>

    ghost predicate Valid(edited: set<int>)
      reads this
    {
      Queues(next, heads, qs, edited)
    }

    constructor (ntasks: nat, nqueues: nat)
      ensures Valid({}) && |next| == ntasks && |qs| == nqueues
      ensures forall k :: 0 <= k < nqueues ==> qs[k] == []
    {
      next := seq(ntasks, _ => 0);
      heads := seq(nqueues, _ => 0);
      qs := seq(nqueues, _ => []);
    }

    method IsEmpty(k: nat) returns (e: bool)
      requires Valid({}) && k < |qs|
      ensures e == (qs[k] == [])
    {
      e := heads[k] == 0;
    }

    /** Append unless already there.  The source trusts its caller that the
        task is on no other queue. */
    method QueueAppend(k: nat, x: int, ghost edited: set<int>)
      requires Valid(edited) && k < |qs| && k !in edited
      requires 0 < x < |next| && OnlyOn(qs, x, k)
      modifies this
      ensures Valid(edited) && |next| == |old(next)|
      ensures qs == if x in old(qs[k]) then old(qs) else old(qs)[k := old(qs[k]) + [x]]
      ensures forall y :: 0 <= y < |next| && y !in old(qs[k]) && y != x ==> next[y] == old(next[y])
      ensures forall j :: 0 <= j < |qs| && j != k ==> heads[j] == old(heads[j])
    {
      ghost var s := qs[k];
      assert forall i :: 0 <= i < |s| ==> s[i] in qs[k];
      if heads[k] != 0 {
        if heads[k] == x { return; }
        ghost var i := 0;
        var t := heads[k];
        NextAt(next, heads[k], s, 0, 0);
        while next[t] != 0
          invariant next == old(next) && heads == old(heads) && qs == old(qs)
          invariant 0 <= i < |s| && t == s[i] && 0 <= t < |next|
          invariant x !in s[..i + 1]
          decreases |s| - i
        {
          NextAt(next, heads[k], s, 0, i);
          if next[t] == x { return; }
          t, i := next[t], i + 1;
          NextAt(next, heads[k], s, 0, i);
          assert s[..i + 1] == s[..i] + [s[i]];
        }
        NextAt(next, heads[k], s, 0, i);
        assert i == |s| - 1 && s[..i + 1] == s;
        QueueAppended(next, heads, qs, edited, k, x);
        next := next[t := x];
      } else {
        QueueAppended(next, heads, qs, edited, k, x);
        heads := heads[k := x];
      }
      next := next[x := 0];
      qs := qs[k := s + [x]];
    }

    method QueueRemoveHead(k: nat) returns (x: int)
      requires Valid({}) && k < |qs|
      modifies this
      ensures Valid({}) && next == old(next)
      ensures x == if old(qs[k]) == [] then 0 else old(qs[k])[0]
      ensures qs == if old(qs[k]) == [] then old(qs) else old(qs)[k := old(qs[k])[1..]]
    {
      x := heads[k];
      if x == 0 { return 0; }
      ghost var s := qs[k];
      heads := heads[k := next[x]];
      qs := qs[k := s[1..]];
      assert List(next, heads[k], s[1..], 0);
      assert forall j :: 0 <= j < |qs| && j != k ==> heads[j] == old(heads[j]);
      QueueOthers(next, old(heads), next, heads, old(qs), qs, {}, k, x);
    }

    /** vcpu_in_runqueue; it answers TRUE for task 0 (its walk ends on 0). */
    method InQueue(k: nat, x: int) returns (r: bool)
      requires Valid({}) && k < |qs|
      ensures r == (x in qs[k] || x == 0)
    {
      ghost var s, p := qs[k], 0;
      assert forall i :: 0 <= i < |s| ==> s[i] in qs[k];
      var i := heads[k];
      while i != 0
        invariant 0 <= p <= |s| && i == if p < |s| then s[p] else 0
        invariant x !in s[..p]
        decreases |s| - p
      {
        if x == i { return true; }
        NextAt(next, heads[k], s, 0, p);
        assert s[..p + 1] == s[..p] + [s[p]];
        i, p := next[i], p + 1;
      }
      assert s[..p] == s;
      return x == i;
    }

    /** vcpu_remove_from_runqueue: walk with a pointer to the link and unlink
        the task; `prev` is 0 while that link is the queue head. */
    method RemoveFrom(k: nat, x: int)
      requires Valid({}) && k < |qs|
      modifies this
      ensures Valid({}) && |next| == |old(next)|
      ensures qs == old(qs)[k := Without(old(qs[k]), x)]
      ensures forall y :: 0 <= y < |next| && y !in old(qs[k]) ==> next[y] == old(next[y])
    {
      ghost var s, p := qs[k], 0;
      assert forall i :: 0 <= i < |s| ==> s[i] in qs[k];
      var prev, cur := 0, heads[k];
      while cur != 0
        invariant Valid({}) && qs == old(qs) && next == old(next) && heads == old(heads)
        invariant 0 <= p <= |s| && cur == (if p < |s| then s[p] else 0)
        invariant prev == (if p == 0 then 0 else s[p - 1])
        invariant x !in s[..p]
        decreases |s| - p
      {
        NextAt(next, heads[k], s, 0, p);
        if cur == x {
          Unlinked(p, k);
          WithoutAt(s, x, p);
          if prev == 0 {
            heads := heads[k := next[cur]];
          } else {
            next := next[prev := next[cur]];
          }
          qs := qs[k := s[..p] + s[p + 1..]];
          return;
        }
        assert s[..p + 1] == s[..p] + [s[p]];
        prev, cur, p := cur, next[cur], p + 1;
      }
      assert s[..p] == s;
      WithoutAbsent(s, x);
      assert qs == qs[k := s];
    }

    lemma Unlinked(p: nat, k: nat)
      requires Valid({}) && k < |qs| && p < |qs[k]|
      ensures var s := qs[k];
              && 0 < s[p] < |next|
              && (p == 0 ==> Queues(next, heads[k := next[s[p]]], qs[k := s[..p] + s[p + 1..]], {}))
              && (p > 0 ==>
                    && 0 < s[p - 1] < |next|
                    && Queues(next[s[p - 1] := next[s[p]]], heads, qs[k := s[..p] + s[p + 1..]], {}))
    {
      var s := qs[k];
      var s' := s[..p] + s[p + 1..];
      assert s[p] in s;
      if p == 0 {
        assert s' == s[1..];
        QueueOthers(next, heads, next, heads[k := next[s[p]]], qs, qs[k := s'], {}, k, s[p]);
      } else {
        assert s[p - 1] in s;
        Unlink(next, heads[k], s, p, 0);
        QueueOthers(next, heads, next[s[p - 1] := next[s[p]]], heads, qs, qs[k := s'], {}, k, s[p]);
      }
    }
  }

  lemma {:induction false} WithoutAbsent(s: seq<int>, x: int)
    requires x !in s
    ensures Without(s, x) == s
  {
    if s != [] {
      WithoutAbsent(s[1..], x);
      assert s == [s[0]] + s[1..];
    }
  }
}
