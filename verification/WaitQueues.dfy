/** The steps of a pass over the sleep queue, and of emptying a wait queue. */
module WaitQueues {
  import opened Links
  import opened TaskQueues
  import opened Sleep

  const UNBOUND: int := 0xFF

  lemma ExaminedRange(qs0: seq<seq<int>>, qs: seq<seq<int>>, nv: nat, i: nat, cpu: seq<int>,
                      time0: seq<nat>, time: seq<nat>, now: nat)
    requires Examined(qs0, qs, nv, i, cpu, time0, time, now)
    ensures nv < |qs0| == |qs| && |cpu| == |time0| == |time|
  {
  }

  /** The pass stands at sleeper x, position i of queue nv (0 at the end), and
      the last sleeper kept is `prev` (0 for none). */
  ghost predicate AtSleeper(qs: seq<seq<int>>, nv: nat, i: nat, x: int, prev: int, time: seq<nat>, now: nat) {
    && nv < |qs| && i <= |qs[nv]| && Distinct(qs[nv])
    && (forall j :: 0 <= j < |qs[nv]| ==> qs[nv][j] != 0)
    && x == (if i < |qs[nv]| then qs[nv][i] else 0)
    && prev == LastOr0(Asleep(qs[nv][..i], time, now))
  }

  lemma FirstSleeper(next: seq<int>, heads: seq<int>, qs: seq<seq<int>>, nv: nat, time: seq<nat>, now: nat)
    requires Queues(next, heads, qs, {}) && nv < |qs|
    ensures |heads| == |qs| && AtSleeper(qs, nv, 0, heads[nv], 0, time, now)
  {
    SleepersInRange(next, heads, qs, nv);
    assert qs[nv][..0] == [];
  }

  lemma AtIndex(qs: seq<seq<int>>, nv: nat, i: nat, x: int, prev: int, time: seq<nat>, now: nat)
    requires AtSleeper(qs, nv, i, x, prev, time, now) && x != 0
    ensures i < |qs[nv]| && x == qs[nv][i] && Distinct(qs[nv])
  {
  }

  lemma DrainedAll(qs0: seq<seq<int>>, qs: seq<seq<int>>, nv: nat, k: nat, cpu: seq<int>)
    requires nv < k < |qs0| && Drained(qs0, qs, nv, k, |qs0[k]|, cpu)
    ensures k < |qs| && qs[k] == []
  {
  }

  lemma LastSleeper(qs: seq<seq<int>>, nv: nat, i: nat, prev: int, time: seq<nat>, now: nat)
    requires AtSleeper(qs, nv, i, 0, prev, time, now)
    ensures i == |qs[nv]|
  {
  }

  lemma ExaminedSleeper(qs0: seq<seq<int>>, qs: seq<seq<int>>, nv: nat, i: nat, cpu: seq<int>,
                        time0: seq<nat>, time: seq<nat>, now: nat, x: int, prev: int, n: nat)
    requires Examined(qs0, qs, nv, i, cpu, time0, time, now) && AtSleeper(qs0, nv, i, x, prev, time0, now) && x != 0
    ensures i < |qs0[nv]| && 0 <= x < |cpu|
  {
  }

  lemma BoundLength(cpu: seq<int>, cpu': seq<int>)
    requires StillBound(cpu, cpu')
    ensures |cpu'| == |cpu|
  {
  }

  /** No task loses its VCPU. */
  ghost predicate StillBound(cpu: seq<int>, cpu': seq<int>) {
    |cpu'| == |cpu| && forall y :: 0 <= y < |cpu| && cpu[y] != UNBOUND ==> cpu'[y] == cpu[y]
  }

  lemma BoundReflexive(cpu: seq<int>)
    ensures StillBound(cpu, cpu)
  {
  }

  lemma BoundTransitive(a: seq<int>, b: seq<int>, c: seq<int>)
    requires StillBound(a, b) && StillBound(b, c)
    ensures StillBound(a, c)
  {
  }

  lemma DrainedStart(qs0: seq<seq<int>>, nv: nat, k: nat, cpu: seq<int>)
    requires nv < k < |qs0|
    ensures Drained(qs0, qs0, nv, k, 0, cpu)
  {
    assert qs0[k][..0] == [] && qs0[k][0..] == qs0[k];
  }

  lemma DrainedHead(qs0: seq<seq<int>>, qs: seq<seq<int>>, nv: nat, k: nat, i: nat, cpu: seq<int>)
    requires Drained(qs0, qs, nv, k, i, cpu)
    ensures qs[k] == [] <==> i == |qs0[k]|
    ensures qs[k] != [] ==> qs[k][0] == qs0[k][i] && qs[k][1..] == qs0[k][i + 1..]
  {
  }

  /** A task taken off the head of a queue is on no queue. */
  lemma RemovedHead(next: seq<int>, heads: seq<int>, qs: seq<seq<int>>, k: nat)
    requires Queues(next, heads, qs, {}) && k < |qs|
    ensures qs[k] != [] ==> OnNone(qs[k := qs[k][1..]], qs[k][0]) && 0 < qs[k][0] < |next|
  {
    if qs[k] != [] {
      assert qs[k][0] in qs[k];
      forall j | 0 <= j < |qs| && j != k ensures qs[k][0] !in qs[j] {}
    }
  }

  lemma NoneWakeable(cpu: seq<int>, nv: nat, qs: seq<seq<int>>, x: int)
    requires 0 <= x < |cpu| && OnNone(qs, x) && (cpu[x] == UNBOUND || 0 <= cpu[x] < nv)
    ensures Wakeable(cpu, nv, qs, x)
  {
  }

  function LastOr0(s: seq<int>): int {
    if s == [] then 0 else s[|s| - 1]
  }

  lemma SleepersInRange(next: seq<int>, heads: seq<int>, qs: seq<seq<int>>, k: nat)
    requires Queues(next, heads, qs, {}) && k < |qs|
    ensures forall j :: 0 <= j < |qs[k]| ==> 0 < qs[k][j] < |next|
    ensures Distinct(qs[k]) && |heads| == |qs|
    ensures heads[k] == if qs[k] == [] then 0 else qs[k][0]
  {
    forall j | 0 <= j < |qs[k]| ensures 0 < qs[k][j] < |next| { assert qs[k][j] in qs[k]; }
  }

  /** Sleeper i: its own link, and that it has not been touched so far. */
  lemma {:induction false} NextSleeper(next: seq<int>, heads: seq<int>, qs0: seq<seq<int>>, qs: seq<seq<int>>, k: nat,
                                       i: nat, cpu: seq<int>, time0: seq<nat>, time: seq<nat>, now: nat)
    requires Queues(next, heads, qs, {}) && Examined(qs0, qs, k, i, cpu, time0, time, now) && i < |qs0[k]|
    requires Distinct(qs0[k]) && |next| == |time|
    ensures var s, a := qs0[k], Asleep(qs0[k][..i], time0, now);
            && 0 < s[i] < |next| && time[s[i]] == time0[s[i]] && s[i] !in s[..i]
            && qs[k] == a + [s[i]] + s[i + 1..]
            && next[s[i]] == if i + 1 < |s| then s[i + 1] else 0
  {
    var s, a, x := qs0[k], Asleep(qs0[k][..i], time0, now), qs0[k][i];
    assert s[i..] == [x] + s[i + 1..];
    assert qs[k] == a + [x] + s[i + 1..];
    assert qs[k][|a|] == x && x in qs[k];
    NextAt(next, heads[k], qs[k], 0, |a|);
    if x in Due(s[..i], time0, now) { DueMember(s[..i], time0, now, x); }
  }

  /** The next sleeper is reached through the last link kept. */
  lemma {:induction false} AfterSleeper(next: seq<int>, heads: seq<int>, qs0: seq<seq<int>>, qs: seq<seq<int>>, k: nat,
                                        i: nat, cpu: seq<int>, time0: seq<nat>, time: seq<nat>, now: nat)
    requires Queues(next, heads, qs, {}) && Examined(qs0, qs, k, i, cpu, time0, time, now) && i < |qs0[k]|
    ensures var s, a := qs0[k], Asleep(qs0[k][..i], time0, now);
            && |heads| == |qs|
            && (a == [] ==> heads[k] == s[i])
            && (a != [] ==> 0 < a[|a| - 1] < |next| && next[a[|a| - 1]] == s[i])
  {
    var s, a := qs0[k], Asleep(qs0[k][..i], time0, now);
    assert qs[k][|a|] == s[i..][0] == s[i];
    if a != [] {
      assert qs[k][|a| - 1] == a[|a| - 1] && a[|a| - 1] in qs[k];
      NextAt(next, heads[k], qs[k], 0, |a| - 1);
    }
  }

  /** The queues after the first i tasks of wait queue k have been bound and
      woken. */
  ghost predicate Drained(qs0: seq<seq<int>>, qs: seq<seq<int>>, nv: nat, k: nat, i: nat, cpu: seq<int>) {
    && nv < k < |qs0| == |qs| && i <= |qs0[k]|
    && qs[k] == qs0[k][i..]
    && (forall v :: 0 <= v < nv ==> qs[v] == qs0[v] + Bound(qs0[k][..i], cpu, v))
    && Housed(qs0[k][..i], cpu, nv)
    && (forall j :: nv <= j < |qs| && j != k ==> qs[j] == qs0[j])
  }

  lemma {:induction false} DrainedStep(qs0: seq<seq<int>>, qs: seq<seq<int>>, qs': seq<seq<int>>, nv: nat, k: nat,
                                       i: nat,
                                       cpu: seq<int>, v: nat)
    requires Drained(qs0, qs, nv, k, i, cpu) && i < |qs0[k]| && v < nv && 0 <= qs0[k][i] < |cpu| && Distinct(qs0[k])
    requires qs' == qs[k := qs0[k][i + 1..]][v := qs[v] + [qs0[k][i]]]
    ensures Drained(qs0, qs', nv, k, i + 1, cpu[qs0[k][i] := v])
  {
    var s, x := qs0[k], qs0[k][i];
    assert s[..i + 1] == s[..i] + [x];
    hide Bound;
    forall u | 0 <= u < nv ensures qs'[u] == qs0[u] + Bound(s[..i + 1], cpu[x := v], u) {
      BoundNext(s[..i], x, cpu, u, v);
    }
  }

  lemma NotOn(qs: seq<seq<int>>, x: int, v: nat)
    requires OnNone(qs, x) && v < |qs|
    ensures x !in qs[v]
  {
  }

  /** Waking x into runqueue v leaves the links of the other sleepers alone. */
  lemma SleepersFramed(next: seq<int>, heads: seq<int>, next': seq<int>, qs: seq<seq<int>>, k: nat, v: nat, x: int)
    requires Queues(next, heads, qs, {k}) && OnNone(qs, x) && v < k < |qs| && |next'| == |next|
    requires forall y :: 0 <= y < |next| && y !in qs[v] && y != x ==> next'[y] == next[y]
    ensures forall y :: y in qs[k] && 0 <= y < |next| ==> next'[y] == next[y]
  {
    forall y | y in qs[k] && 0 <= y < |next| ensures next'[y] == next[y] {
      assert y !in qs[v];
      assert x !in qs[k];
    }
  }

  /** The task may be woken: it is bound to a VCPU and on no queue but that
      VCPU's runqueue, or it is unbound and on no queue at all. */
  ghost predicate Wakeable(cpu: seq<int>, nv: nat, qs: seq<seq<int>>, x: int)
    requires 0 <= x < |cpu|
  {
    && (cpu[x] == UNBOUND || 0 <= cpu[x] < nv)
    && OnlyOn(qs, x, cpu[x])
    && (cpu[x] == UNBOUND ==> OnNone(qs, x))
  }
}
