/** Every task has a home: the VCPU that it was last woken on.  It is queued and
    run by no other, so no two processors ever run the same task.  The home is
    the VCPU that the task is bound to, unless it has been bound to another
    since. */
module Homes {
  import opened Links
  import opened TaskQueues
  import opened SchedModel
  import opened VcpuHooks

  predicate AllHome(home: seq<int>, q: seq<int>, v: int) {
    forall i :: 0 <= i < |q| ==> 0 <= q[i] < |home| && home[q[i]] == v
  }

  /** The tasks on the runqueue of VCPU v are at home on v. */
  ghost predicate QueueHomes(home: seq<int>, n: nat, qs: seq<seq<int>>) {
    forall v :: 0 <= v < n && v < |qs| ==> AllHome(home, qs[v], v)
  }

  predicate IsHome(home: seq<int>, x: int, v: int) {
    0 < x < |home| && home[x] == v
  }

  /** So is the task that v runs. */
  predicate Home(home: seq<int>, w: V, v: int) {
    w.running ==> IsHome(home, w.tr, v)
  }

  ghost predicate TaskHomes(home: seq<int>, vs: seq<V>) {
    forall v :: 0 <= v < |vs| ==> Home(home, vs[v], v)
  }

  ghost predicate NotRunning(vs: seq<V>, x: int) {
    forall u :: 0 <= u < |vs| && vs[u].running ==> vs[u].tr != x
  }

  /** Task x may be woken on the VCPU it is bound to: that is its home, or it is
      not running elsewhere. */
  ghost predicate Settled(cpu: seq<int>, home: seq<int>, vs: seq<V>, x: int) {
    0 <= x < |cpu| == |home| && (home[x] == cpu[x] || NotRunning(vs, x))
  }

  ghost predicate AllSettled(cpu: seq<int>, home: seq<int>, vs: seq<V>, q: seq<int>) {
    forall i :: 0 <= i < |q| ==> Settled(cpu, home, vs, q[i])
  }

  /** Otherwise two VCPUs can run x: u, and v once it is dispatched. */
  lemma UnsettledTwice(vs: seq<V>, qs: seq<seq<int>>, u: nat, v: nat, x: int)
    requires u < |vs| && v < |vs| && v < |qs| && u != v && vs[u].running && vs[u].tr == x && qs[v] == []
    ensures var rq := qs[v := qs[v] + [x]][v];
            rq != [] && Running(vs[v], rq).tr == x == vs[v := Running(vs[v], rq)][u].tr
  {
    assert qs[v] + [x] == [x];
  }

  /** Waking x on v leaves everybody settled who was. */
  lemma StillSettled(cpu: seq<int>, home: seq<int>, vs: seq<V>, vs': seq<V>, q: seq<int>, x: int, v: int)
    requires AllSettled(cpu, home, vs, q) && 0 <= x < |cpu| == |home| && |vs'| == |vs|
    requires forall u :: 0 <= u < |vs| ==> vs'[u].tr == vs[u].tr && vs'[u].running == vs[u].running
    ensures AllSettled(cpu[x := v], home[x := v], vs', q)
  {
  }

  /** Two processors run different tasks. */
  lemma RunnersDiffer(home: seq<int>, vs: seq<V>, vnext: seq<int>, vqueue: seq<int>, current: seq<int>,
                      vqs: seq<seq<int>>, qs: seq<seq<int>>, p: nat, p': nat)
    requires Shape(vs, vnext, vqueue, current, vqs) && Flags(vs, current, vqs, qs) && TaskHomes(home, vs)
    requires p < |current| && p' < |current| && p != p' && current[p] != NULL && current[p'] != NULL
    ensures 0 <= current[p] < |vs| && 0 <= current[p'] < |vs|
    ensures var tr, tr' := vs[current[p]].tr, vs[current[p']].tr; tr != 0 && tr' != 0 && tr != tr'
  {
    hide List, Sound;
    assert vs[current[p]].running && vs[current[p']].running;
    assert Home(home, vs[current[p]], current[p]) && Home(home, vs[current[p']], current[p']);
  }

  lemma SameTasks(home: seq<int>, vs: seq<V>, vs': seq<V>)
    requires TaskHomes(home, vs) && |vs'| == |vs|
    requires forall v :: 0 <= v < |vs| ==> vs'[v].tr == vs[v].tr && vs'[v].running == vs[v].running
    ensures TaskHomes(home, vs')
  {
    forall v | 0 <= v < |vs| ensures Home(home, vs'[v], v) { assert Home(home, vs[v], v); }
  }

  lemma {:induction false} ScannedHomes(home: seq<int>, vs: seq<V>, at: seq<nat>, tcur: nat, q: seq<int>,
                                        vs': seq<V>, T: nat, i: int)
    requires |at| == |vs| && InRange(vs, q) && ScanState(vs, at, tcur, q, |q|, vs', T, i) && TaskHomes(home, vs)
    ensures SameKinds(vs, vs') && TaskHomes(home, vs')
  {
    ScannedPeriods(vs, at, tcur, q);
    hide Fresh, Scan, Home;
    forall v | 0 <= v < |vs|
      ensures vs'[v].tr == vs[v].tr && vs'[v].running == vs[v].running
    {
      ScannedAt(vs, at, tcur, q, |q|, v);
    }
    hide Scanned;
    SameTasks(home, vs, vs');
  }

  lemma EndedHomes(home: seq<int>, vs: seq<V>, c: int, tdelta: nat, acct: nat, n0: nat, n1: nat, n2: nat)
    requires TaskHomes(home, vs) && (c == NULL || (0 <= c < |vs| && Sound(vs[c].server)))
    ensures var vs' := Ended(vs, c, tdelta, acct, n0, n1, n2); TaskHomes(home, vs') && SameKinds(vs, vs')
  {
    hide Sound, Home;
    SameTasks(home, vs, Ended(vs, c, tdelta, acct, n0, n1, n2));
  }

  lemma {:induction false} WithoutSub(s: seq<int>, x: int, y: int)
    ensures y in Without(s, x) ==> y in s
  {
    if s != [] { WithoutSub(s[1..], x, y); }
  }

  lemma {:induction false} WithoutGone(s: seq<int>, x: int)
    requires Distinct(s)
    ensures x !in Without(s, x)
  {
    if s != [] {
      assert Distinct(s[1..]);
      if s[0] != x { WithoutGone(s[1..], x); }
    }
  }

  lemma {:induction false} DispatchHomes(home: seq<int>, vs: seq<V>, vs': seq<V>, v: nat, qs: seq<seq<int>>,
                                         qs': seq<seq<int>>)
    requires QueueHomes(home, |vs|, qs) && TaskHomes(home, vs) && v < |vs| && Dispatched(vs, vs', v, qs, qs')
    requires forall x :: x in qs[v] ==> x > 0
    ensures QueueHomes(home, |vs'|, qs') && TaskHomes(home, vs') && SameKinds(vs, vs')
    ensures IsHome(home, vs'[v].tr, v)
  {
    var tr := vs'[v].tr;
    assert tr in qs[v];
    forall u | 0 <= u < |vs'| && u < |qs'| ensures AllHome(home, qs'[u], u) {
      assert AllHome(home, qs[u], u);
      forall i | 0 <= i < |qs'[u]| ensures qs'[u][i] in qs[u] {
        if u == v { WithoutSub(qs[v], tr, qs'[u][i]); }
      }
    }
    assert AllHome(home, qs[v], v);
    forall u | 0 <= u < |vs'| ensures Home(home, vs'[u], u) {
      assert Home(home, vs[u], u);
    }
  }

  /** No task is on two queues, or twice on one. */
  ghost predicate Separate(qs: seq<seq<int>>) {
    && (forall k :: 0 <= k < |qs| ==> Distinct(qs[k]))
    && (forall k, j, x :: 0 <= k < j < |qs| && x in qs[k] ==> x !in qs[j])
  }

  lemma QueuesSeparate(next: seq<int>, heads: seq<int>, qs: seq<seq<int>>, edited: set<int>)
    requires Queues(next, heads, qs, edited)
    ensures Separate(qs)
  {
    hide List, Distinct;
  }

  /** The dispatched task is on no queue at all. */
  lemma {:induction false} TakenOnNone(qs: seq<seq<int>>, w: V, tr: int, c: int, qs': seq<seq<int>>)
    requires Separate(qs) && TookTask(w, tr, c, qs, qs')
    ensures OnNone(qs', tr)
  {
    WithoutGone(qs[c], tr);
    forall j | 0 <= j < |qs'| ensures tr !in qs'[j] {
      assert j != c ==> tr !in qs[j];
    }
  }

  lemma SwitchHomes(home: seq<int>, vs: seq<V>, cur: int, c: int, begin: nat)
    requires TaskHomes(home, vs) && (cur == NULL || 0 <= cur < |vs|)
    requires c == NULL || (0 <= c < |vs| && IsHome(home, vs[c].tr, c))
    ensures TaskHomes(home, Switched(vs, cur, c, begin)) && SameKinds(vs, Switched(vs, cur, c, begin))
  {
    var vs' := Switched(vs, cur, c, begin);
    forall v | 0 <= v < |vs| ensures Home(home, vs'[v], v) { assert Home(home, vs[v], v); }
  }

  /** Task x, if v is not its home, is neither queued nor running elsewhere, and
      moves in with v. */
  lemma {:induction false} WokenHomes(home: seq<int>, vs: seq<V>, vs': seq<V>, qs: seq<seq<int>>, qs': seq<seq<int>>,
                                      x: int, v: nat)
    requires QueueHomes(home, |vs|, qs) && TaskHomes(home, vs)
    requires 0 <= x < |home| && v < |vs| && v < |qs| && OnlyOn(qs, x, v) && (home[x] == v || NotRunning(vs, x))
    requires |vs'| == |vs| && forall u :: 0 <= u < |vs| ==> vs'[u].tr == vs[u].tr && vs'[u].running == vs[u].running
    requires qs' == if x in qs[v] then qs else qs[v := qs[v] + [x]]
    ensures QueueHomes(home[x := v], |vs'|, qs') && TaskHomes(home[x := v], vs')
  {
    forall u | 0 <= u < |vs'| && u < |qs'| ensures AllHome(home[x := v], qs'[u], u) {
      assert AllHome(home, qs[u], u);
    }
    forall u | 0 <= u < |vs'| ensures Home(home[x := v], vs'[u], u) {
      assert Home(home, vs[u], u);
    }
  }

  /** An unbound task that is settled has never run. */
  lemma UnboundRests(cpu: seq<int>, home: seq<int>, vs: seq<V>, x: int)
    requires Settled(cpu, home, vs, x) && TaskHomes(home, vs) && !(0 <= cpu[x] < |vs|)
    ensures NotRunning(vs, x)
  {
    forall u | 0 <= u < |vs| && vs[u].running ensures vs[u].tr != x { assert Home(home, vs[u], u); }
  }

  lemma OtherHomes(home: seq<int>, n: nat, qs: seq<seq<int>>, qs': seq<seq<int>>)
    requires QueueHomes(home, n, qs) && |qs'| == |qs| && forall k :: 0 <= k < n && k < |qs| ==> qs'[k] == qs[k]
    ensures QueueHomes(home, n, qs')
  {
    forall v | 0 <= v < n && v < |qs'| ensures AllHome(home, qs'[v], v) { assert AllHome(home, qs[v], v); }
  }
}
