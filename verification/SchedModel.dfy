/** The two-level VCPU scheduler on values: per-processor queues of VCPUs,
    per-VCPU runqueues of tasks, and what schedule and wakeup keep.  VCPUs are
    indices into the static VCPU array, NULL is -1.  Queue k of the task queues
    is the runqueue of VCPU k; the queue after the runqueues is the sleep
    queue. */
module SchedModel {
  import opened Links
  import opened TaskQueues
  import opened VcpuHooks

  const NULL: int := -1

  datatype V = V(server: Server, pcpu: nat, runnable: bool, running: bool,
                 tr: int, quantum: nat, nextSched: nat, vtsc: nat, prevTsc: nat)

  ghost predicate OnProcessor(vs: seq<V>, q: seq<int>, p: nat) {
    forall i :: 0 <= i < |q| ==> 0 <= q[i] < |vs| && vs[q[i]].pcpu == p
  }

  /** Processor queues are lists of VCPUs of that processor; every server is
      sound; a VCPU that has been scheduled remembers a task. */
  ghost predicate Shape(vs: seq<V>, vnext: seq<int>, vqueue: seq<int>, current: seq<int>, vqs: seq<seq<int>>) {
    && |vnext| == |vs| && |vqueue| == |current| == |vqs|
    && SoundAll(vs)
    && (forall v :: 0 <= v < |vs| ==> vs[v].pcpu < |vqs|)
    && (forall p :: 0 <= p < |vqs| ==> List(vnext, vqueue[p], vqs[p], NULL))
    && (forall p :: 0 <= p < |vqs| ==> OnProcessor(vs, vqs[p], p))
    && (forall p :: 0 <= p < |vqs| && current[p] != NULL ==> 0 <= current[p] < |vs| && vs[current[p]].pcpu == p)
  }

  /** What the kernel's compiled-out checker demands of the flags: a VCPU is
      runnable iff it is on its processor's queue iff it has tasks to run, and
      running iff it is current on its processor. */
  ghost predicate Flags(vs: seq<V>, current: seq<int>, vqs: seq<seq<int>>, qs: seq<seq<int>>) {
    && RunFlags(vs, vqs, qs)
    && CurFlags(vs, current)
  }

  ghost predicate RunFlags(vs: seq<V>, vqs: seq<seq<int>>, qs: seq<seq<int>>) {
    && |vs| < |qs|
    && (forall v :: 0 <= v < |vs| ==> vs[v].pcpu < |vqs|)
    && (forall v :: 0 <= v < |vs| ==> (vs[v].runnable <==> v in vqs[vs[v].pcpu]))
    && (forall v :: 0 <= v < |vs| ==> (vs[v].runnable <==> qs[v] != []))
  }

  ghost predicate CurFlags(vs: seq<V>, current: seq<int>) {
    && (forall v :: 0 <= v < |vs| ==> vs[v].pcpu < |current|)
    && (forall v :: 0 <= v < |vs| ==> (vs[v].running <==> current[vs[v].pcpu] == v))
  }

  /** `vs'` differs from `vs` only in budgets, times and task registers. */
  ghost predicate SameFlags(vs: seq<V>, vs': seq<V>) {
    && |vs'| == |vs|
    && forall v :: 0 <= v < |vs| ==>
         && vs'[v].pcpu == vs[v].pcpu
         && vs'[v].runnable == vs[v].runnable
         && vs'[v].running == vs[v].running
  }

  /** Every VCPU's server is sound and remembers a task once scheduled. */
  ghost predicate SoundAll(vs: seq<V>) {
    && (forall v :: 0 <= v < |vs| ==> Sound(vs[v].server))
    && (forall v :: 0 <= v < |vs| && vs[v].nextSched != 0 ==> vs[v].tr != 0)
  }

  lemma {:induction false} ShapeRetained(vs: seq<V>, vs': seq<V>, vnext: seq<int>, vqueue: seq<int>,
                                         current: seq<int>, vqs: seq<seq<int>>)
    requires Shape(vs, vnext, vqueue, current, vqs) && SoundAll(vs') && |vs'| == |vs|
    requires forall v :: 0 <= v < |vs| ==> vs'[v].pcpu == vs[v].pcpu
    ensures Shape(vs', vnext, vqueue, current, vqs)
  {
    hide List, Sound;
    forall p | 0 <= p < |vqs| ensures OnProcessor(vs', vqs[p], p) {}
  }

  lemma {:induction false} Retain(vs: seq<V>, vs': seq<V>, vnext: seq<int>, vqueue: seq<int>, current: seq<int>,
                                  vqs: seq<seq<int>>, qs: seq<seq<int>>)
    requires Shape(vs, vnext, vqueue, current, vqs) && Flags(vs, current, vqs, qs)
    requires SameFlags(vs, vs') && SoundAll(vs')
    ensures Shape(vs', vnext, vqueue, current, vqs) && Flags(vs', current, vqs, qs)
  {
    hide List, Sound, SoundAll;
    ShapeRetained(vs, vs', vnext, vqueue, current, vqs);
  }

  // ----- picking a VCPU

  /** The server of VCPU v refreshed for a scheduling decision at `tcur`. */
  function Fresh(vs: seq<V>, at: seq<nat>, tcur: nat, v: int): Server
    requires 0 <= v < |vs| == |at|
  {
    Refresh(vs[v].server, tcur, at[v])
  }

  predicate InRange(vs: seq<V>, q: seq<int>) {
    forall i :: 0 <= i < |q| ==> 0 <= q[i] < |vs|
  }

  /** Entry i of the queue is the first one of least period among those with
      budget. */
  predicate Best(vs: seq<V>, at: seq<nat>, tcur: nat, q: seq<int>, i: int)
    requires |at| == |vs| && InRange(vs, q)
  {
    && 0 <= i < |q|
    && Budget(Fresh(vs, at, tcur, q[i])) > 0
    && forall j :: 0 <= j < |q| && Budget(Fresh(vs, at, tcur, q[j])) > 0 ==>
         Period(vs[q[i]].server) < Period(vs[q[j]].server)
         || (Period(vs[q[i]].server) == Period(vs[q[j]].server) && i <= j)
  }

  predicate NoneBudgeted(vs: seq<V>, at: seq<nat>, tcur: nat, q: seq<int>)
    requires |at| == |vs| && InRange(vs, q)
  {
    forall j :: 0 <= j < |q| ==> Budget(Fresh(vs, at, tcur, q[j])) == 0
  }

  /** The scan after n queue entries: the period and position of the best VCPU
      so far (0 and -1 for none).  Only entries that could beat it are
      refreshed. */
  function Scan(vs: seq<V>, at: seq<nat>, tcur: nat, q: seq<int>, n: nat): (nat, int)
    requires |at| == |vs| && InRange(vs, q) && n <= |q|
  {
    if n == 0 then (0, -1)
    else
      var (T, i) := Scan(vs, at, tcur, q, n - 1);
      if Beats(vs, q, n - 1, T) && Budget(Fresh(vs, at, tcur, q[n - 1])) > 0
      then (Period(vs[q[n - 1]].server), n - 1) else (T, i)
  }

  predicate Beats(vs: seq<V>, q: seq<int>, j: nat, T: nat)
    requires InRange(vs, q) && j < |q|
  {
    T == 0 || Period(vs[q[j]].server) < T
  }

  /** The VCPUs after the scan has refreshed what it looked at. */
  function Scanned(vs: seq<V>, at: seq<nat>, tcur: nat, q: seq<int>, n: nat): (r: seq<V>)
    requires |at| == |vs| && InRange(vs, q) && n <= |q|
    ensures |r| == |vs|
  {
    if n == 0 then vs
    else
      var r, v := Scanned(vs, at, tcur, q, n - 1), q[n - 1];
      if Beats(vs, q, n - 1, Scan(vs, at, tcur, q, n - 1).0)
      then r[v := vs[v].(server := Fresh(vs, at, tcur, v))] else r
  }

  lemma {:induction false} ScanBest(vs: seq<V>, at: seq<nat>, tcur: nat, q: seq<int>, n: nat)
    requires |at| == |vs| && InRange(vs, q) && n <= |q|
    requires forall v :: 0 <= v < |vs| ==> Period(vs[v].server) > 0
    ensures var (T, i) := Scan(vs, at, tcur, q, n);
            if i == -1 then T == 0 && NoneBudgeted(vs, at, tcur, q[..n])
            else Best(vs, at, tcur, q[..n], i) && T == Period(vs[q[i]].server)
    decreases n
  {
    if n > 0 {
      ScanBest(vs, at, tcur, q, n - 1);
      assert forall j :: 0 <= j < n ==> q[..n][j] == q[j];
      assert forall j :: 0 <= j < n - 1 ==> q[..n - 1][j] == q[j];
    }
  }

  /** Nothing but servers of queued VCPUs changes, each only by a refresh; the
      pick and every VCPU with a smaller period are refreshed. */
  lemma {:induction false} ScannedAt(vs: seq<V>, at: seq<nat>, tcur: nat, q: seq<int>, n: nat, v: int)
    requires |at| == |vs| && InRange(vs, q) && n <= |q| && 0 <= v < |vs|
    ensures var r := Scanned(vs, at, tcur, q, n)[v];
            r == vs[v] || (v in q[..n] && r == vs[v].(server := Fresh(vs, at, tcur, v)))
    decreases n
  {
    if n > 0 {
      ScannedAt(vs, at, tcur, q, n - 1, v);
      assert q[..n] == q[..n - 1] + [q[n - 1]];
    }
  }

  /** The variables of the scan loop after n entries. */
  ghost predicate ScanState(vs0: seq<V>, at: seq<nat>, tcur: nat, q: seq<int>, n: nat, vs: seq<V>, T: nat, i: int)
    requires |at| == |vs0| && InRange(vs0, q)
  {
    && n <= |q|
    && (T, i) == Scan(vs0, at, tcur, q, n)
    && vs == Scanned(vs0, at, tcur, q, n)
  }

  /** The element at a position of a list, NULL outside it. */
  function At(q: seq<int>, i: int): int {
    if 0 <= i < |q| then q[i] else NULL
  }

  lemma ScanStart(vs: seq<V>, at: seq<nat>, tcur: nat, q: seq<int>)
    requires |at| == |vs| && InRange(vs, q)
    ensures ScanState(vs, at, tcur, q, 0, vs, 0, -1)
  {
  }

  /** One round of the scan loop. */
  lemma {:induction false} ScanStep(vs0: seq<V>, at: seq<nat>, tcur: nat, q: seq<int>, n: nat, vs: seq<V>, T: nat,
                                    i: int)
    requires |at| == |vs0| && InRange(vs0, q) && n < |q| && Distinct(q)
    requires ScanState(vs0, at, tcur, q, n, vs, T, i)
    ensures |vs| == |vs0| && 0 <= q[n] < |vs|
    ensures var v := q[n];
            var sv := Refresh(vs[v].server, tcur, at[v]);
            var look := T == 0 || Period(vs[v].server) < T;
            && Period(sv) == Period(vs[v].server)
            && (look && Budget(sv) > 0 ==>
                  ScanState(vs0, at, tcur, q, n + 1, vs[v := vs[v].(server := sv)], Period(sv), n))
            && (look && Budget(sv) == 0 ==>
                  ScanState(vs0, at, tcur, q, n + 1, vs[v := vs[v].(server := sv)], T, i))
            && (!look ==> ScanState(vs0, at, tcur, q, n + 1, vs, T, i))
  {
    ScannedAt(vs0, at, tcur, q, n, q[n]);
  }

  lemma {:induction false} ScanRange(vs: seq<V>, at: seq<nat>, tcur: nat, q: seq<int>, n: nat)
    requires |at| == |vs| && InRange(vs, q) && n <= |q|
    requires forall v :: 0 <= v < |vs| ==> Period(vs[v].server) > 0
    ensures var (T, i) := Scan(vs, at, tcur, q, n);
            -1 <= i < n && (if i == -1 then T == 0 else T == Period(vs[q[i]].server))
    decreases n
  {
    if n > 0 { ScanRange(vs, at, tcur, q, n - 1); }
  }

  lemma {:induction false} ScannedFresh(vs: seq<V>, at: seq<nat>, tcur: nat, q: seq<int>, n: nat, j: nat)
    requires |at| == |vs| && InRange(vs, q) && j < n <= |q|
    requires forall v :: 0 <= v < |vs| ==> Period(vs[v].server) > 0
    requires var (T, i) := Scan(vs, at, tcur, q, n); T == 0 || Period(vs[q[j]].server) < T || i == j
    ensures Scanned(vs, at, tcur, q, n)[q[j]].server == Fresh(vs, at, tcur, q[j])
    decreases n
  {
    hide Fresh, Period, Budget;
    ScanRange(vs, at, tcur, q, n - 1);
    if j < n - 1 { ScannedFresh(vs, at, tcur, q, n - 1, j); }
  }

  /** The distance to the event of VCPU v, if it may matter: its period is at
      most `T`, or T is 0. */
  function Event(vs: seq<V>, ev: seq<nat>, tcur: nat, T: nat, v: int): seq<nat>
    requires 0 <= v < |vs| == |ev|
  {
    var e := NextEvent(vs[v].server, ev[v]);
    if (T == 0 || Period(vs[v].server) <= T) && e != 0 then [Wrap(e - tcur)] else []
  }

  /** The distances that matter, in queue order. */
  function Events(vs: seq<V>, ev: seq<nat>, tcur: nat, T: nat, q: seq<int>): seq<nat>
    requires |ev| == |vs| && InRange(vs, q)
  {
    if q == [] then [] else Event(vs, ev, tcur, T, q[0]) + Events(vs, ev, tcur, T, q[1..])
  }

  lemma {:induction false} EventsSnoc(vs: seq<V>, ev: seq<nat>, tcur: nat, T: nat, q: seq<int>, v: int)
    requires |ev| == |vs| && InRange(vs, q) && 0 <= v < |vs|
    ensures InRange(vs, q + [v])
    ensures Events(vs, ev, tcur, T, q + [v]) == Events(vs, ev, tcur, T, q) + Event(vs, ev, tcur, T, v)
  {
    hide Event;
    if q == [] {
      assert q + [v] == [v];
    } else {
      assert (q + [v])[1..] == q[1..] + [v];
      EventsSnoc(vs, ev, tcur, T, q[1..], v);
    }
  }

  /** The event loop after n queue entries has found delay d. */
  ghost predicate DelayState(vs: seq<V>, ev: seq<nat>, tcur: nat, T: nat, q: seq<int>, d0: nat, n: nat, d: nat)
    requires |ev| == |vs| && InRange(vs, q)
  {
    n <= |q| && d == Shorten(d0, Events(vs, ev, tcur, T, q[..n]))
  }

  lemma DelayStart(vs: seq<V>, ev: seq<nat>, tcur: nat, T: nat, q: seq<int>, d0: nat)
    requires |ev| == |vs| && InRange(vs, q)
    ensures DelayState(vs, ev, tcur, T, q, d0, 0, d0)
  {
    assert q[..0] == [];
  }

  lemma DelayEnd(vs: seq<V>, ev: seq<nat>, tcur: nat, T: nat, q: seq<int>, d0: nat, d: nat)
    requires |ev| == |vs| && InRange(vs, q) && DelayState(vs, ev, tcur, T, q, d0, |q|, d)
    ensures d == Shorten(d0, Events(vs, ev, tcur, T, q))
  {
    assert q[..|q|] == q;
  }

  /** One round of the event loop. */
  lemma {:induction false} DelayStep(vs: seq<V>, ev: seq<nat>, tcur: nat, T: nat, q: seq<int>, d0: nat, n: nat, d: nat)
    requires |ev| == |vs| && InRange(vs, q) && n < |q| && DelayState(vs, ev, tcur, T, q, d0, n, d)
    ensures var v := q[n];
            var e := NextEvent(vs[v].server, ev[v]);
            var d' := if (T == 0 || Period(vs[v].server) <= T) && e != 0 && (d == 0 || Wrap(e - tcur) < d)
                      then Wrap(e - tcur) else d;
            DelayState(vs, ev, tcur, T, q, d0, n + 1, d')
  {
    hide NextEvent, Period, Wrap, Events;
    var v := q[n];
    assert q[..n + 1] == q[..n] + [v];
    EventsSnoc(vs, ev, tcur, T, q[..n], v);
    var es := Events(vs, ev, tcur, T, q[..n]);
    if Event(vs, ev, tcur, T, v) == [] {
      assert es + [] == es;
    } else {
      ShortenSnoc(d0, es, Wrap(NextEvent(vs[v].server, ev[v]) - tcur));
    }
  }

  lemma {:induction false} ShortenSnoc(d: nat, es: seq<nat>, e: nat)
    ensures Shorten(d, es + [e]) == var r := Shorten(d, es); if r == 0 || e < r then e else r
    decreases |es|
  {
    if es == [] {
      assert es + [e] == [e];
    } else {
      assert (es + [e])[1..] == es[1..] + [e];
      ShortenSnoc(if d == 0 || es[0] < d then es[0] else d, es[1..], e);
    }
  }

  // ----- second-level scheduling

  /** vcpu_internal_schedule keeps the task of an unexpired quantum if it is
      runnable, and otherwise takes the next task in turn. */
  predicate InQuantum(v: V, rq: seq<int>) {
    v.nextSched != 0 && v.nextSched > v.vtsc && v.tr in rq
  }

  function NextTask(v: V, rq: seq<int>): int
    requires rq != []
  {
    if InQuantum(v, rq) then v.tr else rq[0]
  }

  /** VCPU v with its next task, in a new quantum if that is another one. */
  function Turned(v: V, rq: seq<int>): V
    requires rq != []
  {
    v.(tr := NextTask(v, rq), nextSched := if InQuantum(v, rq) then v.nextSched else v.vtsc + v.quantum)
  }

  /** The same, runnable iff there are more tasks than the one that runs. */
  function Running(v: V, rq: seq<int>): V
    requires rq != []
  {
    Turned(v, rq).(runnable := Without(rq, NextTask(v, rq)) != [])
  }

  function Omit(q: seq<int>, i: nat): seq<int>
    requires i < |q|
  {
    q[..i] + q[i + 1..]
  }

  /** `tr` is the task VCPU `v` (number c) should run; it came from c's own
      runqueue and no other queue changed. */
  ghost predicate TookTask(v: V, tr: int, c: int, qs: seq<seq<int>>, qs': seq<seq<int>>) {
    && 0 <= c < |qs| && qs[c] != []
    && tr == NextTask(v, qs[c]) && tr != 0 && tr in qs[c]
    && qs' == qs[c := Without(qs[c], tr)]
  }

  /** VCPU v runs the task that its own runqueue and quantum call for, which
      leaves the runqueue; nothing else changes. */
  ghost predicate Dispatched(vs: seq<V>, vs': seq<V>, v: nat, qs: seq<seq<int>>, qs': seq<seq<int>>)
    requires v < |vs|
  {
    && v < |qs| && qs[v] != [] && NextTask(vs[v], qs[v]) != 0
    && vs' == vs[v := Running(vs[v], qs[v])]
    && qs' == qs[v := Without(qs[v], NextTask(vs[v], qs[v]))]
  }

  /** The VCPUs after the current one `c` (if any) has ended its timeslice. */
  function Ended(vs: seq<V>, c: int, tdelta: nat, acct: nat, n0: nat, n1: nat, n2: nat): (r: seq<V>)
    requires c == NULL || (0 <= c < |vs| && Sound(vs[c].server))
    ensures |r| == |vs|
  {
    if c == NULL then vs
    else
      var v := vs[c];
      vs[c := v.(vtsc := if v.prevTsc != 0 then v.vtsc + Wrap(acct - v.prevTsc) else v.vtsc,
                 server := EndSlice(v.server, tdelta, v.runnable, n0, n1, n2))]
  }

  lemma {:induction false} EndedKeeps(vs: seq<V>, c: int, tdelta: nat, acct: nat, n0: nat, n1: nat, n2: nat)
    requires SoundAll(vs) && (c == NULL || 0 <= c < |vs|)
    ensures var r := Ended(vs, c, tdelta, acct, n0, n1, n2); SoundAll(r) && SameFlags(vs, r)
  {
    if c != NULL { EndSliceSound(vs[c].server, tdelta, vs[c].runnable, n0, n1, n2); }
  }

  lemma {:induction false} ScannedKeeps(vs: seq<V>, at: seq<nat>, tcur: nat, q: seq<int>, n: nat)
    requires |at| == |vs| && InRange(vs, q) && n <= |q| && SoundAll(vs)
    ensures SoundAll(Scanned(vs, at, tcur, q, n)) && SameFlags(vs, Scanned(vs, at, tcur, q, n))
  {
    hide Sound;
    forall v | 0 <= v < |vs| ensures var r := Scanned(vs, at, tcur, q, n)[v];
      && Sound(r.server) && (r.nextSched != 0 ==> r.tr != 0)
      && r.pcpu == vs[v].pcpu && r.runnable == vs[v].runnable && r.running == vs[v].running
    {
      ScannedAt(vs, at, tcur, q, n, v);
    }
  }

  /** Taking VCPU q[i] off its processor's queue. */
  lemma {:induction false} Dequeued(vs: seq<V>, vnext: seq<int>, vqueue: seq<int>, current: seq<int>,
                                    vqs: seq<seq<int>>, p: nat, i: nat)
    requires Shape(vs, vnext, vqueue, current, vqs) && p < |vqs| && i < |vqs[p]|
    ensures |vnext| == |vs| && |vqueue| == |vqs| && InRange(vs, vqs[p])
    ensures var q := vqs[p];
            var vqs' := vqs[p := Omit(q, i)];
            && (i == 0 ==> Shape(vs, vnext, vqueue[p := vnext[q[0]]], current, vqs'))
            && (i > 0 ==> Shape(vs, vnext[q[i - 1] := vnext[q[i]]], vqueue, current, vqs'))
  {
    QueueFacts(vs, vnext, vqueue, current, vqs, p);
    hide SoundAll, Period;
    var q := vqs[p];
    var q' := Omit(q, i);
    assert OnProcessor(vs, q', p);
    if i == 0 {
      assert q' == q[1..];
    } else {
      Unlink(vnext, vqueue[p], q, i, NULL);
      var vnext' := vnext[q[i - 1] := vnext[q[i]]];
      forall r | 0 <= r < |vqs| && r != p ensures List(vnext', vqueue[r], vqs[r], NULL) {
        assert OnProcessor(vs, vqs[r], r);
        Frame(vnext, vnext', vqueue[r], vqs[r], NULL);
      }
    }
  }

  lemma {:induction false} DequeuedFlags(vs: seq<V>, vqs: seq<seq<int>>, qs: seq<seq<int>>, p: nat, i: nat)
    requires RunFlags(vs, vqs, qs) && p < |vqs| && i < |vqs[p]| && Distinct(vqs[p]) && OnProcessor(vs, vqs[p], p)
    ensures var v := vqs[p][i];
            RunFlags(vs[v := vs[v].(runnable := false)], vqs[p := Omit(vqs[p], i)], qs[v := []])
  {
    var q, v := vqs[p], vqs[p][i];
    var q' := Omit(q, i);
    assert v !in q';
    forall u | 0 <= u < |vs| && u != v ensures u in q' <==> u in q {
      assert q == q[..i] + [v] + q[i + 1..];
    }
  }

  /** The dispatch of q[i] whose runqueue is left with `rest`. */
  lemma {:induction false} DispatchKeeps(vs: seq<V>, vnext: seq<int>, vqueue: seq<int>, current: seq<int>,
                                         vqs: seq<seq<int>>, qs: seq<seq<int>>, p: nat, i: nat, rest: seq<int>)
    requires Shape(vs, vnext, vqueue, current, vqs) && Flags(vs, current, vqs, qs) && p < |vqs| && i < |vqs[p]|
    ensures |vnext| == |vs| && |vqueue| == |vqs| && InRange(vs, vqs[p])
    ensures var q := vqs[p];
            var v := q[i];
            var vs', vqs' := vs[v := vs[v].(runnable := false)], vqs[p := Omit(q, i)];
            && (rest != [] ==> Flags(vs, current, vqs, qs[v := rest]))
            && (rest == [] ==>
                  && Flags(vs', current, vqs', qs[v := rest])
                  && (i == 0 ==> Shape(vs', vnext, vqueue[p := vnext[q[0]]], current, vqs'))
                  && (i > 0 ==> Shape(vs', vnext[q[i - 1] := vnext[q[i]]], vqueue, current, vqs')))
  {
    QueueFacts(vs, vnext, vqueue, current, vqs, p);
    Dequeued(vs, vnext, vqueue, current, vqs, p, i);
    DequeuedFlags(vs, vqs, qs, p, i);
    hide List, Sound, Distinct, Period;
    var q, v := vqs[p], vqs[p][i];
    assert v in q && OnProcessor(vs, q, p);
    var vs', vqs' := vs[v := vs[v].(runnable := false)], vqs[p := Omit(q, i)];
    assert SoundAll(vs');
    if i == 0 {
      ShapeRetained(vs, vs', vnext, vqueue[p := vnext[q[0]]], current, vqs');
    } else {
      ShapeRetained(vs, vs', vnext[q[i - 1] := vnext[q[i]]], vqueue, current, vqs');
    }
  }

  /** c is the VCPU to run: the first of least period among the queued ones
      with budget, or NULL if none has any. */
  ghost predicate Chosen(vs: seq<V>, at: seq<nat>, tcur: nat, q: seq<int>, c: int)
    requires |at| == |vs| && InRange(vs, q)
  {
    if c == NULL then NoneBudgeted(vs, at, tcur, q)
    else exists i :: 0 <= i < |q| && c == q[i] && Best(vs, at, tcur, q, i)
  }

  lemma {:induction false} ScannedPeriods(vs: seq<V>, at: seq<nat>, tcur: nat, q: seq<int>)
    requires |at| == |vs| && InRange(vs, q)
    ensures var vs' := Scanned(vs, at, tcur, q, |q|);
            && (forall v :: 0 <= v < |vs| ==> Period(vs'[v].server) == Period(vs[v].server))
            && (forall v :: 0 <= v < |vs| ==> (vs'[v].server.Main? <==> vs[v].server.Main?))
  {
    var vs' := Scanned(vs, at, tcur, q, |q|);
    forall v | 0 <= v < |vs|
      ensures Period(vs'[v].server) == Period(vs[v].server) && (vs'[v].server.Main? <==> vs[v].server.Main?)
    {
      ScannedAt(vs, at, tcur, q, |q|, v);
    }
  }

  /** The VCPU that the scan picks, NULL for none. */
  function Choice(vs: seq<V>, at: seq<nat>, tcur: nat, q: seq<int>): int
    requires |at| == |vs| && InRange(vs, q)
  {
    At(q, Scan(vs, at, tcur, q, |q|).1)
  }

  /** The table after the pick has been dispatched. */
  function Planned(vs: seq<V>, at: seq<nat>, tcur: nat, q: seq<int>, qs: seq<seq<int>>): (r: seq<V>)
    requires |at| == |vs| && InRange(vs, q)
    ensures |r| == |vs|
  {
    var vs1, c := Scanned(vs, at, tcur, q, |q|), Choice(vs, at, tcur, q);
    if 0 <= c < |vs| && c < |qs| && qs[c] != [] then vs1[c := Running(vs1[c], qs[c])] else vs1
  }

  /** The processor's queue after that: the pick leaves it with its last task. */
  function QueueAfter(vs: seq<V>, at: seq<nat>, tcur: nat, q: seq<int>, qs: seq<seq<int>>): seq<int>
    requires |at| == |vs| && InRange(vs, q)
  {
    var i := Scan(vs, at, tcur, q, |q|).1;
    if 0 <= i < |q| && q[i] < |qs| && qs[q[i]] != [] && Without(qs[q[i]], NextTask(vs[q[i]], qs[q[i]])) == []
    then Omit(q, i) else q
  }

  lemma QueueAfterNone(vs: seq<V>, at: seq<nat>, tcur: nat, vqs: seq<seq<int>>, p: nat, qs: seq<seq<int>>,
                       vs1: seq<V>, T: nat)
    requires |at| == |vs| && p < |vqs| && InRange(vs, vqs[p]) && ScanState(vs, at, tcur, vqs[p], |vqs[p]|, vs1, T, -1)
    ensures vqs == vqs[p := QueueAfter(vs, at, tcur, vqs[p], qs)]
  {
    hide Scan, Scanned;
  }

  lemma {:induction false} QueueAfterIs(vs: seq<V>, at: seq<nat>, tcur: nat, vqs: seq<seq<int>>, p: nat,
                                        qs: seq<seq<int>>, vs1: seq<V>, vs': seq<V>, qs': seq<seq<int>>, T: nat, i: nat)
    requires |at| == |vs| && p < |vqs| && InRange(vs, vqs[p]) && ScanState(vs, at, tcur, vqs[p], |vqs[p]|, vs1, T, i)
    requires i < |vqs[p]| && |vs1| == |vs|
    requires vs1[vqs[p][i]] == vs[vqs[p][i]].(server := Fresh(vs, at, tcur, vqs[p][i]))
    requires Dispatched(vs1, vs', vqs[p][i], qs, qs')
    ensures vqs[p][i] < |qs'|
    ensures vqs[p := QueueAfter(vs, at, tcur, vqs[p], qs)]
            == if qs'[vqs[p][i]] == [] then vqs[p := Omit(vqs[p], i)] else vqs
  {
    hide Scan, Scanned, Fresh;
    var c := vqs[p][i];
    assert NextTask(vs1[c], qs[c]) == NextTask(vs[c], qs[c]);
    assert vqs[p := vqs[p]] == vqs;
  }

  /** The scan chooses it, refreshes it, and refreshes every queued VCPU of
      smaller period. */
  lemma {:induction false} ScanChooses(vs: seq<V>, at: seq<nat>, tcur: nat, q: seq<int>, vs': seq<V>, T: nat, i: int)
    requires |at| == |vs| && InRange(vs, q) && SoundAll(vs) && ScanState(vs, at, tcur, q, |q|, vs', T, i)
    ensures -1 <= i < |q| && Chosen(vs, at, tcur, q, At(q, i))
    ensures T == if i == -1 then 0 else Period(vs[q[i]].server)
    ensures SoundAll(vs') && SameFlags(vs, vs')
    ensures forall v :: 0 <= v < |vs| ==> Period(vs'[v].server) == Period(vs[v].server)
    ensures forall j :: 0 <= j < |q| && (i == -1 || i == j || Period(vs[q[j]].server) < T) ==>
              vs'[q[j]].server == Fresh(vs, at, tcur, q[j])
  {
    forall v | 0 <= v < |vs| ensures Period(vs[v].server) > 0 { PeriodPositive(vs[v].server); }
    hide Sound, Period, Fresh, Budget, Best, NoneBudgeted;
    ScanBest(vs, at, tcur, q, |q|);
    ScanRange(vs, at, tcur, q, |q|);
    ScannedKeeps(vs, at, tcur, q, |q|);
    ScannedPeriods(vs, at, tcur, q);
    assert q[..|q|] == q;
    hide Scan, Scanned;
    forall j | 0 <= j < |q| && (i == -1 || i == j || Period(vs[q[j]].server) < T)
      ensures vs'[q[j]].server == Fresh(vs, at, tcur, q[j])
    {
      ScannedFresh(vs, at, tcur, q, |q|, j);
    }
  }

  /** The outcome of choosing and dispatching: `vs`, `qs` before, `vs'`, `qs'`
      after; c and T are the VCPU chosen and its period. */
  ghost predicate Selected(vs: seq<V>, at: seq<nat>, tcur: nat, q: seq<int>, qs: seq<seq<int>>,
                           vs': seq<V>, qs': seq<seq<int>>, p: nat, c: int, T: nat)
    requires |at| == |vs| && InRange(vs, q)
  {
    && |vs'| == |vs|
    && Chosen(vs, at, tcur, q, c)
    && (forall v :: 0 <= v < |vs| ==> Period(vs'[v].server) == Period(vs[v].server))
    && (forall j :: 0 <= j < |q| && (c == NULL || c == q[j] || Period(vs[q[j]].server) < T) ==>
          vs'[q[j]].server == Fresh(vs, at, tcur, q[j]))
    && (c == NULL ==> qs' == qs && T == 0)
    && (c != NULL ==>
          && 0 <= c < |vs| && vs'[c].pcpu == p
          && T == Period(vs[c].server) == Period(vs'[c].server)
          && vs'[c].server == Fresh(vs, at, tcur, c)
          && TookTask(vs[c], vs'[c].tr, c, qs, qs'))
  }

  /** The scan alone: complete when it finds nothing to run. */
  lemma {:induction false} ScanSelects(vs: seq<V>, vnext: seq<int>, vqueue: seq<int>, current: seq<int>,
                                       vqs: seq<seq<int>>, qs: seq<seq<int>>, at: seq<nat>, tcur: nat,
                                       p: nat, vs': seq<V>, T: nat, i: int)
    requires Shape(vs, vnext, vqueue, current, vqs) && Flags(vs, current, vqs, qs)
    requires |at| == |vs| && p < |vqs| && InRange(vs, vqs[p])
    requires ScanState(vs, at, tcur, vqs[p], |vqs[p]|, vs', T, i)
    ensures -1 <= i < |vqs[p]|
    ensures At(vqs[p], i) == NULL <==> i == -1
    ensures Shape(vs', vnext, vqueue, current, vqs) && Flags(vs', current, vqs, qs)
    ensures SoundAll(vs) && OnProcessor(vs, vqs[p], p)
    ensures i == -1 ==> Selected(vs, at, tcur, vqs[p], qs, vs', qs, p, NULL, T)
    ensures i != -1 ==> vs'[vqs[p][i]] == vs[vqs[p][i]].(server := Fresh(vs, at, tcur, vqs[p][i]))
  {
    ScanChooses(vs, at, tcur, vqs[p], vs', T, i);
    hide List, Sound, Period, Fresh, Best, Chosen;
    Retain(vs, vs', vnext, vqueue, current, vqs, qs);
    if i != -1 {
      assert OnProcessor(vs, vqs[p], p);
      ScannedAt(vs, at, tcur, vqs[p], |vqs[p]|, vqs[p][i]);
    }
  }

  lemma {:induction false} DispatchSelects(vs: seq<V>, at: seq<nat>, tcur: nat, q: seq<int>, qs: seq<seq<int>>,
                                           vs1: seq<V>, vs': seq<V>, qs': seq<seq<int>>, p: nat, i: nat, T: nat)
    requires |at| == |vs| && InRange(vs, q) && SoundAll(vs) && OnProcessor(vs, q, p) && i < |q|
    requires ScanState(vs, at, tcur, q, |q|, vs1, T, i) && |vs1| == |vs|
    requires vs1[q[i]] == vs[q[i]].(server := Fresh(vs, at, tcur, q[i]))
    requires Dispatched(vs1, vs', q[i], qs, qs')
    ensures Selected(vs, at, tcur, q, qs, vs', qs', p, q[i], T)
  {
    ScanChooses(vs, at, tcur, q, vs1, T, i);
    hide Sound, SoundAll, Best, ScanState, Budget;
    assert Period(vs1[q[i]].server) == Period(vs[q[i]].server);
  }

  lemma {:induction false} EndedState(vs: seq<V>, vnext: seq<int>, vqueue: seq<int>, current: seq<int>,
                                      vqs: seq<seq<int>>, qs: seq<seq<int>>, p: nat, tdelta: nat,
                                      acct: nat, n0: nat, n1: nat, n2: nat)
    requires Shape(vs, vnext, vqueue, current, vqs) && Flags(vs, current, vqs, qs) && p < |current|
    ensures current[p] == NULL || (0 <= current[p] < |vs| && Sound(vs[current[p]].server))
    ensures var vs' := Ended(vs, current[p], tdelta, acct, n0, n1, n2);
            Shape(vs', vnext, vqueue, current, vqs) && Flags(vs', current, vqs, qs)
  {
    hide List, Sound;
    EndedKeeps(vs, current[p], tdelta, acct, n0, n1, n2);
    Retain(vs, Ended(vs, current[p], tdelta, acct, n0, n1, n2), vnext, vqueue, current, vqs, qs);
  }

  lemma {:induction false} SwitchKeeps(vs: seq<V>, vnext: seq<int>, vqueue: seq<int>, current: seq<int>,
                                       vqs: seq<seq<int>>, qs: seq<seq<int>>, p: nat, c: int, begin: nat)
    requires Shape(vs, vnext, vqueue, current, vqs) && Flags(vs, current, vqs, qs) && p < |current|
    requires c == NULL || (0 <= c < |vs| && vs[c].pcpu == p)
    ensures current[p] == NULL || 0 <= current[p] < |vs|
    ensures var vs' := Switched(vs, current[p], c, begin);
            && Shape(vs', vnext, vqueue, current[p := c], vqs)
            && Flags(vs', current[p := c], vqs, qs)
  {
    hide List, Sound;
    var vs' := Switched(vs, current[p], c, begin);
    SwitchFlags(vs, current, p, c, begin);
    hide CurFlags, Switched;
    ShapeRetained(vs, vs', vnext, vqueue, current, vqs);
  }

  lemma {:induction false} SwitchFlags(vs: seq<V>, current: seq<int>, p: nat, c: int, begin: nat)
    requires CurFlags(vs, current) && p < |current| && SoundAll(vs)
    requires current[p] == NULL || (0 <= current[p] < |vs| && vs[current[p]].pcpu == p)
    requires c == NULL || (0 <= c < |vs| && vs[c].pcpu == p)
    ensures var vs' := Switched(vs, current[p], c, begin);
            && CurFlags(vs', current[p := c]) && SoundAll(vs')
            && forall v :: 0 <= v < |vs| ==> vs'[v].pcpu == vs[v].pcpu && vs'[v].runnable == vs[v].runnable
  {
    hide Sound;
  }

  /** The running flags after processor p switches from `cur` to `c`. */
  function Switched(vs: seq<V>, cur: int, c: int, begin: nat): (r: seq<V>)
    requires cur == NULL || 0 <= cur < |vs|
    requires c == NULL || 0 <= c < |vs|
    ensures |r| == |vs|
  {
    var r := if cur == NULL then vs else vs[cur := vs[cur].(running := false)];
    if c == NULL then r else r[c := r[c].(running := true, prevTsc := begin)]
  }

  /** Switching changes no server, so it changes no event. */
  lemma {:induction false} SwitchEvents(vs: seq<V>, cur: int, c: int, begin: nat, ev: seq<nat>, tcur: nat, T: nat,
                                        q: seq<int>)
    requires cur == NULL || 0 <= cur < |vs|
    requires c == NULL || 0 <= c < |vs|
    requires |ev| == |vs| && InRange(vs, q)
    ensures Events(Switched(vs, cur, c, begin), ev, tcur, T, q) == Events(vs, ev, tcur, T, q)
  {
    if q != [] {
      assert Switched(vs, cur, c, begin)[q[0]].server == vs[q[0]].server;
      hide Switched, Wrap, NextEvent, Period;
      SwitchEvents(vs, cur, c, begin, ev, tcur, T, q[1..]);
    }
  }

  /** Appending VCPU v to its processor's queue. */
  lemma {:induction false} Enqueued(vs: seq<V>, vnext: seq<int>, vqueue: seq<int>, current: seq<int>,
                                    vqs: seq<seq<int>>, v: nat)
    requires Shape(vs, vnext, vqueue, current, vqs) && v < |vs| && vs[v].pcpu < |vqs| && v !in vqs[vs[v].pcpu]
    ensures |vnext| == |vs| && |vqueue| == |vqs|
    ensures var p := vs[v].pcpu;
            var q, vqs' := vqs[p], vqs[p := vqs[p] + [v]];
            && (q == [] ==> Shape(vs, vnext[v := NULL], vqueue[p := v], current, vqs'))
            && (q != [] ==>
                  && 0 <= q[|q| - 1] < |vs|
                  && Shape(vs, vnext[v := NULL][q[|q| - 1] := v], vqueue, current, vqs'))
  {
    var p := vs[v].pcpu;
    var q := vqs[p];
    QueueFacts(vs, vnext, vqueue, current, vqs, p);
    hide Shape, Period, Distinct;
    if q == [] {
      assert q + [v] == [v] && [v][1..] == [];
      assert List(vnext[v := NULL], v, [v], NULL);
      EnqueuedShape(vs, vnext, vnext[v := NULL], vqueue, current, vqs, v, v);
    } else {
      var last := q[|q| - 1];
      LastOnProcessor(vs, vnext, vqueue, current, vqs, p);
      Append(vnext, vqueue[p], q, v, NULL);
      hide List;
      assert vnext[v := NULL][last := v] == vnext[last := v][v := NULL];
      EnqueuedShape(vs, vnext, vnext[v := NULL][last := v], vqueue, current, vqs, v, vqueue[p]);
      assert vqueue[p := vqueue[p]] == vqueue;
    }
  }

  lemma LastOnProcessor(vs: seq<V>, vnext: seq<int>, vqueue: seq<int>, current: seq<int>, vqs: seq<seq<int>>, p: nat)
    requires Shape(vs, vnext, vqueue, current, vqs) && p < |vqs| && vqs[p] != []
    ensures var last := vqs[p][|vqs[p]| - 1]; last in vqs[p] && 0 <= last < |vs| && vs[last].pcpu == p
  {
    hide List, SoundAll;
    assert OnProcessor(vs, vqs[p], p);
  }

  lemma EnqueuedShape(vs: seq<V>, vnext: seq<int>, vnext': seq<int>, vqueue: seq<int>, current: seq<int>,
                      vqs: seq<seq<int>>, v: nat, h: int)
    requires Shape(vs, vnext, vqueue, current, vqs) && v < |vs| && vs[v].pcpu < |vqs|
    requires |vnext'| == |vnext| == |vs| && |vqueue| == |vqs|
    requires forall u :: 0 <= u < |vs| && vs[u].pcpu != vs[v].pcpu ==> vnext'[u] == vnext[u]
    requires List(vnext', h, vqs[vs[v].pcpu] + [v], NULL)
    ensures var p := vs[v].pcpu; Shape(vs, vnext', vqueue[p := h], current, vqs[p := vqs[p] + [v]])
  {
    var p := vs[v].pcpu;
    hide List, SoundAll;
    forall r | 0 <= r < |vqs| && r != p ensures List(vnext', vqueue[r], vqs[r], NULL) {
      assert OnProcessor(vs, vqs[r], r);
      Frame(vnext, vnext', vqueue[r], vqs[r], NULL);
    }
    assert OnProcessor(vs, vqs[p] + [v], p) by { assert OnProcessor(vs, vqs[p], p); }
  }

  /** vcpu_queue_append on the queue of processor p. */
  function Joined(vqs: seq<seq<int>>, p: nat, v: int): (r: seq<seq<int>>)
    ensures |r| == |vqs|
  {
    if p < |vqs| && v !in vqs[p] then vqs[p := vqs[p] + [v]] else vqs
  }

  /** VCPU v wakes: it has a task, is on its queue and is runnable. */
  lemma {:induction false} WokenKeeps(vs: seq<V>, vnext: seq<int>, vqueue: seq<int>, current: seq<int>,
                                      vqs0: seq<seq<int>>, vqs: seq<seq<int>>, qs0: seq<seq<int>>, qs: seq<seq<int>>,
                                      v: nat, sv: Server)
    requires Shape(vs, vnext, vqueue, current, vqs) && Flags(vs, current, vqs0, qs0)
    requires v < |vs| && vs[v].pcpu < |vqs0| == |vqs| && Sound(sv)
    requires forall p :: 0 <= p < |vqs| ==> vqs[p] == vqs0[p] || (p == vs[v].pcpu && vqs[p] == vqs0[p] + [v])
    requires v in vqs[vs[v].pcpu]
    requires |qs| == |qs0| && qs[v] != [] && forall k :: 0 <= k < |qs| && k != v ==> qs[k] == qs0[k]
    ensures var vs' := vs[v := vs[v].(server := sv, runnable := true)];
            Shape(vs', vnext, vqueue, current, vqs) && Flags(vs', current, vqs, qs)
  {
    hide List, Sound;
    var vs' := vs[v := vs[v].(server := sv, runnable := true)];
    assert SoundAll(vs');
    ShapeRetained(vs, vs', vnext, vqueue, current, vqs);
  }

  /** The server of a woken VCPU: unblocked if it was neither queued nor
      running, then refreshed. */
  function Woken(v: V, n0: nat, n1: nat, now: nat): Server
    requires Sound(v.server)
  {
    var sv := if !v.runnable && !v.running then Unblock(v.server, n0, n1) else v.server;
    Refresh(sv, now, now)
  }

  lemma WokenSound(v: V, n0: nat, n1: nat, now: nat)
    requires Sound(v.server) && n1 > 0
    ensures Sound(Woken(v, n0, n1, now))
  {
    UnblockSound(v.server, n0, n1);
  }

  lemma WokenKind(v: V, n0: nat, n1: nat, now: nat)
    requires Sound(v.server)
    ensures Woken(v, n0, n1, now).Main? <==> v.server.Main?
  {
  }

  /** iovcpu_job_wakeup: an I/O VCPU takes over the period of the job, unless it
      is busy with a shorter one. */
  function Inherited(vs: seq<V>, v: int, T: nat): (r: seq<V>)
    ensures |r| == |vs|
  {
    if 0 <= v < |vs| && vs[v].server.Io? && (T < vs[v].server.io.T || !(vs[v].running || vs[v].runnable))
    then vs[v := vs[v].(server := Io(vs[v].server.io.(T := T)))] else vs
  }

  lemma InheritedKeeps(vs: seq<V>, vnext: seq<int>, vqueue: seq<int>, current: seq<int>, vqs: seq<seq<int>>,
                       qs: seq<seq<int>>, v: int, T: nat)
    requires Shape(vs, vnext, vqueue, current, vqs) && Flags(vs, current, vqs, qs) && T > 0
    ensures var vs' := Inherited(vs, v, T);
            Shape(vs', vnext, vqueue, current, vqs) && Flags(vs', current, vqs, qs) && SameKinds(vs, vs')
  {
    hide List;
    Retain(vs, Inherited(vs, v, T), vnext, vqueue, current, vqs, qs);
  }

  /** The static table of VCPUs dealt out over the processors. */
  function Boot(servers: seq<Server>, pcpus: nat, quantum: nat): seq<V>
    requires pcpus > 0
  {
    seq(|servers|, v requires 0 <= v < |servers| => V(servers[v], v % pcpus, false, false, 0, quantum, 0, 0, 0))
  }

  lemma BootMain(servers: seq<Server>, pcpus: nat, quantum: nat)
    requires pcpus > 0 && exists v :: 0 <= v < |servers| && servers[v].Main?
    ensures HasMain(Boot(servers, pcpus, quantum))
  {
    var v :| 0 <= v < |servers| && servers[v].Main?;
    assert Boot(servers, pcpus, quantum)[v].server.Main?;
  }

  ghost predicate HasMain(vs: seq<V>) {
    exists m :: 0 <= m < |vs| && vs[m].server.Main?
  }

  /** The next number round a table of n, and the k-th from b on. */
  function Next(b: nat, n: nat): nat { if b + 1 >= n then 0 else b + 1 }

  function Turn(b: nat, k: nat, n: nat): (v: nat)
    requires b < n
    ensures v < n
  { if k == 0 then b else Next(Turn(b, k - 1, n), n) }

  ghost predicate NoMainBefore(vs: seq<V>, b: nat, k: nat) {
    b < |vs| && forall i: nat :: i < k ==> !vs[Turn(b, i, |vs|)].server.Main?
  }

  /** v is the first MAIN VCPU from number b on, round the table. */
  ghost predicate NextMain(vs: seq<V>, b: nat, v: int) {
    b < |vs| && exists k: nat :: NoMainBefore(vs, b, k) && v == Turn(b, k, |vs|) && vs[Turn(b, k, |vs|)].server.Main?
  }

  /** `vs'` has the same kinds of VCPU as vs. */
  ghost predicate SameKinds(vs: seq<V>, vs': seq<V>) {
    |vs'| == |vs| && forall v :: 0 <= v < |vs| ==> (vs'[v].server.Main? <==> vs[v].server.Main?)
  }

  lemma StillMain(vs: seq<V>, vs': seq<V>)
    requires HasMain(vs) && SameKinds(vs, vs')
    ensures HasMain(vs')
  {
    var m :| 0 <= m < |vs| && vs[m].server.Main?;
    assert vs'[m].server.Main?;
  }

  /** Changing queues other than the runqueues does not touch the flags. */
  lemma OtherQueues(vs: seq<V>, current: seq<int>, vqs: seq<seq<int>>, qs: seq<seq<int>>, qs': seq<seq<int>>)
    requires Flags(vs, current, vqs, qs) && |qs'| == |qs|
    requires forall k :: 0 <= k < |vs| && k < |qs| ==> qs'[k] == qs[k]
    ensures Flags(vs, current, vqs, qs')
  {
  }

  lemma FlagsSize(vs: seq<V>, current: seq<int>, vqs: seq<seq<int>>, qs: seq<seq<int>>)
    requires Flags(vs, current, vqs, qs)
    ensures |vs| < |qs|
  {
  }

  lemma EnqueuedMember(vqs: seq<seq<int>>, p: nat, v: int)
    requires p < |vqs|
    ensures v in (vqs[p] + [v])
  {
  }

  lemma VcpuFacts(vs: seq<V>, vnext: seq<int>, vqueue: seq<int>, current: seq<int>, vqs: seq<seq<int>>, v: nat)
    requires Shape(vs, vnext, vqueue, current, vqs) && v < |vs|
    ensures vs[v].pcpu < |vqs| == |current| && Sound(vs[v].server)
    ensures forall p :: 0 <= p < |current| ==> current[p] == NULL || 0 <= current[p] < |vs|
  {
  }

  function PeriodOf(vs: seq<V>, c: int): nat {
    if 0 <= c < |vs| then Period(vs[c].server) else 0
  }

  function BudgetOf(vs: seq<V>, c: int): nat {
    if 0 <= c < |vs| then Budget(vs[c].server) else 0
  }

  lemma Sizes(vs: seq<V>, vnext: seq<int>, vqueue: seq<int>, current: seq<int>, vqs: seq<seq<int>>)
    requires Shape(vs, vnext, vqueue, current, vqs)
    ensures |vqs| == |current| == |vqueue| && |vnext| == |vs|
    ensures forall p :: 0 <= p < |current| ==> current[p] == NULL || 0 <= current[p] < |vs|
  {
  }

  lemma SelectedFacts(vs: seq<V>, at: seq<nat>, tcur: nat, q: seq<int>, qs: seq<seq<int>>,
                      vs': seq<V>, qs': seq<seq<int>>, p: nat, c: int, T: nat)
    requires |at| == |vs| && InRange(vs, q) && Selected(vs, at, tcur, q, qs, vs', qs', p, c, T)
    ensures |vs'| == |vs| && (c == NULL || (0 <= c < |vs'| && vs'[c].pcpu == p)) && T == PeriodOf(vs', c)
    ensures if c == NULL then qs' == qs else vs'[c].tr != 0 && TookTask(vs[c], vs'[c].tr, c, qs, qs')
  {
  }

  lemma {:induction false} SwitchSelected(vs: seq<V>, at: seq<nat>, tcur: nat, q: seq<int>, qs: seq<seq<int>>,
                                          vs': seq<V>, qs': seq<seq<int>>, p: nat, c: int, T: nat, cur: int, begin: nat)
    requires |at| == |vs| && InRange(vs, q) && Selected(vs, at, tcur, q, qs, vs', qs', p, c, T)
    requires (cur == NULL || 0 <= cur < |vs'|) && (c == NULL || 0 <= c < |vs'|)
    ensures var r := Switched(vs', cur, c, begin);
            && Selected(vs, at, tcur, q, qs, r, qs', p, c, T)
            && PeriodOf(r, c) == PeriodOf(vs', c) == T && BudgetOf(r, c) == BudgetOf(vs', c)
            && (c != NULL ==> r[c].tr == vs'[c].tr)
  {
    hide Chosen, Fresh, TookTask, Period;
  }

  /** A processor queue holds VCPUs of the table, each once. */
  lemma QueueFacts(vs: seq<V>, vnext: seq<int>, vqueue: seq<int>, current: seq<int>, vqs: seq<seq<int>>, p: nat)
    requires Shape(vs, vnext, vqueue, current, vqs) && p < |vqs|
    ensures |vnext| == |vs| && |vqueue| == |current| == |vqs|
    ensures InRange(vs, vqs[p]) && Distinct(vqs[p])
    ensures List(vnext, vqueue[p], vqs[p], NULL)
    ensures vqueue[p] == if vqs[p] == [] then NULL else vqs[p][0]
    ensures forall v :: 0 <= v < |vs| ==> Period(vs[v].server) > 0
  {
    Acyclic(vnext, vqueue[p], vqs[p], NULL);
    forall v | 0 <= v < |vs| ensures Period(vs[v].server) > 0 { PeriodPositive(vs[v].server); }
  }

  /** A queued VCPU has a task to run. */
  lemma QueuedFacts(vs: seq<V>, vnext: seq<int>, vqueue: seq<int>, current: seq<int>, vqs: seq<seq<int>>,
                    qs: seq<seq<int>>, p: nat, i: nat)
    requires Shape(vs, vnext, vqueue, current, vqs) && Flags(vs, current, vqs, qs) && p < |vqs| && i < |vqs[p]|
    ensures var v := vqs[p][i];
            && 0 <= v < |vs| < |qs| && qs[v] != [] && vs[v].pcpu == p && vs[v].runnable
            && (vs[v].nextSched != 0 ==> vs[v].tr != 0)
  {
    hide List, Sound;
    assert vqs[p][i] in vqs[p] && OnProcessor(vs, vqs[p], p);
  }

  lemma TaskRetained(vs: seq<V>, vnext: seq<int>, vqueue: seq<int>, current: seq<int>, vqs: seq<seq<int>>,
                     qs: seq<seq<int>>, v: nat, tr: int, nextSched: nat)
    requires Shape(vs, vnext, vqueue, current, vqs) && Flags(vs, current, vqs, qs) && v < |vs| && tr != 0
    ensures var vs' := vs[v := vs[v].(tr := tr, nextSched := nextSched)];
            Shape(vs', vnext, vqueue, current, vqs) && Flags(vs', current, vqs, qs)
  {
    hide List, Sound;
    Retain(vs, vs[v := vs[v].(tr := tr, nextSched := nextSched)], vnext, vqueue, current, vqs, qs);
  }

  lemma PeriodPositive(sv: Server)
    requires Sound(sv)
    ensures Period(sv) > 0
  {
  }

  // ----- the timer

  /** VCPU v matters to the timer and its event falls on this very tick. */
  predicate DueNow(vs: seq<V>, tcur: nat, T: nat, v: int)
    requires 0 <= v < |vs|
  {
    (T == 0 || Period(vs[v].server) <= T) && vs[v].server.Io? && vs[v].server.io.rt != 0 && vs[v].server.io.rt == tcur
  }

  /** Clock readings of the event loop follow `tcur`, and times fit 64 bits. */
  ghost predicate Readings(vs: seq<V>, ev: seq<nat>, tcur: nat, q: seq<int>) {
    && |ev| == |vs| && InRange(vs, q)
    && forall j :: 0 <= j < |q| ==> tcur <= ev[q[j]] < TWO64 && NextEvent(vs[q[j]].server, ev[q[j]]) < TWO64
  }

  lemma ZeroHere(vs: seq<V>, ev: seq<nat>, tcur: nat, T: nat, q: seq<int>)
    requires Readings(vs, ev, tcur, q) && q != []
    ensures 0 in Event(vs, ev, tcur, T, q[0]) <==> DueNow(vs, tcur, T, q[0])
    ensures Readings(vs, ev, tcur, q[1..])
  {
    var v := q[0];
    if NextEvent(vs[v].server, ev[v]) != 0 { EventDue(vs[v].server, tcur, ev[v]); }
  }

  lemma {:induction false} ZeroEvent(vs: seq<V>, ev: seq<nat>, tcur: nat, T: nat, q: seq<int>)
    requires Readings(vs, ev, tcur, q)
    ensures 0 in Events(vs, ev, tcur, T, q) <==> exists j :: 0 <= j < |q| && DueNow(vs, tcur, T, q[j])
  {
    if q != [] {
      hide Event, DueNow, NextEvent, Wrap, Period, Readings;
      var r := q[1..];
      ZeroHere(vs, ev, tcur, T, q);
      ZeroEvent(vs, ev, tcur, T, r);
      InRangeTail(vs, q);
      if exists j :: 0 <= j < |r| && DueNow(vs, tcur, T, r[j]) {
        var j :| 0 <= j < |r| && DueNow(vs, tcur, T, r[j]);
        assert DueNow(vs, tcur, T, q[j + 1]);
      }
      if exists j :: 0 < j < |q| && DueNow(vs, tcur, T, q[j]) {
        var j :| 0 < j < |q| && DueNow(vs, tcur, T, q[j]);
        assert DueNow(vs, tcur, T, r[j - 1]);
      }
    }
  }

  lemma InRangeTail(vs: seq<V>, q: seq<int>)
    requires InRange(vs, q) && q != []
    ensures InRange(vs, q[1..])
  {
  }

  lemma NoZero(es: seq<nat>)
    ensures (forall i :: 0 <= i < |es| ==> es[i] != 0) <==> 0 !in es
  {
  }

  /** The delay is positive and no longer than the budget b of the VCPU about to
      run (0 for none) or the time to any event that matters, iff there is
      something to wait for and no queued I/O VCPU that matters has its
      replenishment due at this very tick. */
  lemma TimerExact(vs: seq<V>, ev: seq<nat>, tcur: nat, T: nat, q: seq<int>, b: nat)
    requires Readings(vs, ev, tcur, q)
    ensures var es := Events(vs, ev, tcur, T, q);
            var d := Shorten(b, es);
            (d > 0 && (b > 0 ==> d <= b) && forall i :: 0 <= i < |es| ==> d <= es[i])
            <==> ((b > 0 || es != []) && !exists j :: 0 <= j < |q| && DueNow(vs, tcur, T, q[j]))
  {
    var es := Events(vs, ev, tcur, T, q);
    hide Events, DueNow, Shorten;
    ZeroEvent(vs, ev, tcur, T, q);
    NoZero(es);
    ShortenIsLeast(b, es);
  }

  /** After a selection only an unpicked I/O VCPU of exactly the chosen period
      can be due this very tick: all others that matter have been refreshed. */
  lemma OnlyEqualPeriodDue(vs: seq<V>, at: seq<nat>, tcur: nat, q: seq<int>, qs: seq<seq<int>>,
                           vs': seq<V>, qs': seq<seq<int>>, p: nat, c: int, T: nat, j: nat)
    requires |at| == |vs| && InRange(vs, q) && SoundAll(vs) && Selected(vs, at, tcur, q, qs, vs', qs', p, c, T)
    requires j < |q|
    requires DueNow(vs', tcur, T, q[j])
    ensures c != NULL && c != q[j] && Period(vs[q[j]].server) == T
  {
    if c != NULL { PeriodPositive(vs[c].server); }
    hide Chosen, TookTask, Sound;
  }

  lemma {:induction false} EventsAppend(vs: seq<V>, ev: seq<nat>, tcur: nat, T: nat, q: seq<int>, r: seq<int>)
    requires |ev| == |vs| && InRange(vs, q) && InRange(vs, r)
    ensures InRange(vs, q + r)
    ensures Events(vs, ev, tcur, T, q + r) == Events(vs, ev, tcur, T, q) + Events(vs, ev, tcur, T, r)
  {
    hide Event;
    if q == [] {
      assert q + r == r;
    } else {
      InRangeTail(vs, q);
      assert (q + r)[1..] == q[1..] + r;
      EventsAppend(vs, ev, tcur, T, q[1..], r);
    }
  }

  lemma {:induction false} ShortenAppend(d: nat, es: seq<nat>, fs: seq<nat>)
    ensures Shorten(d, es + fs) == Shorten(Shorten(d, es), fs)
    decreases |es|
  {
    if es == [] {
      assert es + fs == fs;
    } else {
      assert (es + fs)[1..] == es[1..] + fs;
      ShortenAppend(if d == 0 || es[0] < d then es[0] else d, es[1..], fs);
    }
  }

  /** An event due this tick erases the budget and every event queued before
      it; coming last, it has the timer set to a whole quantum. */
  lemma {:induction false} DueEventErases(vs: seq<V>, ev: seq<nat>, tcur: nat, T: nat, q: seq<int>, j: nat, b: nat)
    requires Readings(vs, ev, tcur, q) && j < |q| && DueNow(vs, tcur, T, q[j])
    ensures InRange(vs, q[j + 1..])
    ensures Shorten(b, Events(vs, ev, tcur, T, q)) == Shorten(0, Events(vs, ev, tcur, T, q[j + 1..]))
    ensures j == |q| - 1 ==> forall bus: nat, tsc: nat, quantum: nat :: tsc > 0 && quantum > 0 ==>
              Count(Shorten(b, Events(vs, ev, tcur, T, q)), bus, tsc, quantum) == quantum
  {
    hide DueNow, Events, Shorten;
    DueEventAt(vs, ev, tcur, T, q, j);
    ShortenZero(b, Events(vs, ev, tcur, T, q[..j]), Events(vs, ev, tcur, T, q[j + 1..]));
    if j == |q| - 1 {
      assert q[j + 1..] == [];
      EventsNone(vs, ev, tcur, T);
      assert Shorten(0, []) == 0 by { ShortenNone(0); }
    }
  }

  lemma EventNow(vs: seq<V>, ev: seq<nat>, tcur: nat, T: nat, q: seq<int>, j: nat)
    requires Readings(vs, ev, tcur, q) && j < |q| && DueNow(vs, tcur, T, q[j])
    ensures Event(vs, ev, tcur, T, q[j]) == [0]
  {
  }

  lemma {:induction false} DueEventAt(vs: seq<V>, ev: seq<nat>, tcur: nat, T: nat, q: seq<int>, j: nat)
    requires Readings(vs, ev, tcur, q) && j < |q| && DueNow(vs, tcur, T, q[j])
    ensures InRange(vs, q[..j]) && InRange(vs, q[j + 1..])
    ensures Events(vs, ev, tcur, T, q)
            == Events(vs, ev, tcur, T, q[..j]) + ([0] + Events(vs, ev, tcur, T, q[j + 1..]))
  {
    hide DueNow, NextEvent, Wrap, Period, Event, Events;
    var head, v, tail := q[..j], q[j], q[j + 1..];
    EventNow(vs, ev, tcur, T, q, j);
    assert q == head + ([v] + tail);
    EventsAppend(vs, ev, tcur, T, head, [v] + tail);
    EventsAppend(vs, ev, tcur, T, [v], tail);
    EventsSnoc(vs, ev, tcur, T, [], v);
    assert [] + [v] == [v];
    EventsNone(vs, ev, tcur, T);
  }

  lemma {:induction false} ShortenZero(b: nat, es: seq<nat>, fs: seq<nat>)
    ensures Shorten(b, es + ([0] + fs)) == Shorten(0, fs)
  {
    ShortenAppend(b, es, [0] + fs);
    assert ([0] + fs)[1..] == fs;
  }

  lemma ShortenNone(b: nat)
    ensures Shorten(b, []) == b
  {
  }

  lemma EventsNone(vs: seq<V>, ev: seq<nat>, tcur: nat, T: nat)
    requires |ev| == |vs|
    ensures Events(vs, ev, tcur, T, []) == []
  {
  }

  // ----- no task is lost

  /** Choosing takes one task off one runqueue: every queued task stays where it
      is, except one occurrence of the one that is going to run. */
  lemma NothingLost(v: V, tr: int, c: int, qs: seq<seq<int>>, qs': seq<seq<int>>, k: nat)
    requires TookTask(v, tr, c, qs, qs') && k < |qs|
    ensures |qs'| == |qs| && multiset(qs[k]) == multiset(qs'[k]) + if k == c then multiset{tr} else multiset{}
  {
    WithoutKeeps(qs[c], tr);
  }
}
