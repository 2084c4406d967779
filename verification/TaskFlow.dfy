/** Where tasks go: every operation of the scheduler says which tasks it puts
    on a queue and which it takes off; over a run no task is lost. */
module TaskFlow {
  import opened TaskQueues
  import opened Sleep
  import opened WaitQueues
  import opened SchedModel
  import opened Homes

  /** The tasks of `entering` get on some queue, those of `leaving` off all; every
      other task is on some queue iff it was. */
  ghost predicate Moves(qs: seq<seq<int>>, qs': seq<seq<int>>, entering: set<int>, leaving: set<int>) {
    forall x :: OnNone(qs', x) <==> (OnNone(qs, x) && x !in entering) || x in leaving
  }

  /** Dispatching takes exactly the task that is to run off the queues. */
  lemma {:induction false} TookMoves(qs: seq<seq<int>>, w: V, tr: int, c: int, qs': seq<seq<int>>)
    requires Separate(qs) && TookTask(w, tr, c, qs, qs')
    ensures Moves(qs, qs', {}, {tr})
  {
    TakenOnNone(qs, w, tr, c, qs');
    hide Separate, NextTask;
    forall x
      ensures OnNone(qs', x) <==> OnNone(qs, x) || x == tr
    {
      if x != tr {
        WithoutOthers(qs[c], tr, x);
        assert forall j :: 0 <= j < |qs| ==> (x in qs'[j] <==> x in qs[j]);
      }
    }
  }

  lemma {:induction false} WithoutOthers(s: seq<int>, x: int, y: int)
    requires y != x
    ensures y in Without(s, x) <==> y in s
  {
    if s != [] { WithoutOthers(s[1..], x, y); }
  }

  lemma NoneOnly(qs: seq<seq<int>>, x: int, k: nat)
    requires OnNone(qs, x) && k < |qs|
    ensures OnlyOn(qs, x, k) && x !in qs[k]
  {
  }

  /** Appending x to a queue. */
  lemma AppendMoves(qs: seq<seq<int>>, qs': seq<seq<int>>, k: nat, x: int)
    requires k < |qs| && qs' == if x in qs[k] then qs else qs[k := qs[k] + [x]]
    ensures Moves(qs, qs', {x}, {})
  {
    forall y
      ensures OnNone(qs', y) <==> OnNone(qs, y) && y != x
    {
      if y == x {
        assert x in qs'[k];
      } else if !OnNone(qs, y) {
        var j :| 0 <= j < |qs| && y in qs[j];
        assert y in qs'[j];
      }
    }
  }

  /** The pass over the sleep queue moves tasks and loses none. */
  lemma {:induction false} ExaminedMoves(qs0: seq<seq<int>>, qs: seq<seq<int>>, nv: nat, cpu: seq<int>,
                                         time0: seq<nat>, time: seq<nat>, now: nat)
    requires nv < |qs0| && Examined(qs0, qs, nv, |qs0[nv]|, cpu, time0, time, now)
    ensures Moves(qs0, qs, {}, {})
  {
    var s := qs0[nv];
    assert s[..|s|] == s && s[|s|..] == [];
    var a, d := Asleep(s, time0, now), Due(s, time0, now);
    assert qs[nv] == a;
    forall x
      ensures OnNone(qs, x) <==> OnNone(qs0, x)
    {
      AsleepOrDue(s, time0, now, x);
      SpreadMoves(qs0, qs, nv, nv, a, d, cpu, x);
    }
  }

  /** Emptying a wait queue likewise. */
  lemma {:induction false} DrainedMoves(qs0: seq<seq<int>>, qs: seq<seq<int>>, nv: nat, k: nat, cpu: seq<int>)
    requires nv < k < |qs0| && Drained(qs0, qs, nv, k, |qs0[k]|, cpu)
    ensures Moves(qs0, qs, {}, {})
  {
    var s := qs0[k];
    assert s[..|s|] == s && s[|s|..] == [];
    forall x
      ensures OnNone(qs, x) <==> OnNone(qs0, x)
    {
      SpreadMoves(qs0, qs, nv, k, [], s, cpu, x);
    }
  }

  /** Queue k keeps the tasks of a; those of d go to the runqueues of their
      VCPUs. */
  lemma {:induction false} SpreadMoves(qs0: seq<seq<int>>, qs: seq<seq<int>>, nv: nat, k: nat, a: seq<int>,
                                       d: seq<int>, cpu: seq<int>, x: int)
    requires nv <= k < |qs0| == |qs| && qs[k] == a && Housed(d, cpu, nv)
    requires x in qs0[k] <==> x in a || x in d
    requires forall v :: 0 <= v < nv ==> qs[v] == qs0[v] + Bound(d, cpu, v)
    requires forall j :: nv <= j < |qs| && j != k ==> qs[j] == qs0[j]
    ensures OnNone(qs, x) <==> OnNone(qs0, x)
  {
    if x in d {
      var j :| 0 <= j < |d| && d[j] == x;
      BoundMember(d, cpu, cpu[x], x);
      assert x in qs[cpu[x]];
      assert x in qs0[k];
    } else {
      forall v | 0 <= v < nv ensures x in qs[v] <==> x in qs0[v] { BoundMember(d, cpu, v, x); }
    }
  }

  // ----- every run

  /** What one operation did to the set of queued tasks. */
  datatype Deed = Queue(x: int) | Run(x: int) | Shift

  ghost predicate Did(qs: seq<seq<int>>, d: Deed, qs': seq<seq<int>>) {
    match d
    case Queue(x) => Moves(qs, qs', {x}, {})
    case Run(x) => Moves(qs, qs', {}, {x})
    case Shift => Moves(qs, qs', {}, {})
  }

  /** Is x due on a queue after these deeds: the last one about it decides. */
  predicate Waits(ds: seq<Deed>, x: int, at: bool)
    decreases |ds|
  {
    if ds == [] then at
    else
      match ds[|ds| - 1]
      case Queue(y) => y == x || Waits(ds[..|ds| - 1], x, at)
      case Run(y) => y != x && Waits(ds[..|ds| - 1], x, at)
      case Shift => Waits(ds[..|ds| - 1], x, at)
  }

  /** Over every run of the scheduler a task is on a queue iff it was put on one
      after it last ran. */
  lemma {:induction false} NoTaskLost(rows: seq<seq<seq<int>>>, ds: seq<Deed>, x: int)
    requires |rows| == |ds| + 1 && forall n :: 0 <= n < |ds| ==> Did(rows[n], ds[n], rows[n + 1])
    ensures OnNone(rows[|ds|], x) <==> !Waits(ds, x, !OnNone(rows[0], x))
    decreases |ds|
  {
    if ds != [] {
      var n := |ds| - 1;
      hide OnNone;
      NoTaskLost(rows[..n + 1], ds[..n], x);
      assert Did(rows[n], ds[n], rows[n + 1]);
    }
  }
}
