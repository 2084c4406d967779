/** A MAIN VCPU object: the budget hooks as the kernel runs them, in place on
    the replenishment queue, each proved to compute its SporadicServer
    function. */
module MainVcpu {
  import opened SporadicServer
  import ReplQueue

  class Vcpu {
    const C: nat
    const T: nat
    const Q: ReplQueue.Queue
    var b: nat
    var usage: nat
    var runnable: bool

    ghost predicate Valid()
      reads this, Q, Q.t, Q.b, Q.next
    {
      Q.Valid() && Inv(Model())
    }

    ghost function Model(): Server
      reads this, Q
    {
      Server(C, T, Q.contents, usage)
    }

    /** vcpu_init: one replenishment of C, due at the start. */
    constructor (C': nat, T': nat, now: nat)
      requires C' > 0 && T' > 0 && now > 0
      ensures Valid() && Model() == Init(C', T', now)
      ensures fresh(Q) && fresh(Q.t) && fresh(Q.b) && fresh(Q.next)
    {
      C, T, b, usage, runnable := C', T', 0, 0, false;
      Q := new ReplQueue.Queue();
      new;
      Q.Add(C, now);
      assert Q.contents == [Repl(now, C)];
      assert Sum(Q.contents) == C;
    }

    /** Budget left in the head replenishment, 0 before its time. */
    method Capacity(now: nat) returns (cap: int)
      requires Q.Valid()
      ensures cap == SporadicServer.Capacity(Model(), now)
    {
      hide ReplQueue.Queue.Valid;
      var empty := Q.IsEmpty();
      if empty { return 0; }
      var t: nat, b: nat := Q.Head();
      return if t > now then 0 else b - usage;
    }

    method UpdateReplenishments(now: nat)
      requires Valid()
      modifies `b
      ensures Valid() && Model() == old(Model())
      ensures b == Budget(Model(), now)
    {
      hide ReplQueue.Queue.Valid;
      var cap := Capacity(now);
      b := if cap > 0 then cap else 0;
    }

    /** Pop the head and give its amount and time `t` to the next entry. */
    method Merge(t: nat, b: nat)
      requires Q.Valid() && |Q.contents| > 1 && Q.contents[0] == Repl(t, b) && t > 0
      modifies Q, Q.t, Q.b, Q.next
      ensures Q.Valid() && Q.contents == MergeHead(old(Q.contents))
    {
      hide ReplQueue.Queue.Valid;
      ghost var q := Q.contents;
      Q.Pop();
      var _, b1 := Q.Head();
      Q.SetHead(t, b1 + b);
      assert q[1..][1..] == q[2..];
    }

    method ExhaustLoop()
      requires Q.Valid() && 1 <= |Q.contents| <= MAX_REPL && Positive(Q.contents)
      modifies `usage, Q, Q.t, Q.b, Q.next
      ensures Q.Valid()
      ensures (Q.contents, usage) == old(Exhaust(Q.contents, usage, T))
    {
      hide ReplQueue.Queue.Valid, Insert, Sum;
      ghost var goal := Exhaust(Q.contents, usage, T);
      var t: nat, b: nat := Q.Head();
      while b <= usage
        invariant Q.Valid() && 1 <= |Q.contents| <= MAX_REPL && Positive(Q.contents)
        invariant Q.contents[0] == Repl(t, b)
        invariant Exhaust(Q.contents, usage, T) == goal
        decreases usage
      {
        ghost var q := Q.contents;
        usage := usage - b;
        Q.Pop();
        InsertPositive(q[1..], Repl(t + T, b));
        Q.Add(b, t + T);
        t, b := Q.Head();
      }
    }

    method BudgetCheck(now: nat)
      requires Q.Valid() && Inv(Model().(usage := 0))
      modifies `usage, Q, Q.t, Q.b, Q.next
      ensures Q.Valid()
      ensures Model() == old(SporadicServer.BudgetCheck(Model(), now))
    {
      hide ReplQueue.Queue.Valid, Exhaust, Overrun;
      var cap := Capacity(now);
      if cap <= 0 {
        ExhaustLoop();
        if usage > 0 { PushBack(); }
      }
    }

    /** Charge the overrun to the head's time and merge at most once. */
    method PushBack()
      requires Q.Valid() && Q.contents != []
      modifies Q, Q.t, Q.b, Q.next
      ensures Q.Valid() && Q.contents == Overrun(old(Q.contents), usage)
    {
      hide ReplQueue.Queue.Valid;
      var t: nat, b: nat := Q.Head();
      Q.SetHead(t + usage, b);
      var two := Q.HasTwo();
      if two {
        var t1 := Q.NextTime();
        if t + usage + b >= t1 { Merge(t + usage, b); }
      }
    }

    method SplitCheck(now: nat)
      requires Q.Valid() && 1 <= |Q.contents| <= MAX_REPL && usage < Q.contents[0].b
      modifies `usage, Q, Q.t, Q.b, Q.next
      ensures Q.Valid()
      ensures Model() == old(SporadicServer.SplitCheck(Model(), now))
    {
      hide ReplQueue.Queue.Valid, Insert;
      var t: nat, b: nat := Q.Head();
      if usage > 0 && t <= now {
        ghost var q := Q.contents;
        var remnant := b - usage;
        var full := Q.IsFull();
        if full {
          Q.Pop();
          t, b := Q.Head();
          Q.SetHead(t, b + remnant);
          assert q[1..][1..] == q[2..];
        } else {
          Q.SetHead(t, remnant);
        }
        Q.Add(usage, t + T);
        usage := 0;
      }
    }

    /** main_vcpu_end_timeslice: n0, n1 and n2 are its clock readings. */
    method EndTimeslice(tdelta: nat, n0: nat, n1: nat, n2: nat)
      requires Valid()
      modifies `usage, `b, Q, Q.t, Q.b, Q.next
      ensures Valid()
      ensures Model() == old(SporadicServer.EndTimeslice(Model(), tdelta, runnable, n0, n1))
      ensures b == Budget(Model(), n2)
    {
      hide ReplQueue.Queue.Valid, SporadicServer.BudgetCheck, SporadicServer.SplitCheck, Sum, Positive;
      SliceKeeps(Model(), tdelta, runnable, n0, n1);
      BudgetKeeps(Model().(usage := usage + tdelta), n0);
      usage := usage + tdelta;
      BudgetCheck(n0);
      if !runnable { SplitCheck(n1); }
      var cap := Capacity(n2);
      b := if cap > 0 then cap else 0;
    }

    /** main_vcpu_unblock: the capacity test reads n0, the merge loop n1. */
    method Unblock(n0: nat, n1: nat)
      requires Valid() && n1 > 0
      modifies Q, Q.t, Q.b, Q.next
      ensures Valid()
      ensures Model() == old(UnblockCheck(Model(), n0, n1))
    {
      hide ReplQueue.Queue.Valid, Coalesce;
      UnblockKeeps(Model(), n0, n1);
      var cap := Capacity(n0);
      if cap > 0 {
        var _, b := Q.Head();
        Q.SetHead(n1, b);
        CoalesceLoop(n1);
      }
    }

    method CoalesceLoop(now: nat)
      requires Q.Valid() && Q.contents != [] && now > 0
      requires Q.contents[0].t == now && usage < Q.contents[0].b
      modifies Q, Q.t, Q.b, Q.next
      ensures Q.Valid() && Q.contents == Coalesce(old(Q.contents), usage, now)
    {
      hide ReplQueue.Queue.Valid;
      ghost var goal := Coalesce(Q.contents, usage, now);
      var two := Q.HasTwo();
      while two
        invariant Q.Valid() && Q.contents != []
        invariant Q.contents[0].t == now && usage < Q.contents[0].b
        invariant two ==> |Q.contents| > 1
        invariant Coalesce(Q.contents, usage, now) == goal
        invariant !two ==> Q.contents == goal
        decreases two, |Q.contents|
      {
        var _, b := Q.Head();
        var t1 := Q.NextTime();
        if t1 <= now + b - usage {
          Merge(now, b);
          two := Q.HasTwo();
        } else {
          two := false;
        }
      }
    }
  }
}
