/** The scheduler as it runs: schedule, wakeup, sleep and wait queues. */
module Scheduler {
  import opened Links
  import opened TaskQueues
  import opened VcpuHooks
  import opened Sleep
  import opened WaitQueues
  import opened SchedModel
  import opened Homes
  import opened TaskFlow
  import opened SchedRun

  class Sched {
    const tasks: Tasks
    var cpu: seq<int>
    var time: seq<nat>
    var binding: int
    var vs: seq<V>
    var vnext: seq<int>
    var vqueue: seq<int>
    var current: seq<int>
    var tprev: seq<nat>
    ghost var vqs: seq<seq<int>>
    ghost var home: seq<int>

    ghost predicate Valid(edited: set<int>)
      reads this, tasks
    {
      && tasks.Valid(edited)
      && |cpu| == |tasks.next| == |time| == |home|
      && (forall x :: 0 <= x < |cpu| ==> cpu[x] == UNBOUND || 0 <= cpu[x] < |vs|)
      && 0 < |vs| <= UNBOUND && 0 <= binding < |vs| && HasMain(vs)
      && |tprev| == |current|
      && Shape(vs, vnext, vqueue, current, vqs)
      && Flags(vs, current, vqs, tasks.qs)
      && (forall k :: k in edited ==> k >= |vs|)
      && QueueHomes(home, |vs|, tasks.qs) && TaskHomes(home, vs)
    }

    /** The state that the operations are specified on. */
    ghost function Abs(): State
      reads this, tasks
    { State(vs, current, tprev, vqs, tasks.qs, cpu, home, time, binding) }

    lemma AbsOk()
      requires Valid({})
      ensures Ok(Abs())
    {
      hide List, Sound, SoundAll, OnProcessor, HasMain, Flags, QueueHomes, TaskHomes, Queues, Separate;
      QueuesSeparate(tasks.next, tasks.heads, tasks.qs, {});
    }

    /** Boot: the VCPUs of the static table are dealt out over the processors,
        all queues are empty and no task is bound. */
    constructor (servers: seq<Server>, pcpus: nat, ntasks: nat, others: nat, quantum: nat)
      requires 2 <= |servers| <= UNBOUND && pcpus > 0
      requires forall v :: 0 <= v < |servers| ==> Sound(servers[v])
      requires exists v :: 0 <= v < |servers| && servers[v].Main?
      ensures Valid({}) && fresh(tasks)
      ensures |tasks.qs| == |servers| + 1 + others && |tasks.next| == ntasks
      ensures forall k :: 0 <= k < |tasks.qs| ==> tasks.qs[k] == []
      ensures cpu == home == seq(ntasks, _ => UNBOUND) && time == seq(ntasks, _ => 0) && binding == 1
      ensures vs == Boot(servers, pcpus, quantum) && vqs == seq(pcpus, _ => [])
      ensures current == seq(pcpus, _ => NULL) && tprev == seq(pcpus, _ => 0)
    {
      tasks := new Tasks(ntasks, |servers| + 1 + others);
      cpu := seq(ntasks, _ => UNBOUND);
      home := seq(ntasks, _ => UNBOUND);
      time := seq(ntasks, _ => 0);
      binding := 1;
      vs := Boot(servers, pcpus, quantum);
      vnext := seq(|servers|, _ => NULL);
      vqueue := seq(pcpus, _ => NULL);
      current := seq(pcpus, _ => NULL);
      tprev := seq(pcpus, _ => 0);
      vqs := seq(pcpus, _ => []);
      BootMain(servers, pcpus, quantum);
    }

    /** The refresh-and-compare loop of vcpu_schedule.  `prev` is the VCPU
        whose link points at the pick, NULL for the queue head. */
    method Pick(p: nat, tcur: nat, at: seq<nat>) returns (pick: int, prev: int, Tnext: nat, ghost i: int)
      requires Shape(vs, vnext, vqueue, current, vqs) && p < |vqs| && |at| == |vs|
      modifies `vs
      ensures InRange(old(vs), vqs[p])
      ensures ScanState(old(vs), at, tcur, vqs[p], |vqs[p]|, vs, Tnext, i)
      ensures pick == At(vqs[p], i) && prev == At(vqs[p], i - 1)
    {
      hide List, Sound, Shape, Distinct, ScanState, Refresh, Period, Budget;
      QueueFacts(vs, vnext, vqueue, current, vqs, p);
      ghost var q, vs0 := vqs[p], vs;
      ghost var n: nat := 0;
      pick, prev, Tnext, i := NULL, NULL, 0, -1;
      var cur, before := vqueue[p], NULL;
      ScanStart(vs, at, tcur, q);
      while cur != NULL
        invariant n <= |q| && cur == At(q, n) && before == At(q, n - 1)
        invariant ScanState(vs0, at, tcur, q, n, vs, Tnext, i)
        invariant pick == At(q, i) && prev == At(q, i - 1)
        decreases |q| - n
      {
        NextAt(vnext, vqueue[p], q, NULL, n);
        ScanStep(vs0, at, tcur, q, n, vs, Tnext, i);
        if Tnext == 0 || Period(vs[cur].server) < Tnext {
          var sv := Refresh(vs[cur].server, tcur, at[cur]);
          vs := vs[cur := vs[cur].(server := sv)];
          if Budget(sv) > 0 {
            Tnext := Period(sv);
            pick, prev, i := cur, before, n;
          }
        }
        before, cur, n := cur, vnext[cur], n + 1;
      }
    }

    /** The loop that finds the time of the next important event. */
    method Delay(p: nat, d0: nat, Tnext: nat, tcur: nat, ev: seq<nat>) returns (d: nat)
      requires Shape(vs, vnext, vqueue, current, vqs) && p < |vqs| && |ev| == |vs|
      ensures InRange(vs, vqs[p])
      ensures d == Shorten(d0, Events(vs, ev, tcur, Tnext, vqs[p]))
    {
      QueueFacts(vs, vnext, vqueue, current, vqs, p);
      hide List, Sound, Shape, Distinct, Period, NextEvent, Wrap, Shorten, Events, DelayState;
      ghost var q, n := vqs[p], 0;
      DelayStart(vs, ev, tcur, Tnext, q, d0);
      d := d0;
      var cur := vqueue[p];
      while cur != NULL
        invariant 0 <= n <= |q| && cur == At(q, n)
        invariant DelayState(vs, ev, tcur, Tnext, q, d0, n, d)
        decreases |q| - n
      {
        NextAt(vnext, vqueue[p], q, NULL, n);
        DelayStep(vs, ev, tcur, Tnext, q, d0, n, d);
        if Tnext == 0 || Period(vs[cur].server) <= Tnext {
          var event := NextEvent(vs[cur].server, ev[cur]);
          if event != 0 && (d == 0 || Wrap(event - tcur) < d) {
            d := Wrap(event - tcur);
          }
        }
        cur, n := vnext[cur], n + 1;
      }
      DelayEnd(vs, ev, tcur, Tnext, q, d0, d);
    }

    /** Second-level scheduling of VCPU v. */
    method InternalSchedule(v: nat)
      requires tasks.Valid({}) && v < |vs| && v < |tasks.qs| && tasks.qs[v] != []
      requires vs[v].nextSched != 0 ==> vs[v].tr != 0
      modifies `vs, tasks
      ensures tasks.Valid({}) && |tasks.next| == |old(tasks.next)| && |vs| == |old(vs)|
      ensures vs == old(vs)[v := Turned(old(vs)[v], old(tasks.qs)[v])] && vs[v].tr != 0
      ensures tasks.qs == old(tasks.qs)[v := Without(old(tasks.qs)[v], vs[v].tr)]
    {
      var now := vs[v].vtsc;
      assert tasks.qs[v][0] in tasks.qs[v];
      if vs[v].nextSched != 0 && vs[v].nextSched > now {
        var in_rq := tasks.InQueue(v, vs[v].tr);
        if in_rq {
          tasks.RemoveFrom(v, vs[v].tr);
          return;
        }
      }
      var tr := tasks.QueueRemoveHead(v);
      vs := vs[v := vs[v].(tr := tr, nextSched := now + vs[v].quantum)];
    }

    /** Take VCPU `pick` = vqs[p][i] off the processor's queue if its runqueue
        has become empty. */
    method Leave(p: nat, pick: nat, prev: int, ghost i: nat, ghost qs0: seq<seq<int>>)
      requires tasks.Valid({}) && p < |vqs| && i < |vqs[p]| && pick == vqs[p][i] && prev == At(vqs[p], i - 1)
      requires Shape(vs, vnext, vqueue, current, vqs) && Flags(vs, current, vqs, qs0)
      requires pick < |qs0| == |tasks.qs| && tasks.qs == qs0[pick := tasks.qs[pick]]
      modifies `vs, `vnext, `vqueue, `vqs
      ensures Shape(vs, vnext, vqueue, current, vqs) && Flags(vs, current, vqs, tasks.qs)
      ensures pick < |old(vs)|
      ensures vs == if tasks.qs[pick] == [] then old(vs)[pick := old(vs)[pick].(runnable := false)] else old(vs)
      ensures vqs == if tasks.qs[pick] == [] then old(vqs)[p := Omit(old(vqs[p]), i)] else old(vqs)
    {
      hide List, Sound, Queues, SoundAll, Shape, Flags;
      DispatchKeeps(vs, vnext, vqueue, current, vqs, qs0, p, i, tasks.qs[pick]);
      var empty := tasks.IsEmpty(pick);
      if empty {
        if prev == NULL {
          vqueue := vqueue[p := vnext[pick]];
        } else {
          vnext := vnext[prev := vnext[pick]];
        }
        vs := vs[pick := vs[pick].(runnable := false)];
        vqs := vqs[p := Omit(vqs[p], i)];
      }
    }

    /** Run VCPU `pick` = vqs[p][i] next: choose its task, and take it off the
        processor's queue unless it has more tasks. */
    method Dispatch(p: nat, pick: nat, prev: int, ghost i: nat)
      requires Valid({}) && p < |vqs| && i < |vqs[p]| && pick == vqs[p][i] && prev == At(vqs[p], i - 1)
      modifies `vs, `vnext, `vqueue, `vqs, tasks
      ensures Valid({}) && |vs| == |old(vs)| && pick < |vs|
      ensures Dispatched(old(vs), vs, pick, old(tasks.qs), tasks.qs) && IsHome(home, vs[pick].tr, pick)
      ensures vqs == if tasks.qs[pick] == [] then old(vqs)[p := Omit(old(vqs[p]), i)] else old(vqs)
    {
      hide List, Sound, SoundAll, Shape, Flags, SameFlags, QueueHomes, TaskHomes, HasMain;
      QueuedFacts(vs, vnext, vqueue, current, vqs, tasks.qs, p, i);
      ghost var vs0, qs0 := vs, tasks.qs;
      assert forall x :: x in qs0[pick] ==> x > 0;
      hide Queues;
      InternalSchedule(pick);
      TaskRetained(vs0, vnext, vqueue, current, vqs, qs0, pick, vs[pick].tr, vs[pick].nextSched);
      Leave(p, pick, prev, i, qs0);
      assert vs == vs0[pick := Running(vs0[pick], qs0[pick])];
      DispatchHomes(home, vs0, vs, pick, qs0, tasks.qs);
      StillMain(vs0, vs);
    }

    /** Budgeting at the end of the current VCPU's timeslice. */
    method EndCurrent(p: nat, tcur: nat, acct: nat, n0: nat, n1: nat, n2: nat)
      requires Valid({}) && p < |current| && tprev[p] <= tcur
      modifies `vs
      ensures Valid({})
      ensures current[p] == NULL || (0 <= current[p] < |old(vs)| && Sound(old(vs)[current[p]].server))
      ensures vs == Ended(old(vs), current[p], tcur - tprev[p], acct, n0, n1, n2)
    {
      hide List, Sound, Queues, Shape, Flags, EndSlice, Wrap, QueueHomes, TaskHomes, HasMain;
      var cur := current[p];
      EndedState(vs, vnext, vqueue, current, vqs, tasks.qs, p, tcur - tprev[p], acct, n0, n1, n2);
      EndedHomes(home, vs, cur, tcur - tprev[p], acct, n0, n1, n2);
      if cur != NULL {
        var v := vs[cur];
        vs := vs[cur := v.(vtsc := if v.prevTsc != 0 then v.vtsc + Wrap(acct - v.prevTsc) else v.vtsc)];
        vs := vs[cur := vs[cur].(server := EndSlice(v.server, tcur - tprev[p], v.runnable, n0, n1, n2))];
      }
      assert vs == Ended(old(vs), cur, tcur - tprev[p], acct, n0, n1, n2);
      StillMain(old(vs), vs);
    }

    /** Choose the VCPU to run on processor p and dispatch it. */
    method Select(p: nat, tcur: nat, at: seq<nat>) returns (c: int, T: nat)
      requires Valid({}) && p < |vqs| && |at| == |vs|
      modifies `vs, `vnext, `vqueue, `vqs, tasks
      ensures Valid({}) && InRange(old(vs), old(vqs[p]))
      ensures Selected(old(vs), at, tcur, old(vqs[p]), old(tasks.qs), vs, tasks.qs, p, c, T)
      ensures c == Choice(old(vs), at, tcur, old(vqs[p]))
      ensures vs == Planned(old(vs), at, tcur, old(vqs[p]), old(tasks.qs))
      ensures vqs == old(vqs)[p := QueueAfter(old(vs), at, tcur, old(vqs[p]), old(tasks.qs))]
      ensures c != NULL ==> 0 <= c < |vs| && IsHome(home, vs[c].tr, c)
    {
      hide List, Sound, Queues, Shape, Flags, Selected, QueueHomes, TaskHomes, HasMain, QueueAfter;
      ghost var vs0, q, qs0 := vs, vqs[p], tasks.qs;
      var pick, prev, Tnext, i := Pick(p, tcur, at);
      ghost var vs1 := vs;
      ScanSelects(vs0, vnext, vqueue, current, vqs, tasks.qs, at, tcur, p, vs1, Tnext, i);
      ScannedHomes(home, vs0, at, tcur, q, vs1, Tnext, i);
      StillMain(vs0, vs1);
      c, T := pick, Tnext;
      if pick != NULL {
        Dispatch(p, pick, prev, i);
        DispatchSelects(vs0, at, tcur, q, qs0, vs1, vs, tasks.qs, p, i, T);
        QueueAfterIs(vs0, at, tcur, old(vqs), p, qs0, vs1, vs, tasks.qs, T, i);
      } else {
        QueueAfterNone(vs0, at, tcur, vqs, p, qs0, vs1, T);
      }
    }

    /** Make `c` current on processor p. */
    method Switch(p: nat, c: int, tcur: nat, begin: nat)
      requires Valid({}) && p < |current|
      requires c == NULL || (0 <= c < |vs| && vs[c].pcpu == p && IsHome(home, vs[c].tr, c))
      modifies `vs, `current, `tprev
      ensures Valid({}) && current == old(current)[p := c] && tprev == old(tprev)[p := tcur]
      ensures old(current)[p] == NULL || 0 <= old(current)[p] < |old(vs)|
      ensures vs == Switched(old(vs), old(current)[p], c, begin)
    {
      hide List, Sound, Queues, Shape, Flags, QueueHomes, TaskHomes, HasMain;
      SwitchKeeps(vs, vnext, vqueue, current, vqs, tasks.qs, p, c, begin);
      var cur := current[p];
      SwitchHomes(home, vs, cur, c, begin);
      StillMain(vs, Switched(vs, cur, c, begin));
      current, tprev := current[p := c], tprev[p := tcur];
      if cur != NULL { vs := vs[cur := vs[cur].(running := false)]; }
      if c != NULL { vs := vs[c := vs[c].(running := true, prevTsc := begin)]; }
    }

    /** vcpu_schedule on processor p at time `tcur`.  `acct`, n0, n1, n2 and
        `begin` are the clock readings of the accounting and budgeting code,
        at[v] and ev[v] those taken when VCPU v is refreshed and asked for its
        next event.  Returns the task to run (0 for the idle task) and the
        timer count. */
    method VcpuSchedule(p: nat, tcur: nat, acct: nat, n0: nat, n1: nat, n2: nat, at: seq<nat>, ev: seq<nat>,
                        begin: nat, bus: nat, tsc: nat, quantum: nat)
      returns (next: int, count: nat, ghost mid: seq<V>)
      requires Valid({}) && p < |current| && tprev[p] <= tcur
      requires |at| == |ev| == |vs| && tsc > 0 && quantum > 0
      modifies this, tasks
      ensures Valid({}) && |vs| == |old(vs)| && tprev == old(tprev)[p := tcur]
      ensures old(current[p]) == NULL
              || (0 <= old(current[p]) < |old(vs)| && Sound(old(vs)[old(current[p])].server))
      ensures mid == Ended(old(vs), old(current[p]), tcur - old(tprev[p]), acct, n0, n1, n2)
      ensures p < |old(vqs)| && InRange(mid, old(vqs)[p]) && p < |vqs| && InRange(vs, vqs[p])
      ensures current == old(current)[p := current[p]]
      ensures Selected(mid, at, tcur, old(vqs)[p], old(tasks.qs), vs, tasks.qs, p, current[p], PeriodOf(vs, current[p]))
      ensures current[p] == Choice(mid, at, tcur, old(vqs)[p])
      ensures old(current[p]) == NULL || 0 <= old(current[p]) < |mid|
      ensures current[p] == NULL || 0 <= current[p] < |mid|
      ensures vs == Switched(Planned(mid, at, tcur, old(vqs)[p], old(tasks.qs)), old(current[p]), current[p], begin)
      ensures vqs == old(vqs)[p := QueueAfter(mid, at, tcur, old(vqs)[p], old(tasks.qs))]
      ensures next == if current[p] == NULL then 0 else vs[current[p]].tr
      ensures current[p] != NULL ==> OnNone(tasks.qs, next)
      ensures Moves(old(tasks.qs), tasks.qs, {}, if current[p] == NULL then {} else {next})
      ensures Stepped(old(Abs()), Op.Schedule(p, tcur, acct, n0, n1, n2, at, ev, begin), Abs())
      ensures count == Count(Shorten(BudgetOf(vs, current[p]),
                                     Events(vs, ev, tcur, PeriodOf(vs, current[p]), vqs[p])), bus, tsc, quantum)
    {
      hide List, Sound, Queues, Shape, Flags, Selected, Count, Shorten, Events, EndSlice, Period, Budget, QueueHomes,
        TaskHomes, HasMain, Choice, Planned, QueueAfter, Stepped;
      AbsOk();
      ghost var s0 := Abs();
      Sizes(vs, vnext, vqueue, current, vqs);
      EndCurrent(p, tcur, acct, n0, n1, n2);
      mid := vs;
      ghost var qs0, q := tasks.qs, vqs[p];
      QueuesSeparate(tasks.next, tasks.heads, qs0, {});
      var c, T := Select(p, tcur, at);
      SelectedFacts(mid, at, tcur, q, qs0, vs, tasks.qs, p, c, T);
      if c != NULL {
        TakenOnNone(qs0, mid[c], vs[c].tr, c, tasks.qs);
        TookMoves(qs0, mid[c], vs[c].tr, c, tasks.qs);
      }
      hide OnNone, TookTask;
      Sizes(vs, vnext, vqueue, current, vqs);
      var d := Delay(p, BudgetOf(vs, c), T, tcur, ev);
      count := Count(d, bus, tsc, quantum);
      SwitchSelected(mid, at, tcur, q, qs0, vs, tasks.qs, p, c, T, current[p], begin);
      SwitchEvents(vs, current[p], c, begin, ev, tcur, T, vqs[p]);
      next := if c == NULL then 0 else vs[c].tr;
      ghost var vs2 := vs;
      Switch(p, c, tcur, begin);
      AbsOk();
      Schedules(s0, Op.Schedule(p, tcur, acct, n0, n1, n2, at, ev, begin), Abs(), mid, vs2, c);
    }

    /** In every valid state two processors run different tasks. */
    lemma OneProcessorEach(p: nat, p': nat)
      requires Valid({}) && p < p' < |current| && current[p] != NULL && current[p'] != NULL
      ensures 0 <= current[p] < |vs| && 0 <= current[p'] < |vs| && vs[current[p]].tr != vs[current[p']].tr
    {
      hide Shape, Flags, TaskHomes, QueueHomes, Queues;
      RunnersDiffer(home, vs, vnext, vqueue, current, vqs, tasks.qs, p, p');
    }

    /** Bind an unbound task to the next MAIN VCPU in rotation. */
    method Bind(x: int)
      requires 0 <= x < |cpu| && 0 <= binding < |vs| <= UNBOUND
      requires cpu[x] == UNBOUND || 0 <= cpu[x] < |vs|
      requires cpu[x] == UNBOUND ==> HasMain(vs)
      modifies `cpu, `binding
      ensures 0 <= binding < |vs| && |cpu| == |old(cpu)|
      ensures cpu == old(cpu)[x := cpu[x]] && 0 <= cpu[x] < |vs|
      ensures old(cpu[x]) != UNBOUND ==> cpu[x] == old(cpu[x]) && binding == old(binding)
      ensures old(cpu[x]) == UNBOUND ==> NextMain(vs, old(binding), cpu[x]) && binding == Next(cpu[x], |vs|)
    {
      if cpu[x] == UNBOUND {
        ghost var m :| 0 <= m < |vs| && vs[m].server.Main?;
        ghost var b0: nat, k: nat := binding, 0;
        var found := false;
        while !found
          invariant 0 <= binding < |vs| && |cpu| == |old(cpu)| && cpu == old(cpu)[x := cpu[x]]
          invariant NoMainBefore(vs, b0, k) && binding == Turn(b0, if found then k + 1 else k, |vs|)
          invariant found ==> cpu[x] == Turn(b0, k, |vs|) && vs[cpu[x]].server.Main?
          decreases !found, if m >= binding then m - binding else m - binding + |vs|
        {
          var b := binding;
          cpu := cpu[x := b];
          binding := if b + 1 >= |vs| then 0 else b + 1;
          found := vs[b].server.Main?;
          if !found { k := k + 1; }
        }
        assert NextMain(vs, b0, Turn(b0, k, |vs|));
      }
    }

    /** vcpu_queue_append: nothing if already queued, else to the end. */
    method Enqueue(v: nat)
      requires Shape(vs, vnext, vqueue, current, vqs) && v < |vs| && vs[v].pcpu < |vqs|
      modifies `vnext, `vqueue, `vqs
      ensures Shape(vs, vnext, vqueue, current, vqs)
      ensures vqs == if v in old(vqs)[vs[v].pcpu] then old(vqs)
                     else old(vqs)[vs[v].pcpu := old(vqs)[vs[v].pcpu] + [v]]
    {
      var p := vs[v].pcpu;
      ghost var q, n := vqs[p], 0;
      hide List, Shape, Distinct, Period;
      QueueFacts(vs, vnext, vqueue, current, vqs, p);
      if v !in q { Enqueued(vs, vnext, vqueue, current, vqs, v); }
      var prev, cur := NULL, vqueue[p];
      while cur != NULL
        invariant vnext == old(vnext) && vqueue == old(vqueue) && vqs == old(vqs)
        invariant 0 <= n <= |q| && cur == At(q, n) && prev == At(q, n - 1)
        invariant forall j :: 0 <= j < n ==> q[j] != v
        decreases |q| - n
      {
        if cur == v { return; }
        NextAt(vnext, vqueue[p], q, NULL, n);
        prev, cur, n := cur, vnext[cur], n + 1;
      }
      assert v !in q;
      vnext := vnext[v := NULL];
      if prev == NULL {
        vqueue := vqueue[p := v];
      } else {
        vnext := vnext[prev := v];
      }
      vqs := vqs[p := q + [v]];
    }

    /** The VCPU half of vcpu_wakeup: v, whose runqueue is not empty, goes on
        its processor's queue and is unblocked and refreshed.  Reports whether
        the current VCPU of processor `here` is to be preempted. */
    method WakeVcpu(v: nat, here: nat, n0: nat, n1: nat, now: nat, ghost qs0: seq<seq<int>>) returns (preempt: bool)
      requires Shape(vs, vnext, vqueue, current, vqs) && Flags(vs, current, vqs, qs0)
      requires v < |vs| && here < |current| && n1 > 0
      requires |tasks.qs| == |qs0| && v < |qs0| && tasks.qs[v] != []
      requires forall k :: 0 <= k < |qs0| && k != v ==> tasks.qs[k] == qs0[k]
      modifies `vs, `vnext, `vqueue, `vqs
      ensures Shape(vs, vnext, vqueue, current, vqs) && Flags(vs, current, vqs, tasks.qs)
      ensures |vs| == |old(vs)| && Sound(old(vs)[v].server)
      ensures vs == old(vs)[v := old(vs)[v].(server := Woken(old(vs)[v], n0, n1, now), runnable := true)]
      ensures vqs == Joined(old(vqs), old(vs)[v].pcpu, v)
      ensures preempt <==> && Budget(vs[v].server) > 0
                           && (current[here] == NULL || PeriodOf(vs, current[here]) > Period(vs[v].server))
    {
      hide List, Sound, Shape, Flags, Unblock, Refresh, Period, Budget, SoundAll;
      VcpuFacts(vs, vnext, vqueue, current, vqs, v);
      ghost var vqs0 := vqs;
      Enqueue(v);
      WokenSound(vs[v], n0, n1, now);
      EnqueuedMember(vqs0, vs[v].pcpu, v);
      WokenKeeps(vs, vnext, vqueue, current, vqs0, vqs, qs0, tasks.qs, v, Woken(vs[v], n0, n1, now));
      var w := vs[v];
      if !w.runnable && !w.running {
        vs := vs[v := vs[v].(server := Unblock(w.server, n0, n1))];
      }
      vs := vs[v := vs[v].(runnable := true)];
      vs := vs[v := vs[v].(server := Refresh(vs[v].server, now, now))];
      assert vs == old(vs)[v := w.(server := Woken(w, n0, n1, now), runnable := true)];
      var c := current[here];
      preempt := Budget(vs[v].server) > 0 && (c == NULL || Period(vs[c].server) > Period(vs[v].server));
    }

    /** vcpu_wakeup, executed on processor `here`.  The caller must not leave
        the task on another queue, except on one it is editing. */
    method VcpuWakeup(x: int, here: nat, n0: nat, n1: nat, now: nat, ghost edited: set<int>)
      returns (preempt: bool, v: nat)
      requires Valid(edited) && 0 < x < |cpu| && here < |current| && n1 > 0
      requires Wakeable(cpu, |vs|, tasks.qs, x) && Settled(cpu, home, vs, x)
      modifies `cpu, `home, `binding, `vs, `vnext, `vqueue, `vqs, tasks
      ensures Valid(edited) && v < |vs| == |old(vs)| && |tasks.next| == |old(tasks.next)|
      ensures x < |old(home)| && home == old(home)[x := v]
      ensures cpu == old(cpu)[x := v] && (old(cpu[x]) != UNBOUND ==> v == old(cpu[x]))
      ensures v < |old(tasks.qs)|
      ensures tasks.qs == if x in old(tasks.qs)[v] then old(tasks.qs) else old(tasks.qs)[v := old(tasks.qs)[v] + [x]]
      ensures Moves(old(tasks.qs), tasks.qs, {x}, {})
      ensures forall y :: 0 <= y < |tasks.next| && y !in old(tasks.qs)[v] && y != x ==>
                tasks.next[y] == old(tasks.next[y])
      ensures |tasks.heads| == |old(tasks.heads)| == |tasks.qs|
      ensures forall j :: 0 <= j < |tasks.qs| && j != v ==> tasks.heads[j] == old(tasks.heads[j])
      ensures Sound(old(vs)[v].server)
      ensures Table(vs, vqs) == Woke(old(Table(vs, vqs)), v, (n0, n1, now))
      ensures if old(cpu[x]) != UNBOUND then binding == old(binding)
              else NextMain(old(vs), old(binding), v) && binding == Next(v, |vs|)
      ensures edited == {} ==> Stepped(old(Abs()), Wakeup(x, (n0, n1, now)), Abs())
    {
      hide List, Sound, Shape, Queues, Flags, QueueHomes, TaskHomes, NextMain, Woke, Stepped, Ok, Moves, HasMain;
      ghost var s0 := Abs();
      if edited == {} { AbsOk(); }
      if cpu[x] == UNBOUND { UnboundRests(cpu, home, vs, x); }
      Bind(x);
      v := cpu[x];
      preempt := WakeOn(x, v, here, n0, n1, now, edited);
      AppendMoves(s0.qs, tasks.qs, v, x);
      if edited == {} {
        AbsOk();
        Wakens(s0, Abs(), x, (n0, n1, now), v);
      }
    }

    /** The rest of vcpu_wakeup once x is bound to v. */
    method WakeOn(x: int, v: nat, here: nat, n0: nat, n1: nat, now: nat, ghost edited: set<int>)
      returns (preempt: bool)
      requires Valid(edited) && 0 < x < |cpu| && here < |current| && n1 > 0 && v < |vs|
      requires OnlyOn(tasks.qs, x, v) && x < |home| && (home[x] == v || NotRunning(vs, x))
      modifies `home, `vs, `vnext, `vqueue, `vqs, tasks
      ensures Valid(edited) && |vs| == |old(vs)| && |tasks.next| == |old(tasks.next)|
      ensures home == old(home)[x := v] && v < |old(tasks.qs)|
      ensures tasks.qs == if x in old(tasks.qs)[v] then old(tasks.qs) else old(tasks.qs)[v := old(tasks.qs)[v] + [x]]
      ensures forall y :: 0 <= y < |tasks.next| && y !in old(tasks.qs)[v] && y != x ==>
                tasks.next[y] == old(tasks.next[y])
      ensures |tasks.heads| == |old(tasks.heads)| == |tasks.qs|
      ensures forall j :: 0 <= j < |tasks.qs| && j != v ==> tasks.heads[j] == old(tasks.heads[j])
      ensures Sound(old(vs)[v].server)
      ensures Table(vs, vqs) == Woke(old(Table(vs, vqs)), v, (n0, n1, now))
    {
      hide List, Sound, Shape, Distinct, Woken, QueueHomes, TaskHomes, Woke, Flags, HasMain, OnlyOn, NotRunning;
      ghost var home0, vs0, vqs0, qs0 := home, vs, vqs, tasks.qs;
      FlagsSize(vs, current, vqs, qs0);
      tasks.QueueAppend(v, x, edited);
      hide Queues;
      preempt := WakeVcpu(v, here, n0, n1, now, qs0);
      WokenHomes(home0, vs0, vs, qs0, tasks.qs, x, v);
      home := home[x := v];
      WokenKind(vs0[v], n0, n1, now);
      StillMain(vs0, vs);
      WokeIs(Table(vs0, vqs0), v, (n0, n1, now));
    }

    /** set_iovcpu, which binds task x to the I/O VCPU v that it selects. */
    method SetIovcpu(x: int, v: nat)
      requires Valid({}) && 0 <= x < |cpu| && v < |vs|
      modifies `cpu
      ensures Valid({}) && cpu == old(cpu)[x := v]
      ensures Stepped(old(Abs()), Rebind(x, v), Abs())
    {
      hide List, Sound, Shape, Flags, Queues, QueueHomes, TaskHomes, HasMain, Ok;
      AbsOk();
      cpu := cpu[x := v];
      AbsOk();
    }

    /** iovcpu_job_wakeup of the bound task x for a job of period T, executed on
        processor `here`. */
    method JobWakeup(x: int, T: nat, here: nat, n0: nat, n1: nat, now: nat) returns (preempt: bool, v: nat)
      requires Valid({}) && 0 < x < |cpu| && here < |current| && n1 > 0 && T > 0 && cpu[x] != UNBOUND
      requires Wakeable(cpu, |vs|, tasks.qs, x) && Settled(cpu, home, vs, x)
      modifies `cpu, `home, `binding, `vs, `vnext, `vqueue, `vqs, tasks
      ensures Valid({}) && v == old(cpu[x]) && cpu == old(cpu) && binding == old(binding)
      ensures v < |old(vs)| && v < |old(tasks.qs)| && x < |old(home)| && home == old(home)[x := v]
      ensures tasks.qs == if x in old(tasks.qs)[v] then old(tasks.qs) else old(tasks.qs)[v := old(tasks.qs)[v] + [x]]
      ensures Table(vs, vqs) == Woke(Table(Inherited(old(vs), v, T), old(vqs)), v, (n0, n1, now))
      ensures Stepped(old(Abs()), SchedRun.JobWakeup(x, T, (n0, n1, now)), Abs())
    {
      hide List, Sound, Shape, Queues, Flags, QueueHomes, TaskHomes, HasMain, Ok, Woke, NextMain, Wakeable, Moves;
      AbsOk();
      var w := vs[cpu[x]];
      InheritedKeeps(vs, vnext, vqueue, current, vqs, tasks.qs, cpu[x], T);
      StillMain(vs, Inherited(vs, cpu[x], T));
      SameTasks(home, vs, Inherited(vs, cpu[x], T));
      if w.server.Io? {
        if T < w.server.io.T || !(w.running || w.runnable) {
          vs := vs[cpu[x] := w.(server := Io(w.server.io.(T := T)))];
        }
      }
      assert vs == Inherited(old(vs), cpu[x], T);
      hide Inherited;
      preempt, v := VcpuWakeup(x, here, n0, n1, now, {});
      AbsOk();
    }

    /** The queueing half of sched_usleep for the running task x. */
    method SchedUsleep(x: int, finish: nat)
      requires Valid({}) && 0 < x < |cpu| && OnNone(tasks.qs, x)
      modifies `time, tasks
      ensures Valid({}) && time == old(time)[x := finish] && |vs| < |tasks.qs|
      ensures tasks.qs == old(tasks.qs)[|vs| := old(tasks.qs)[|vs|] + [x]]
      ensures Moves(old(tasks.qs), tasks.qs, {x}, {})
      ensures Stepped(old(Abs()), Usleep(x, finish), Abs())
    {
      hide List, Sound, Shape, Flags, Queues, OnNone, OnlyOn, Moves, QueueHomes, TaskHomes, Ok;
      AbsOk();
      ghost var qs0 := tasks.qs;
      FlagsSize(vs, current, vqs, qs0);
      NoneOnly(qs0, x, |vs|);
      time := time[x := finish];
      tasks.QueueAppend(|vs|, x, {});
      OtherQueues(vs, current, vqs, qs0, tasks.qs);
      OtherHomes(home, |vs|, qs0, tasks.qs);
      AppendMoves(qs0, tasks.qs, |vs|, x);
      AbsOk();
    }

    /** Count sleeper x out of the sleep queue, whose links still run through it. */
    ghost method BeginEdit(a: seq<int>, x: int, b: seq<int>)
      requires Valid({}) && |vs| < |tasks.qs| && tasks.qs[|vs|] == a + [x] + b
      modifies tasks`qs
      ensures Valid({|vs|}) && tasks.qs == old(tasks.qs)[|vs| := a + b]
      ensures |tasks.heads| == |tasks.qs| && List(tasks.next, tasks.heads[|vs|], a + [x] + b, 0)
      ensures OnNone(tasks.qs, x) && 0 < x < |cpu| && Wakeable(cpu, |vs|, tasks.qs, x)
    {
      hide List, Sound, Shape, Distinct, QueueHomes, TaskHomes;
      ghost var qs0 := tasks.qs;
      assert List(tasks.next, tasks.heads[|vs|], tasks.qs[|vs|], 0);
      Detach(tasks.next, tasks.heads, tasks.qs, |vs|, a, x, b);
      hide Queues;
      tasks.qs := tasks.qs[|vs| := a + b];
      OtherQueues(vs, current, vqs, qs0, tasks.qs);
      OtherHomes(home, |vs|, qs0, tasks.qs);
      hide Flags;
    }

    /** Redirect the link that still points at x. */
    method EndEdit(prev: int, nxt: int, ghost next0: seq<int>, ghost a: seq<int>, ghost x: int, ghost b: seq<int>)
      requires Valid({|vs|}) && |vs| < |tasks.qs| == |tasks.heads| && tasks.qs[|vs|] == a + b
      requires List(next0, tasks.heads[|vs|], a + [x] + b, 0) && |next0| == |tasks.next|
      requires prev == (if a == [] then 0 else a[|a| - 1]) && 0 <= x < |next0| && nxt == next0[x]
      requires forall y :: y in a + b && 0 <= y < |next0| ==> tasks.next[y] == next0[y]
      modifies tasks`heads, tasks`next
      ensures Valid({})
    {
      hide List, Sound, Shape, Flags, Queues, QueueHomes, TaskHomes;
      Reattach(next0, tasks.heads[|vs|], tasks.next, tasks.heads, tasks.qs, |vs|, a, x, b);
      if prev == 0 {
        tasks.heads := tasks.heads[|vs| := nxt];
      } else {
        tasks.next := tasks.next[prev := nxt];
      }
    }

    /** The body of process_sleepqueue for an expired sleeper x: wake it, then
        redirect the link that still points at it.  `prev` is the last sleeper
        kept so far, 0 if none; `nxt` was x's link before the wakeup. */
    method WakeSleeper(x: int, prev: int, nxt: int, here: nat, rd: (nat, nat, nat), ghost a: seq<int>,
                       ghost b: seq<int>)
      returns (ghost v: nat)
      requires Valid({}) && here < |current| && rd.1 > 0 && |vs| < |tasks.qs|
      requires tasks.qs[|vs|] == a + [x] + b && prev == (if a == [] then 0 else a[|a| - 1])
      requires 0 < x < |cpu| && nxt == tasks.next[x] && Settled(cpu, home, vs, x)
      modifies `cpu, `home, `binding, `vs, `vnext, `vqueue, `vqs, tasks
      ensures Valid({}) && |vs| == |old(vs)| && v < |vs|
      ensures cpu == old(cpu)[x := v] && (old(cpu[x]) != UNBOUND ==> v == old(cpu[x]))
      ensures tasks.qs == old(tasks.qs)[|vs| := a + b][v := old(tasks.qs)[v] + [x]]
      ensures Table(vs, vqs) == Woke(old(Table(vs, vqs)), v, rd)
      ensures x < |old(home)| && home == old(home)[x := v]
    {
      hide List, Sound, Shape, Flags, Queues, OnNone, Wakeable, HasMain, QueueHomes, TaskHomes, Woke, Stepped, Settled;
      ghost var next0 := tasks.next;
      BeginEdit(a, x, b);
      ghost var qs1, heads1 := tasks.qs, tasks.heads;
      var _, w := VcpuWakeup(x, here, rd.0, rd.1, rd.2, {|vs|});
      v := w;
      NotOn(qs1, x, v);
      SleepersFramed(next0, heads1, tasks.next, qs1, |vs|, v, x);
      EndEdit(prev, nxt, next0, a, x, b);
    }

    /** The sizes that every valid state has in common. */
    lemma Unpack()
      requires Valid({})
      ensures Queues(tasks.next, tasks.heads, tasks.qs, {}) && |tasks.heads| == |tasks.qs|
      ensures |cpu| == |tasks.next| == |time| == |home| && |vs| < |tasks.qs|
    {
    }

    /** Task x has been bound and woken. */
    twostate predicate WokeHere(x: int, rd: Reading)
      reads this
    {
      && 0 <= x < |cpu| == |old(cpu)| && cpu == old(cpu)[x := cpu[x]]
      && x < |old(home)| && home == old(home)[x := cpu[x]]
      && Table(vs, vqs) == Woke(old(Table(vs, vqs)), cpu[x], rd)
    }

    /** Examine the sleeper x at position i of the sleep queue as it was at the
        start: wake it or keep it, and find the one after it. */
    method ExamineSleeper(x: int, prev: int, now: nat, here: nat, rd: (nat, nat, nat),
                          ghost qs0: seq<seq<int>>, ghost time0: seq<nat>, ghost i: nat)
      returns (prev': int, x': int)
      requires Valid({}) && here < |current| && rd.1 > 0
      requires Examined(qs0, tasks.qs, |vs|, i, cpu, time0, time, now)
      requires AtSleeper(qs0, |vs|, i, x, prev, time0, now) && x != 0 && Settled(cpu, home, vs, x)
      modifies `cpu, `home, `binding, `vs, `vnext, `vqueue, `vqs, `time, tasks
      ensures Valid({}) && |vs| == |old(vs)|
      ensures Examined(qs0, tasks.qs, |vs|, i + 1, cpu, time0, time, now)
      ensures AtSleeper(qs0, |vs|, i + 1, x', prev', time0, now)
      ensures StillBound(old(cpu), cpu)
      ensures IsDue(time0, now, x) ==> WokeHere(x, rd)
      ensures !IsDue(time0, now, x) ==> cpu == old(cpu) && home == old(home) && vs == old(vs) && vqs == old(vqs)
    {
      hide List, Sound, Shape, Flags, Queues, HasMain, Examined, Distinct, Valid, StillBound, Woke, Settled;
      Unpack();
      BoundReflexive(cpu);
      ExaminedRange(qs0, tasks.qs, |vs|, i, cpu, time0, time, now);
      NextSleeper(tasks.next, tasks.heads, qs0, tasks.qs, |vs|, i, cpu, time0, time, now);
      var nxt := tasks.next[x];
      prev' := prev;
      if time[x] <= now {
        WakeExpired(x, prev, nxt, now, here, rd, qs0, time0, i);
      } else {
        ExaminedKept(qs0, tasks.qs, |vs|, i, cpu, time0, time, now);
        prev' := x;
      }
      x' := 0;
      if nxt != 0 {
        Unpack();
        AfterSleeper(tasks.next, tasks.heads, qs0, tasks.qs, |vs|, i + 1, cpu, time0, time, now);
        x' := if prev' == 0 then tasks.heads[|vs|] else tasks.next[prev'];
      }
    }

    method WakeExpired(x: int, prev: int, nxt: int, now: nat, here: nat, rd: (nat, nat, nat),
                       ghost qs0: seq<seq<int>>, ghost time0: seq<nat>, ghost i: nat)
      requires Valid({}) && here < |current| && rd.1 > 0
      requires Examined(qs0, tasks.qs, |vs|, i, cpu, time0, time, now)
      requires AtSleeper(qs0, |vs|, i, x, prev, time0, now) && x != 0 && Settled(cpu, home, vs, x)
      requires 0 < x < |tasks.next| && nxt == tasks.next[x] && 0 < x < |time| && time[x] <= now
      modifies `cpu, `home, `binding, `vs, `vnext, `vqueue, `vqs, `time, tasks
      ensures Valid({}) && |vs| == |old(vs)|
      ensures Examined(qs0, tasks.qs, |vs|, i + 1, cpu, time0, time, now)
      ensures Asleep(qs0[|vs|][..i + 1], time0, now) == Asleep(qs0[|vs|][..i], time0, now)
      ensures StillBound(old(cpu), cpu) && WokeHere(x, rd)
    {
      hide List, Sound, Shape, Flags, Queues, HasMain, Examined, Distinct, Valid, Woke, Settled;
      Unpack();
      ExaminedRange(qs0, tasks.qs, |vs|, i, cpu, time0, time, now);
      NextSleeper(tasks.next, tasks.heads, qs0, tasks.qs, |vs|, i, cpu, time0, time, now);
      ghost var qs1, cpu1 := tasks.qs, cpu;
      ghost var a, b := Asleep(qs0[|vs|][..i], time0, now), qs0[|vs|][i + 1..];
      ghost var v := WakeSleeper(x, prev, nxt, here, rd, a, b);
      ExaminedWoken(qs0, qs1, |vs|, i, cpu1, time0, time, now, v, tasks.qs);
      ClearTime(x);
    }

    method ClearTime(x: int)
      requires Valid({}) && 0 <= x < |time|
      modifies `time
      ensures Valid({}) && time == old(time)[x := 0]
    {
      hide Shape, Flags, Queues, QueueHomes, TaskHomes;
      time := time[x := 0];
    }

    /** One round of the pass: x, found at position i, is examined. */
    method SleepRound(x: int, prev: int, now: nat, here: nat, rd: seq<(nat, nat, nat)>,
                      ghost qs0: seq<seq<int>>, ghost time0: seq<nat>, ghost i: nat, ghost s0: State)
      returns (prev': int, x': int)
      requires Valid({}) && here < |current| && |rd| == |s0.cpu| && StillBound(s0.cpu, cpu)
      requires forall y :: 0 <= y < |rd| ==> rd[y].1 > 0
      requires Examined(qs0, tasks.qs, |vs|, i, cpu, time0, time, now)
      requires AtSleeper(qs0, |vs|, i, x, prev, time0, now) && x != 0
      requires Passed(s0, Due(qs0[|vs|][..i], time0, now), rd) && AllSettled(cpu, home, vs, qs0[|vs|])
      modifies `cpu, `home, `binding, `vs, `vnext, `vqueue, `vqs, `time, tasks
      ensures Valid({}) && |vs| == |old(vs)| && |vs| < |qs0| && i < |qs0[|vs|]|
      ensures Passed(s0, Due(qs0[|vs|][..i + 1], time0, now), rd) && AllSettled(cpu, home, vs, qs0[|vs|])
      ensures Examined(qs0, tasks.qs, |vs|, i + 1, cpu, time0, time, now)
      ensures AtSleeper(qs0, |vs|, i + 1, x', prev', time0, now)
      ensures StillBound(s0.cpu, cpu)
    {
      hide List, Sound, Shape, Flags, Queues, HasMain, Examined, Distinct, Valid, StillBound, AtSleeper, WokeAll,
        Woke, Due, IsDue, Settled, Rehomed, NotRunning;
      ghost var s1 := Abs();
      Unpack();
      AtIndex(qs0, |vs|, i, x, prev, time0, now);
      ExaminedRange(qs0, tasks.qs, |vs|, i, cpu, time0, time, now);
      ExaminedSleeper(qs0, tasks.qs, |vs|, i, cpu, time0, time, now, x, prev, |rd|);
      BoundLength(s0.cpu, cpu);
      prev', x' := ExamineSleeper(x, prev, now, here, rd[x], qs0, time0, i);
      BoundTransitive(s0.cpu, s1.cpu, cpu);
      if IsDue(time0, now, x) {
        RoundPassed(s0, s1, qs0[|vs|], i, time0, now, rd, cpu[x], Abs());
        WokeSame(Table(s1.vs, s1.vqs), cpu[x], rd[x]);
        StillSettled(s1.cpu, s1.home, s1.vs, vs, qs0[|vs|], x, cpu[x]);
      } else {
        RoundKept(qs0[|vs|], i, time0, now);
      }
    }

    /** The tasks xs have been bound and woken since s0. */
    ghost predicate Passed(s0: State, xs: seq<int>, rd: seq<Reading>)
      reads this
    {
      Table(vs, vqs) == WokeAll(Table(s0.vs, s0.vqs), xs, cpu, rd) && Rehomed(s0.home, home, xs, cpu)
    }

    /** One pass over the sleep queue.  `rd[x]` holds the clock readings taken
        while x is woken. */
    method ProcessSleepqueue(now: nat, here: nat, rd: seq<(nat, nat, nat)>)
      requires Valid({}) && here < |current| && |rd| == |cpu|
      requires forall x :: 0 <= x < |rd| ==> rd[x].1 > 0
      requires |vs| < |tasks.qs| && AllSettled(cpu, home, vs, tasks.qs[|vs|])
      modifies `cpu, `home, `binding, `vs, `vnext, `vqueue, `vqs, `time, tasks
      ensures Valid({}) && |vs| == |old(vs)| < |old(tasks.qs)|
      ensures Examined(old(tasks.qs), tasks.qs, |vs|, |old(tasks.qs)[|vs|]|, cpu, old(time), time, now)
      ensures StillBound(old(cpu), cpu) && Moves(old(tasks.qs), tasks.qs, {}, {})
      ensures Stepped(old(Abs()), Sleepers(now, rd), Abs())
    {
      hide List, Sound, Shape, Flags, Queues, HasMain, Examined, Distinct, Valid, StillBound, AtSleeper, Moves,
        WokeAll, Due, Ok, Settled, AllSettled, Rehomed;
      AbsOk();
      Unpack();
      BoundReflexive(cpu);
      SleepersInRange(tasks.next, tasks.heads, tasks.qs, |vs|);
      ghost var qs0, time0, s0 := tasks.qs, time, Abs();
      WokeNone(Table(vs, vqs), qs0[|vs|], time0, now, cpu, rd);
      RehomedNone(home, cpu, qs0[|vs|], time0, now);
      ghost var nv: nat, i: nat := |vs|, 0;
      ExaminedStart(qs0, nv, cpu, time, now);
      FirstSleeper(tasks.next, tasks.heads, qs0, nv, time, now);
      var prev, x := 0, tasks.heads[|vs|];
      ghost var n: nat := |qs0[nv]|;
      while x != 0
        invariant Valid({}) && |vs| == nv
        invariant Examined(qs0, tasks.qs, nv, i, cpu, time0, time, now)
        invariant AtSleeper(qs0, nv, i, x, prev, time0, now)
        invariant StillBound(s0.cpu, cpu) && AllSettled(cpu, home, vs, qs0[nv])
        invariant i <= n && Passed(s0, Due(qs0[nv][..i], time0, now), rd)
        decreases n - i
      {
        prev, x := SleepRound(x, prev, now, here, rd, qs0, time0, i, s0);
        i := i + 1;
      }
      LastSleeper(qs0, nv, i, prev, time0, now);
      ExaminedMoves(qs0, tasks.qs, nv, cpu, time0, time, now);
      assert qs0[nv][..n] == qs0[nv];
      AbsOk();
    }

    /** Take the head off wait queue k and wake it. */
    method WakeHead(k: nat, here: nat, rd: seq<(nat, nat, nat)>, ghost qs0: seq<seq<int>>, ghost i: nat,
                    ghost s0: State)
      returns (more: bool)
      requires Valid({}) && here < |current| && |rd| == |cpu| && |vs| < k
      requires forall x :: 0 <= x < |rd| ==> rd[x].1 > 0
      requires Drained(qs0, tasks.qs, |vs|, k, i, cpu) && Distinct(qs0[k])
      requires Passed(s0, qs0[k][..i], rd) && AllSettled(cpu, home, vs, qs0[k])
      modifies `cpu, `home, `binding, `vs, `vnext, `vqueue, `vqs, tasks
      ensures Valid({}) && |vs| == |old(vs)| && |cpu| == |old(cpu)|
      ensures more == (i < |qs0[k]|)
      ensures Drained(qs0, tasks.qs, |vs|, k, if more then i + 1 else i, cpu)
      ensures StillBound(old(cpu), cpu)
      ensures Passed(s0, qs0[k][..if more then i + 1 else i], rd) && AllSettled(cpu, home, vs, qs0[k])
    {
      hide List, Sound, Shape, Flags, HasMain, Distinct, Queues, OnNone, QueueHomes, TaskHomes, WokeAll, Woke, Stepped,
        Settled, Rehomed, NotRunning;
      ghost var qs1, s1 := tasks.qs, Abs();
      RemovedHead(tasks.next, tasks.heads, qs1, k);
      var x := tasks.QueueRemoveHead(k);
      DrainedHead(qs0, qs1, |vs|, k, i, cpu);
      more := x != 0;
      if more {
        OtherQueues(vs, current, vqs, qs1, tasks.qs);
        OtherHomes(home, |vs|, qs1, tasks.qs);
        NoneWakeable(cpu, |vs|, tasks.qs, x);
        hide Drained, Wakeable;
        var _, v := VcpuWakeup(x, here, rd[x].0, rd[x].1, rd[x].2, {});
        NotOn(qs1[k := qs1[k][1..]], x, v);
        DrainedStep(qs0, qs1, tasks.qs, |vs|, k, i, s1.cpu, v);
        HeadPassed(s0, s1, qs0[k], i, rd, v, Abs());
        WokeSame(Table(s1.vs, s1.vqs), v, rd[x]);
        StillSettled(s1.cpu, s1.home, s1.vs, vs, qs0[k], x, v);
      }
    }

    /** Wake everything on wait queue k, in order. */
    method WakeupQueue(k: nat, here: nat, rd: seq<(nat, nat, nat)>)
      requires Valid({}) && here < |current| && |rd| == |cpu| && |vs| < k < |tasks.qs|
      requires forall x :: 0 <= x < |rd| ==> rd[x].1 > 0
      requires AllSettled(cpu, home, vs, tasks.qs[k])
      modifies `cpu, `home, `binding, `vs, `vnext, `vqueue, `vqs, tasks
      ensures Valid({}) && |vs| == |old(vs)|
      ensures Drained(old(tasks.qs), tasks.qs, |vs|, k, |old(tasks.qs)[k]|, cpu) && tasks.qs[k] == []
      ensures StillBound(old(cpu), cpu) && Moves(old(tasks.qs), tasks.qs, {}, {})
      ensures Stepped(old(Abs()), Wakeups(k, rd), Abs())
    {
      hide List, Sound, Shape, Flags, HasMain, Distinct, Queues, Valid, StillBound, Moves, WokeAll, Ok, Drained,
        Settled, AllSettled, Rehomed;
      AbsOk();
      Unpack();
      BoundReflexive(cpu);
      SleepersInRange(tasks.next, tasks.heads, tasks.qs, k);
      ghost var qs0, i, s0 := tasks.qs, 0, Abs();
      DrainedStart(qs0, |vs|, k, cpu);
      WokeNone(Table(vs, vqs), qs0[k], [], 0, cpu, rd);
      RehomedNone(home, cpu, qs0[k], [], 0);
      var more := true;
      while more
        invariant Valid({}) && |vs| == |old(vs)| && |cpu| == |rd|
        invariant 0 <= i <= |qs0[k]| && Drained(qs0, tasks.qs, |vs|, k, i, cpu)
        invariant StillBound(old(cpu), cpu) && Passed(s0, qs0[k][..i], rd) && AllSettled(cpu, home, vs, qs0[k])
        invariant !more ==> i == |qs0[k]|
        decreases more, |qs0[k]| - i
      {
        ghost var cpu1 := cpu;
        more := WakeHead(k, here, rd, qs0, i, s0);
        BoundTransitive(old(cpu), cpu1, cpu);
        if more { i := i + 1; }
      }
      DrainedMoves(qs0, tasks.qs, |vs|, k, cpu);
      DrainedAll(qs0, tasks.qs, |vs|, k, cpu);
      assert qs0[k][..i] == qs0[k];
      AbsOk();
    }
  }
}
