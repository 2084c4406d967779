/** The same for an I/O VCPU: over every run of the scheduler its hooks are
    called as its ledger allows, so it gets no more than its bandwidth. */
module BandwidthRun {
  import opened VcpuHooks
  import opened Sleep
  import opened SchedModel
  import opened SchedRun
  import opened SupplyRun
  import WaitQueues
  import I = IoServer

  // ----- what a run charges, and when it first wakes a VCPU

  /** Operation o ends a slice of v and charges the usage. */
  ghost predicate ChargedBy(s: State, o: Op, v: nat) {
    && Ends(s, o, v) && v < |s.vs| && s.vs[v].server.Io?
    && I.Charges(s.vs[v].server.io, Charged(s, o, v), s.vs[v].runnable)
  }

  /** How often the first n operations do so. */
  ghost function ChargeCount(rows: seq<State>, os: seq<Op>, v: nat, n: nat): nat
    requires n <= |os| < |rows|
  {
    if n == 0 then 0
    else ChargeCount(rows, os, v, n - 1) + if ChargedBy(rows[n - 1], os[n - 1], v) then 1 else 0
  }

  /** The reading of the first wakeup of v while the tasks xs are woken, 0 for
      none. */
  ghost function FirstOf(xs: seq<int>, cpu: seq<int>, rd: seq<Reading>, v: nat): nat
    decreases |xs|
  {
    if xs == [] then 0
    else
      var e := FirstOf(Front(xs), cpu, rd, v);
      if e != 0 then e else if CpuOf(cpu, Last(xs)) == v then ReadingOf(rd, Last(xs)).0 else 0
  }

  ghost function WokenAt(s: State, o: Op, s': State, v: nat): nat {
    match o
    case Schedule(_, _, _, _, _, _, _, _, _) => 0
    case Wakeup(x, rd) => if CpuOf(s'.cpu, x) == v then rd.0 else 0
    case Usleep(_, _) => 0
    case Sleepers(now, rd) => if |s.vs| < |s.qs| then FirstOf(Due(s.qs[|s.vs|], s.time, now), s'.cpu, rd, v) else 0
    case Wakeups(k, rd) => if k < |s.qs| then FirstOf(s.qs[k], s'.cpu, rd, v) else 0
    case Rebind(_, _) => 0
    case JobWakeup(x, _, rd) => if CpuOf(s'.cpu, x) == v then rd.0 else 0
  }

  /** The reading with which v is first woken by the first n operations, 0 if it
      is not. */
  ghost function FirstWake(rows: seq<State>, os: seq<Op>, v: nat, n: nat): nat
    requires n <= |os| < |rows|
  {
    if n == 0 then 0
    else
      var e := FirstWake(rows, os, v, n - 1);
      if e != 0 then e else WokenAt(rows[n - 1], os[n - 1], rows[n], v)
  }

  // ----- the ledger of an I/O VCPU

  /** Before its first job, at e0, an I/O VCPU is as vcpu_init leaves it; from
      then on its ledger is sound; while it runs it has budget and nothing
      pending. */
  ghost predicate Holds(w: V, since: nat, g: I.Ledger, e0: nat, now: nat) {
    && w.server.Io? && Sound(w.server) && g.v == w.server.io && g.now <= now
    && (g.blocked <==> !w.runnable && !w.running)
    && (w.running ==> g.now <= since <= now && g.v.b > 0 && g.v.rt == 0)
    && if e0 == 0 then g == I.Ledger(g.v, g.now, 0, 0, true) && I.Unused(g.v) else I.Sound(g, e0)
  }

  lemma HoldsLater(w: V, since: nat, g: I.Ledger, e0: nat, a: nat, z: nat)
    requires Holds(w, since, g, e0, a) && a <= z
    ensures Holds(w, since, g, e0, z)
  {
    hide I.Sound, Sound;
  }

  lemma HoldsFacts(w: V, since: nat, g: I.Ledger, e0: nat, now: nat)
    requires Holds(w, since, g, e0, now)
    ensures w.server.Io? && Sound(w.server) && I.Fraction(g.v) && g.v == w.server.io && g.now <= now
    ensures g.blocked <==> !w.runnable && !w.running
    ensures w.running ==> g.now <= since <= now && g.v.b > 0 && g.v.rt == 0 && e0 != 0
    ensures e0 != 0 ==> I.Sound(g, e0)
    ensures e0 == 0 ==> g == I.Ledger(g.v, g.now, 0, 0, true) && I.Unused(g.v)
  {
  }

  lemma FollowsNone(g: I.Ledger)
    ensures I.Follows(g, []) && I.Moved(g, []) == g
  {
  }

  /** A refresh at time t. */
  lemma {:induction false} RefreshHolds(w: V, since: nat, g: I.Ledger, e0: nat, t: nat, z: nat)
    requires Holds(w, since, g, e0, t) && t <= z && !w.running && e0 != 0
    ensures I.Fraction(g.v) && I.Allowed(g, I.Refresh(t))
    ensures Holds(w.(server := Io(I.Update(w.server.io, t))), since, I.Step(g, I.Refresh(t)), e0, z)
  {
    HoldsFacts(w, since, g, e0, t);
    I.StepSound(g, I.Refresh(t), e0);
    hide I.Sound;
  }

  /** A wakeup resumes a blocked VCPU and refreshes it. */
  lemma {:induction false} WakeHolds(w: V, since: nat, g: I.Ledger, e0: nat, a: nat, rd: Reading, z: nat)
    returns (ms: seq<I.Move>)
    requires Holds(w, since, g, e0, a) && InOrder(a, rd, z) && rd.0 > 0 && Sound(w.server)
    ensures I.Follows(g, ms) && I.Idle(ms)
    ensures Holds(w.(server := Woken(w, rd.0, rd.1, rd.2), runnable := true), since, I.Moved(g, ms),
                  if e0 != 0 then e0 else rd.0, z)
  {
    HoldsFacts(w, since, g, e0, a);
    WokenSound(w, rd.0, rd.1, rd.2);
    if w.running {
      ms := [];
      FollowsNone(g);
      hide I.Sound, Sound;
    } else if g.blocked {
      var w1 := w.(server := Io(I.Unblock(w.server.io, rd.0)), runnable := true);
      var g1, e1 := ResumeHolds(w, since, g, e0, a, rd.0, rd.2);
      hide I.Sound, Sound, I.Unblock, I.Step, I.Allowed, Holds, I.Follows, I.Moved;
      I.FollowsOne(g, I.Resume(rd.0));
      RefreshHolds(w1, since, g1, e1, rd.2, z);
      I.FollowsOne(g1, I.Refresh(rd.2));
      ms := [I.Resume(rd.0)] + [I.Refresh(rd.2)];
      I.FollowsAppend(g, [I.Resume(rd.0)], [I.Refresh(rd.2)]);
    } else {
      var w1 := w.(runnable := true);
      assert Holds(w1, since, g, e0, rd.2) by { hide I.Sound, Sound; }
      hide I.Sound, Sound, I.Step, I.Allowed, Holds, I.Follows, I.Moved;
      RefreshHolds(w1, since, g, e0, rd.2, z);
      I.FollowsOne(g, I.Refresh(rd.2));
      ms := [I.Refresh(rd.2)];
    }
  }

  lemma {:induction false} ResumeHolds(w: V, since: nat, g: I.Ledger, e0: nat, a: nat, t: nat, z: nat)
    returns (g': I.Ledger, e1: nat)
    requires Holds(w, since, g, e0, a) && g.blocked && a <= t <= z && t > 0 && Sound(w.server)
    ensures I.Fraction(g.v) && I.Allowed(g, I.Resume(t)) && g' == I.Step(g, I.Resume(t))
    ensures e1 == if e0 != 0 then e0 else t
    ensures Holds(w.(server := Io(I.Unblock(w.server.io, t)), runnable := true), since, g', e1, z)
  {
    HoldsFacts(w, since, g, e0, a);
    UnblockSound(w.server, t, t);
    g', e1 := I.Step(g, I.Resume(t)), if e0 != 0 then e0 else t;
    if e0 != 0 { I.StepSound(g, I.Resume(t), e0); } else { I.FirstResume(g.v, g.now, t); }
    hide I.Sound, Sound, I.Unblock;
  }

  /** A job's period is taken over. */
  lemma InheritHolds(w: V, since: nat, g: I.Ledger, e0: nat, T: nat, now: nat)
    requires Holds(w, since, g, e0, now) && T > 0
    ensures I.Fraction(g.v) && I.Allowed(g, I.Inherit(T))
    ensures Holds(w.(server := Io(w.server.io.(T := T))), since, I.Step(g, I.Inherit(T)), e0, now)
  {
    HoldsFacts(w, since, g, e0, now);
    if e0 != 0 { I.StepSound(g, I.Inherit(T), e0); }
    hide I.Sound;
  }

  /** The end of a timeslice is a move that the ledger allows. */
  lemma {:induction false} EndHolds(w: V, since: nat, g: I.Ledger, e0: nat, a: nat, tcur: nat, n0: nat, n1: nat,
                                    n2: nat)
    requires Holds(w, since, g, e0, a) && w.running && a <= tcur && Sound(w.server)
    ensures since <= tcur && I.Fraction(g.v) && e0 != 0
    ensures var m, sv := I.Serve(since, tcur - since, w.runnable),
                         EndSlice(w.server, tcur - since, w.runnable, n0, n1, n2);
            && I.Allowed(g, m) && sv.Io?
            && Holds(w.(server := sv, running := false), since, I.Step(g, m), e0, tcur)
            && I.Step(g, m).served == g.served + (tcur - since)
            && I.Step(g, m).charges
               == g.charges + if I.Charges(w.server.io, tcur - since, w.runnable) then 1 else 0
  {
    HoldsFacts(w, since, g, e0, a);
    var m := I.Serve(since, tcur - since, w.runnable);
    I.StepSound(g, m, e0);
    EndSliceSound(w.server, tcur - since, w.runnable, n0, n1, n2);
    hide I.Sound, Sound, I.EndTimeslice;
  }

  /** Refreshed and picked, or left as it is. */
  lemma {:induction false} NextHolds(w: V, w': V, since: nat, g: I.Ledger, e0: nat, tcur: nat, at: nat, z: nat)
    returns (ms: seq<I.Move>)
    requires Holds(w, since, g, e0, tcur) && !w.running && tcur <= z
    requires if w'.running then w.runnable && w'.server == Refresh(w.server, tcur, at) && Budget(w'.server) > 0
             else w'.runnable == w.runnable
                  && (w'.server == w.server || (w.runnable && w'.server == Refresh(w.server, tcur, at)))
    ensures I.Follows(g, ms) && I.Idle(ms) && Holds(w', tcur, I.Moved(g, ms), e0, z)
  {
    HoldsFacts(w, since, g, e0, tcur);
    if w'.server == w.server && !w'.running {
      ms := [];
      FollowsNone(g);
      hide I.Sound, Sound;
    } else {
      var w2, g2 := w.(server := Io(I.Update(w.server.io, tcur))), I.Step(g, I.Refresh(tcur));
      RefreshHolds(w, since, g, e0, tcur, z);
      HoldsFacts(w2, since, g2, e0, z);
      I.FollowsOne(g, I.Refresh(tcur));
      ms := [I.Refresh(tcur)];
      hide I.Sound, Sound, I.Follows, I.Moved;
    }
  }

  // ----- one VCPU through one operation

  /** What operation o does to the ledger of v: the slice that ended comes first,
      and all else are refreshes, wakeups and inherited periods. */
  ghost predicate IoMovesOf(s: State, o: Op, v: nat, ms: seq<I.Move>) {
    if Ends(s, o, v)
    then && v < |s.vs| && ms != [] && I.Idle(ms[1..])
         && ms[0] == I.Serve(s.tprev[o.p], Charged(s, o, v), s.vs[v].runnable)
    else I.Idle(ms)
  }

  lemma {:induction false} ScheduleHolds(s: State, o: Op, s': State, v: nat, g: I.Ledger, e0: nat, a: nat, z: nat)
    returns (ms: seq<I.Move>)
    requires Stepped(s, o, s') && o.Schedule? && v < |s.vs| == |s'.vs| && s.vs[v].pcpu == o.p
    requires Timed(a, s, o, z) && Holds(s.vs[v], Since(s, v), g, e0, a)
    ensures I.Follows(g, ms) && IoMovesOf(s, o, v, ms) && s'.vs[v].pcpu == s.vs[v].pcpu
    ensures I.Moved(g, ms).served == g.served + Charged(s, o, v)
    ensures I.Moved(g, ms).charges == g.charges + if ChargedBy(s, o, v) then 1 else 0
    ensures Holds(s'.vs[v], Since(s', v), I.Moved(g, ms), e0, z)
  {
    hide Stepped, Ok, Refresh, Budget, EndSlice, Sound, CanSchedule, Holds, I.Follows, I.Moved, I.Step, I.Allowed,
      I.Charges;
    CanFacts(s, o, s');
    ScheduledHere(s, o, s', v);
    HoldsFacts(s.vs[v], Since(s, v), g, e0, a);
    var w, w', since := s.vs[v], s'.vs[v], s.tprev[o.p];
    if w.running {
      var m, w1 := I.Serve(since, o.tcur - since, w.runnable), w.(server := EndedServer(s, o, v), running := false);
      EndHolds(w, since, g, e0, a, o.tcur, o.n0, o.n1, o.n2);
      I.FollowsOne(g, m);
      var rest := NextHolds(w1, w', since, I.Step(g, m), e0, o.tcur, o.at[v], z);
      I.IdleFree(I.Step(g, m), rest);
      ms := [m] + rest;
      I.FollowsAppend(g, [m], rest);
      assert ms[1..] == rest;
    } else {
      HoldsLater(w, since, g, e0, a, o.tcur);
      ms := NextHolds(w, w', since, g, e0, o.tcur, o.at[v], z);
      I.IdleFree(g, ms);
    }
  }

  lemma {:induction false} WokeHolds(t: Table, u: int, v: nat, since: nat, g: I.Ledger, e0: nat, a: nat, rd: Reading,
                                     z: nat)
    returns (ms: seq<I.Move>)
    requires v < |t.vs| && Holds(t.vs[v], since, g, e0, a) && InOrder(a, rd, z) && rd.0 > 0
    ensures I.Follows(g, ms) && I.Idle(ms)
    ensures Holds(Woke(t, u, rd).vs[v], since, I.Moved(g, ms), if e0 != 0 then e0 else if u == v then rd.0 else 0, z)
    ensures Woke(t, u, rd).vs[v].pcpu == t.vs[v].pcpu
  {
    hide Holds, Sound, Woken, I.Follows, I.Moved;
    HoldsFacts(t.vs[v], since, g, e0, a);
    if u == v {
      ms := WakeHolds(t.vs[v], since, g, e0, a, rd, z);
    } else {
      ms := [];
      FollowsNone(g);
      HoldsLater(t.vs[v], since, g, e0, a, z);
    }
  }

  lemma {:induction false} PassHolds(t: Table, xs: seq<int>, cpu: seq<int>, rd: seq<Reading>, v: nat, since: nat,
                                     g: I.Ledger, e0: nat, a: nat, z: nat)
    returns (ms: seq<I.Move>)
    requires v < |t.vs| && Holds(t.vs[v], since, g, e0, a) && OneByOne(a, xs, rd, z) && a > 0
    ensures I.Follows(g, ms) && I.Idle(ms)
    ensures Holds(WokeAll(t, xs, cpu, rd).vs[v], since, I.Moved(g, ms),
                  if e0 != 0 then e0 else FirstOf(xs, cpu, rd, v), z)
    ensures WokeAll(t, xs, cpu, rd).vs[v].pcpu == t.vs[v].pcpu
    decreases |xs|
  {
    hide Holds, Woke, I.Follows, I.Moved;
    if xs == [] {
      ms := [];
      FollowsNone(g);
      HoldsLater(t.vs[v], since, g, e0, a, z);
    } else {
      var y, r := Last(xs), ReadingOf(rd, Last(xs));
      assert InOrder(a, ReadingOf(rd, xs[|xs| - 1]), z);
      OneByOneFront(a, xs, rd, z);
      hide OneByOne;
      var e1 := if e0 != 0 then e0 else FirstOf(Front(xs), cpu, rd, v);
      var front := PassHolds(t, Front(xs), cpu, rd, v, since, g, e0, a, r.0);
      var g1 := I.Moved(g, front);
      var last := WokeHolds(WokeAll(t, Front(xs), cpu, rd), CpuOf(cpu, y), v, since, g1, e1, r.0, r, z);
      ms := front + last;
      I.FollowsAppend(g, front, last);
    }
  }

  lemma {:induction false} FirstInTime(xs: seq<int>, cpu: seq<int>, rd: seq<Reading>, v: nat, a: nat, z: nat)
    requires OneByOne(a, xs, rd, z)
    ensures FirstOf(xs, cpu, rd, v) == 0 || a <= FirstOf(xs, cpu, rd, v)
    decreases |xs|
  {
    if xs != [] {
      assert InOrder(a, ReadingOf(rd, xs[|xs| - 1]), z);
      OneByOneFront(a, xs, rd, z);
      hide OneByOne;
      FirstInTime(Front(xs), cpu, rd, v, a, ReadingOf(rd, Last(xs)).0);
    }
  }

  lemma WokenInTime(s: State, o: Op, s': State, v: nat, a: nat, z: nat)
    requires Timed(a, s, o, z)
    ensures WokenAt(s, o, s', v) == 0 || a <= WokenAt(s, o, s', v)
  {
    hide OneByOne, FirstOf, Due;
    match o
    case Sleepers(now, rd) => FirstInTime(Due(s.qs[|s.vs|], s.time, now), s'.cpu, rd, v, a, z);
    case Wakeups(k, rd) => FirstInTime(s.qs[k], s'.cpu, rd, v, a, z);
    case _ =>
  }

  /** A job's wakeup of any VCPU u. */
  lemma {:induction false} JobHolds(t: Table, u: int, T: nat, v: nat, since: nat, g: I.Ledger, e0: nat, a: nat,
                                    rd: Reading, z: nat)
    returns (ms: seq<I.Move>)
    requires v < |t.vs| && Holds(t.vs[v], since, g, e0, a) && InOrder(a, rd, z) && rd.0 > 0 && T > 0
    ensures var t1 := Table(Inherited(t.vs, u, T), t.vqs);
            && I.Follows(g, ms) && I.Idle(ms)
            && Holds(Woke(t1, u, rd).vs[v], since, I.Moved(g, ms),
                     if e0 != 0 then e0 else if u == v then rd.0 else 0, z)
            && Woke(t1, u, rd).vs[v].pcpu == t.vs[v].pcpu
  {
    hide Holds, Woke, I.Follows, I.Moved, I.Step, I.Allowed;
    HoldsFacts(t.vs[v], since, g, e0, a);
    var t1 := Table(Inherited(t.vs, u, T), t.vqs);
    if t1.vs[v] == t.vs[v] {
      ms := WokeHolds(t1, u, v, since, g, e0, a, rd, z);
    } else {
      InheritHolds(t.vs[v], since, g, e0, T, a);
      I.FollowsOne(g, I.Inherit(T));
      var rest := WokeHolds(t1, u, v, since, I.Step(g, I.Inherit(T)), e0, a, rd, z);
      ms := [I.Inherit(T)] + rest;
      I.FollowsAppend(g, [I.Inherit(T)], rest);
    }
  }

  /** Every operation of the scheduler makes on the ledger of v only moves that
      it allows, the slice that ended being one of them, and charges it as the
      end of that slice does. */
  lemma {:induction false} StepHolds(s: State, o: Op, s': State, v: nat, g: I.Ledger, e0: nat, a: nat, z: nat)
    returns (ms: seq<I.Move>)
    requires Stepped(s, o, s') && v < |s.vs| == |s'.vs| && Timed(a, s, o, z) && a > 0
    requires Holds(s.vs[v], Since(s, v), g, e0, a)
    ensures I.Follows(g, ms) && IoMovesOf(s, o, v, ms) && s'.vs[v].pcpu == s.vs[v].pcpu
    ensures I.Moved(g, ms).served == g.served + Charged(s, o, v)
    ensures I.Moved(g, ms).charges == g.charges + if ChargedBy(s, o, v) then 1 else 0
    ensures Holds(s'.vs[v], Since(s', v), I.Moved(g, ms), if e0 != 0 then e0 else WokenAt(s, o, s', v), z)
  {
    hide Ok, Holds, Scheduled, CanSchedule, Woke, WokeAll, NextMain, Examined, WaitQueues.Drained, OneByOne, Due,
      FirstOf, I.Follows, I.Moved, Rehomed, Inherited, I.Charges;
    FollowsNone(g);
    match o
    case Schedule(p, _, _, _, _, _, at, _, _) =>
      if s.vs[v].pcpu == p {
        ms := ScheduleHolds(s, o, s', v, g, e0, a, z);
      } else {
        ScheduledElsewhere(s, o, s', v);
        NotCharged(s, o, v);
        ms := [];
        HoldsLater(s.vs[v], Since(s, v), g, e0, a, z);
      }
    case Wakeup(x, rd) =>
      ms := WokeHolds(Table(s.vs, s.vqs), s'.cpu[x], v, Since(s, v), g, e0, a, rd, z);
      I.IdleFree(g, ms);
    case Usleep(x, finish) =>
      ms := [];
      HoldsLater(s.vs[v], Since(s, v), g, e0, a, z);
    case Sleepers(now, rd) =>
      ms := PassHolds(Table(s.vs, s.vqs), Due(s.qs[|s.vs|], s.time, now), s'.cpu, rd, v, Since(s, v), g, e0, a, z);
      I.IdleFree(g, ms);
    case Wakeups(k, rd) =>
      ms := PassHolds(Table(s.vs, s.vqs), s.qs[k], s'.cpu, rd, v, Since(s, v), g, e0, a, z);
      I.IdleFree(g, ms);
    case Rebind(x, u) =>
      ms := [];
      HoldsLater(s.vs[v], Since(s, v), g, e0, a, z);
    case JobWakeup(x, T, rd) =>
      ms := JobHolds(Table(s.vs, s.vqs), s.cpu[x], T, v, Since(s, v), g, e0, a, rd, z);
      I.IdleFree(g, ms);
  }

  // ----- every run

  lemma {:induction false} ClockRuns(rows: seq<State>, os: seq<Op>, clock: seq<nat>, n: nat)
    requires Clocked(rows, os, clock) && n < |clock|
    ensures clock[0] <= clock[n]
    decreases n
  {
    if n > 0 {
      ClockRuns(rows, os, clock, n - 1);
      ClockStep(rows, os, clock, n - 1);
      hide OneByOne, Due;
    }
  }

  lemma {:induction false} RunHolds(rows: seq<State>, os: seq<Op>, clock: seq<nat>, v: nat, g0: I.Ledger, n: nat)
    returns (ms: seq<I.Move>)
    requires IsRun(rows, os) && |rows| == |clock| == |os| + 1 && Clocked(rows, os, clock) && n <= |os|
    requires v < |rows[0].vs| && clock[0] > 0 && Holds(rows[0].vs[v], Since(rows[0], v), g0, 0, clock[0])
    ensures v < |rows[n].vs| && I.Follows(g0, ms)
    ensures I.Moved(g0, ms).served == g0.served + Charges(rows, os, v, n)
    ensures I.Moved(g0, ms).charges == g0.charges + ChargeCount(rows, os, v, n)
    ensures Holds(rows[n].vs[v], Since(rows[n], v), I.Moved(g0, ms), FirstWake(rows, os, v, n), clock[n])
    ensures FirstWake(rows, os, v, n) == 0 || clock[0] <= FirstWake(rows, os, v, n)
    decreases n
  {
    hide Ok, Holds, Ends, ChargedBy, IsRun, Clocked, Stepped, Timed, WokenAt, I.Follows, I.Moved;
    if n == 0 {
      ms := [];
      FollowsNone(g0);
    } else {
      var front := RunHolds(rows, os, clock, v, g0, n - 1);
      RunStep(rows, os, n - 1);
      ClockStep(rows, os, clock, n - 1);
      ClockRuns(rows, os, clock, n - 1);
      SameSize(rows, os, n);
      SameSize(rows, os, n - 1);
      var g1, e1 := I.Moved(g0, front), FirstWake(rows, os, v, n - 1);
      WokenInTime(rows[n - 1], os[n - 1], rows[n], v, clock[n - 1], clock[n]);
      var last := StepHolds(rows[n - 1], os[n - 1], rows[n], v, g1, e1, clock[n - 1], clock[n]);
      ms := front + last;
      I.FollowsAppend(g0, front, last);
    }
  }

  ghost predicate FreshIo(w: V, C: nat, T: nat) {
    && w.server.Io? && I.Unused(w.server.io) && w.server.io.Unum == C && w.server.io.Uden == T
    && !w.runnable && !w.running
  }

  /** Over every run of the scheduler the time charged to an I/O VCPU with
      utilisation C/T, but for usage not yet pushed onto its eligibility time, is
      at most C/T of the eligibility time elapsed since its first wakeup, plus a
      tick for each charge; and when budget is next granted, at t, all of it is
      at most that much of the real time. */
  lemma {:induction false} BandwidthHeld(rows: seq<State>, os: seq<Op>, clock: seq<nat>, v: nat, C: nat, T: nat,
                                         n: nat, t: nat)
    requires IsRun(rows, os) && |rows| == |clock| == |os| + 1 && Clocked(rows, os, clock) && n <= |os|
    requires v < |rows[0].vs| && FreshIo(rows[0].vs[v], C, T) && 0 < clock[0] && clock[n] <= t
    ensures v < |rows[n].vs| && rows[n].vs[v].server.Io?
    ensures var e0, io := FirstWake(rows, os, v, n), rows[n].vs[v].server.io;
            var used, c := Charges(rows, os, v, n), ChargeCount(rows, os, v, n);
            && (e0 == 0 ==> used == 0)
            && (e0 != 0 ==>
                  && clock[0] <= e0 <= io.e && io.usage <= used
                  && I.Bounded(C, T, used - io.usage, io.e - e0, c)
                  && (I.Update(io, t) != io ==> e0 <= t && I.Bounded(C, T, used, t - e0, c)))
  {
    hide IsRun, Clocked, Charges, ChargeCount, FirstWake, I.Bounded, I.Update, FreshIo, I.Follows, I.Moved, Holds,
      I.Sound;
    var g0 := StartHolds(rows, os, v, C, T, clock[0]);
    var ms := RunHolds(rows, os, clock, v, g0, n);
    var g, e0 := I.Moved(g0, ms), FirstWake(rows, os, v, n);
    HoldsFacts(rows[n].vs[v], Since(rows[n], v), g, e0, clock[n]);
    I.SameFraction(g0, ms);
    if e0 != 0 { LedgerBound(g, e0, t); }
  }

  lemma {:induction false} StartHolds(rows: seq<State>, os: seq<Op>, v: nat, C: nat, T: nat, now: nat)
    returns (g: I.Ledger)
    requires IsRun(rows, os) && rows != [] && v < |rows[0].vs| && FreshIo(rows[0].vs[v], C, T)
    ensures Holds(rows[0].vs[v], Since(rows[0], v), g, 0, now)
    ensures g.served == 0 && g.charges == 0 && g.v.Unum == C && g.v.Uden == T
  {
    hide Ok, Stepped, Sound;
    OkSound(rows[0], v);
    g := I.Ledger(rows[0].vs[v].server.io, 0, 0, 0, true);
  }

  lemma {:induction false} LedgerBound(g: I.Ledger, e0: nat, t: nat)
    requires I.Sound(g, e0) && g.now <= t
    ensures g.v.usage <= g.served && e0 <= g.v.e
    ensures I.Bounded(g.v.Unum, g.v.Uden, g.served - g.v.usage, g.v.e - e0, g.charges)
    ensures I.Update(g.v, t) != g.v ==> e0 <= t && I.Bounded(g.v.Unum, g.v.Uden, g.served, t - e0, g.charges)
  {
    assert I.IsRun([g], [], e0);
    I.BandwidthBound([g], [], e0, 0, t);
  }
}
