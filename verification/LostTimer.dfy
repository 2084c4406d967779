/** A run from boot after which the timer is set to a whole quantum although the
    VCPU that is picked has three ticks of budget. */
module LostTimer {
  import opened Links
  import opened TaskQueues
  import opened VcpuHooks
  import opened WaitQueues
  import opened SchedModel
  import opened Homes
  import opened SchedRun
  import opened TimerRun
  import opened SupplyRun
  import S = SporadicServer
  import I = IoServer

  // ----- two VCPUs of period 10 on one processor

  /** MAIN VCPU 0 has a budget of 8, of which `used` is used, since time t. */
  function MainServer(t: nat, used: nat): S.Server { S.Server(8, 10, [S.Repl(t, 8)], used) }

  /** I/O VCPU 1 has half of the processor. */
  function IoServer(b: nat, e: nat, rt: nat, rb: nat, budgeted: bool): I.Io {
    I.Io(10, b, 0, e, rt, rb, 1, 2, budgeted)
  }

  function MainV(t: nat, used: nat, b: nat, runnable: bool, running: bool, tr: int, next: nat, vtsc: nat, prev: nat):
    V
  {
    V(Main(MainServer(t, used), b), 0, runnable, running, tr, 10, next, vtsc, prev)
  }

  function IoV(io: I.Io, runnable: bool, running: bool, tr: int, next: nat, vtsc: nat, prev: nat): V {
    V(Io(io), 0, runnable, running, tr, 10, next, vtsc, prev)
  }

  /** One processor with current VCPU c and queue vq, three tasks, and the
      runqueues q0 and q1. */
  function Row(m: V, w: V, c: int, tprev: nat, vq: seq<int>, q0: seq<int>, q1: seq<int>, cpu: seq<int>, home: seq<int>):
    State
  {
    State([m, w], [c], [tprev], [vq], [q0, q1, []], cpu, home, [0, 0, 0, 0], 1)
  }

  ghost predicate Fits(w: V, v: int, c: int, vq: seq<int>, q: seq<int>, home: seq<int>) {
    && w.pcpu == 0 && Sound(w.server) && (w.nextSched != 0 ==> w.tr != 0)
    && (w.runnable <==> v in vq) && (w.runnable <==> q != []) && (w.running <==> c == v)
    && AllHome(home, q, v) && Home(home, w, v) && Distinct(q)
  }

  lemma {:induction false} RowOk(m: V, w: V, c: int, tprev: nat, vq: seq<int>, q0: seq<int>, q1: seq<int>,
                                 cpu: seq<int>, home: seq<int>)
    requires Fits(m, 0, c, vq, q0, home) && Fits(w, 1, c, vq, q1, home) && m.server.Main?
    requires |cpu| == |home| == 4 && c in [NULL, 0, 1] && forall i :: 0 <= i < |vq| ==> 0 <= vq[i] < 2
    requires forall x :: x in q0 ==> x !in q1
    ensures Ok(Row(m, w, c, tprev, vq, q0, q1, cpu, home))
  {
    hide Sound, Distinct;
    var s := Row(m, w, c, tprev, vq, q0, q1, cpu, home);
    assert Distinct([]) by { DistinctNone(); }
    assert HasMain(s.vs) by { assert s.vs[0].server.Main?; }
    assert SoundAll(s.vs) && OnProcessor(s.vs, vq, 0);
    assert QueueHomes(home, 2, s.qs) && TaskHomes(home, s.vs);
    assert RunFlags(s.vs, s.vqs, s.qs) && CurFlags(s.vs, s.current);
    assert Separate(s.qs);
  }

  lemma DistinctNone()
    ensures Distinct([])
  {
  }

  lemma DistinctFew(x: int, y: int)
    requires x != y
    ensures Distinct([x]) && Distinct([x, y])
  {
  }

  lemma MainSound(t: nat, used: nat, b: nat)
    requires t > 0 && used < 8
    ensures Sound(Main(MainServer(t, used), b))
  {
    var s := MainServer(t, used);
    assert s.q[1..] == [] && S.Sum(s.q) == 8 && S.Inv(s);
  }

  // ----- the run

  /** Bound to no VCPU. */
  const NO := UNBOUND

  function Op3(): Op { Op.Schedule(0, 90, 90, 90, 90, 90, [90, 90], [90, 90], 90) }
  function Op7(): Op { Op.Schedule(0, 95, 95, 95, 95, 95, [95, 95], [95, 95], 95) }
  function Op8(): Op { Op.Schedule(0, 100, 100, 100, 100, 100, [100, 100], [100, 100], 100) }

  function Idle0(): V { MainV(1, 0, 0, false, false, 0, 0, 0, 0) }
  function Awake0(): V { MainV(91, 0, 8, true, false, 0, 0, 0, 0) }
  function Unused1(): V { IoV(IoServer(5, 0, 0, 0, false), false, false, 0, 0, 0, 0) }
  function Granted1(): I.Io { IoServer(5, 90, 0, 5, true) }
  function Running1(): V { IoV(Granted1(), false, true, 2, 10, 0, 90) }
  function Charged1(): I.Io { IoServer(0, 100, 100, 5, true) }

  /** After k operations. */
  function At0(): State { Row(Idle0(), Unused1(), NULL, 0, [], [], [], [NO, NO, NO, NO], [NO, NO, NO, NO]) }
  function At1(): State { Row(Idle0(), Unused1(), NULL, 0, [], [], [], [NO, NO, 1, NO], [NO, NO, NO, NO]) }
  function At2(): State {
    Row(Idle0(), IoV(Granted1(), true, false, 0, 0, 0, 0), NULL, 0, [1], [], [2], [NO, NO, 1, NO], [NO, NO, 1, NO])
  }
  function At3(): State { Row(Idle0(), Running1(), 1, 90, [], [], [], [NO, NO, 1, NO], [NO, NO, 1, NO]) }
  function At4(): State { Row(Awake0(), Running1(), 1, 90, [0], [1], [], [NO, 0, 1, NO], [NO, 0, 1, NO]) }
  function At5(): State { Row(Awake0(), Running1(), 1, 90, [0], [1, 3], [], [NO, 0, 1, 0], [NO, 0, 1, 0]) }
  function At6(): State {
    Row(Awake0(), Running1().(runnable := true), 1, 90, [0, 1], [1, 3], [2], [NO, 0, 1, 0], [NO, 0, 1, 0])
  }
  function At7(): State {
    Row(MainV(91, 0, 8, true, true, 1, 10, 0, 95), IoV(Charged1(), true, false, 2, 10, 5, 90), 0, 95, [0, 1], [3], [2],
        [NO, 0, 1, 0], [NO, 0, 1, 0])
  }
  function At8(): State {
    Row(MainV(91, 5, 3, false, true, 3, 15, 5, 100), IoV(Charged1(), true, false, 2, 10, 5, 90), 0, 100, [1], [], [2],
        [NO, 0, 1, 0], [NO, 0, 1, 0])
  }

  lemma Ok01()
    ensures Ok(At0()) && Ok(At1())
  {
    MainSound(1, 0, 0);
    DistinctNone();
    RowOk(Idle0(), Unused1(), NULL, 0, [], [], [], [NO, NO, NO, NO], [NO, NO, NO, NO]);
    RowOk(Idle0(), Unused1(), NULL, 0, [], [], [], [NO, NO, 1, NO], [NO, NO, NO, NO]);
  }

  lemma Ok23()
    ensures Ok(At2()) && Ok(At3())
  {
    MainSound(1, 0, 0);
    DistinctNone();
    DistinctFew(2, 3);
    RowOk(Idle0(), IoV(Granted1(), true, false, 0, 0, 0, 0), NULL, 0, [1], [], [2], [NO, NO, 1, NO], [NO, NO, 1, NO]);
    RowOk(Idle0(), Running1(), 1, 90, [], [], [], [NO, NO, 1, NO], [NO, NO, 1, NO]);
  }

  lemma Ok456()
    ensures Ok(At4()) && Ok(At5()) && Ok(At6())
  {
    MainSound(91, 0, 8);
    DistinctNone();
    DistinctFew(1, 3);
    DistinctFew(2, 3);
    RowOk(Awake0(), Running1(), 1, 90, [0], [1], [], [NO, 0, 1, NO], [NO, 0, 1, NO]);
    RowOk(Awake0(), Running1(), 1, 90, [0], [1, 3], [], [NO, 0, 1, 0], [NO, 0, 1, 0]);
    RowOk(Awake0(), Running1().(runnable := true), 1, 90, [0, 1], [1, 3], [2], [NO, 0, 1, 0], [NO, 0, 1, 0]);
  }

  lemma Ok78()
    ensures Ok(At7()) && Ok(At8())
  {
    MainSound(91, 0, 8);
    MainSound(91, 5, 3);
    DistinctNone();
    DistinctFew(2, 3);
    DistinctFew(3, 2);
    RowOk(MainV(91, 0, 8, true, true, 1, 10, 0, 95), IoV(Charged1(), true, false, 2, 10, 5, 90), 0, 95, [0, 1], [3],
          [2], [NO, 0, 1, 0], [NO, 0, 1, 0]);
    RowOk(MainV(91, 5, 3, false, true, 3, 15, 5, 100), IoV(Charged1(), true, false, 2, 10, 5, 90), 0, 100, [1], [],
          [2], [NO, 0, 1, 0], [NO, 0, 1, 0]);
  }

  lemma Step1()
    ensures Stepped(At0(), Rebind(2, 1), At1())
  {
    Ok01();
    hide Ok;
  }

  lemma Step2()
    ensures Stepped(At1(), Wakeup(2, (90, 90, 90)), At2())
  {
    Ok01();
    Ok23();
    hide Ok;
    var s, s', rd := At1(), At2(), (90, 90, 90);
    var w := IoV(Granted1(), true, false, 0, 0, 0, 0);
    assert Woken(s.vs[1], 90, 90, 90) == Io(Granted1());
    assert Sound(s.vs[1].server);
    WokeIs(Table(s.vs, s.vqs), 1, rd);
    hide Woke, Woken;
    assert s.vs[1 := w] == s'.vs;
    assert s.vqs[0] + [1] == [1] && Joined(s.vqs, 0, 1) == s'.vqs;
    assert s.cpu[2 := 1] == s'.cpu && s.home[2 := 1] == s'.home;
    assert s.qs[1 := [2]] == s'.qs && s.qs[1] + [2] == [2];
    Wakens(s, s', 2, rd, 1);
  }

  /** Unbound tasks go to VCPU 0, the next MAIN VCPU from number 1 on. */
  lemma FromOne(vs: seq<V>)
    requires |vs| == 2 && vs[0].server.Main? && vs[1].server.Io?
    ensures NextMain(vs, 1, 0) && SchedModel.Next(0, 2) == 1
  {
    assert NoMainBefore(vs, 1, 1) by {
      forall i: nat | i < 1 ensures !vs[Turn(1, i, 2)].server.Main? { assert Turn(1, 0, 2) == 1; }
    }
    assert Turn(1, 0, 2) == 1 && Turn(1, 1, 2) == 0;
    assert vs[Turn(1, 1, |vs|)].server.Main?;
  }

  lemma MainWoken()
    ensures Sound(Idle0().server) && Woken(Idle0(), 91, 91, 91) == Awake0().server
  {
    MainSound(1, 0, 0);
    var q := [S.Repl(1, 8)];
    assert [S.Repl(91, 8)] + q[1..] == [S.Repl(91, 8)];
    assert S.Coalesce([S.Repl(91, 8)], 0, 91) == [S.Repl(91, 8)];
    hide Sound;
  }

  lemma MainRefreshed()
    ensures Sound(Awake0().server) && Woken(Awake0(), 91, 91, 91) == Awake0().server
  {
    MainSound(91, 0, 8);
    hide Sound;
  }

  lemma Step4()
    ensures Stepped(At3(), Wakeup(1, (91, 91, 91)), At4())
  {
    hide Ok, Woke, Woken, Sound, NextMain;
    Ok23();
    Ok456();
    MainWoken();
    var s, s', rd := At3(), At4(), (91, 91, 91);
    FromOne(s.vs);
    WokeIs(Table(s.vs, s.vqs), 0, rd);
    assert s.vs[0 := Awake0()] == s'.vs;
    assert s.vqs[0] + [0] == [0] && Joined(s.vqs, 0, 0) == s'.vqs;
    assert s.cpu[1 := 0] == s'.cpu && s.home[1 := 0] == s'.home;
    assert s.qs[0 := [1]] == s'.qs && s.qs[0] + [1] == [1];
    Wakens(s, s', 1, rd, 0);
  }

  lemma Step5()
    ensures Stepped(At4(), Wakeup(3, (91, 91, 91)), At5())
  {
    hide Ok, Woke, Woken, Sound, NextMain;
    Ok456();
    MainRefreshed();
    var s, s', rd := At4(), At5(), (91, 91, 91);
    FromOne(s.vs);
    WokeIs(Table(s.vs, s.vqs), 0, rd);
    assert s.vs[0 := Awake0()] == s'.vs && 0 in s.vqs[0] && Joined(s.vqs, 0, 0) == s'.vqs;
    assert s.cpu[3 := 0] == s'.cpu && s.home[3 := 0] == s'.home;
    assert s.qs[0 := [1, 3]] == s'.qs && s.qs[0] + [3] == [1, 3];
    Wakens(s, s', 3, rd, 0);
  }

  lemma Step6()
    ensures Stepped(At5(), Wakeup(2, (92, 92, 92)), At6())
  {
    Ok456();
    hide Ok;
    var s, s', rd := At5(), At6(), (92, 92, 92);
    assert Woken(s.vs[1], 92, 92, 92) == Io(Granted1());
    assert Sound(s.vs[1].server);
    WokeIs(Table(s.vs, s.vqs), 1, rd);
    hide Woke, Woken;
    assert s.vs[1 := Running1().(runnable := true)] == s'.vs;
    assert s.vqs[0] + [1] == [0, 1] && Joined(s.vqs, 0, 1) == s'.vqs;
    assert s.cpu[2 := 1] == s'.cpu && s.home[2 := 1] == s'.home;
    assert s.qs[1 := [2]] == s'.qs && s.qs[1] + [2] == [2];
    Wakens(s, s', 2, rd, 1);
  }

  lemma Step3()
    ensures Stepped(At2(), Op3(), At3())
  {
    Ok23();
    hide Ok;
    var s, o, s' := At2(), Op3(), At3();
    var q, at := [1], [90, 90];
    assert s.vqs[0] == q && InRange(s.vs, q);
    assert Ended(s.vs, NULL, 90, 90, 90, 90, 90) == s.vs;
    assert CanSchedule(s, o) && Budgeted(s, o) == s.vs;
    ScanOne(s.vs, at, 90, 1);
    var plan := [Idle0(), IoV(Granted1(), false, false, 2, 10, 0, 0)];
    assert Without([2], 2) == [];
    assert Scanned(s.vs, at, 90, q, 1) == s.vs;
    assert Planned(s.vs, at, 90, q, s.qs) == plan;
    assert QueueAfter(s.vs, at, 90, q, s.qs) == [] by { assert Omit(q, 0) == []; }
    assert s.qs[1 := []] == s'.qs;
    assert TookTask(s.vs[1], 2, 1, s.qs, s'.qs);
    assert Pick(s, o) == 1;
    hide Planned, QueueAfter, Choice, Scan, Scanned, TookTask;
    assert Switched(plan, NULL, 1, 90) == s'.vs;
    assert s.current[0 := 1] == s'.current && s.tprev[0 := 90] == s'.tprev && s.vqs[0 := []] == s'.vqs;
    Schedules(s, o, s', s.vs, plan, 1);
  }

  /** VCPU 1 has used its budget of 5 and is next due at 100. */
  lemma IoCharged()
    ensures Sound(Io(Granted1())) && EndSlice(Io(Granted1()), 5, true, 95, 95, 95) == Io(Charged1())
  {
    assert I.Stretch(5, 1, 2) == 10 && I.Share(10, 1, 2) == 5;
  }

  lemma Step7()
    ensures Stepped(At6(), Op7(), At7())
  {
    hide Ok, Sound, EndSlice, Refresh, Scan, Scanned, Planned, QueueAfter, Choice, TookTask, Wrap;
    Ok456();
    Ok78();
    IoCharged();
    var s, o, s' := At6(), Op7(), At7();
    var mid := [Awake0(), IoV(Charged1(), true, true, 2, 10, 5, 90)];
    assert s.vs[1].prevTsc == 90 && Wrap(5) == 5 by { WrapSmall(5); }
    assert Ended(s.vs, 1, 5, 95, 95, 95, 95) == mid;
    assert CanSchedule(s, o) && Budgeted(s, o) == mid;
    assert Refresh(Awake0().server, 95, 95) == Awake0().server by { MainFresh(0, 95); }
    ScanTwo(mid, [95, 95], 95, s.qs);
    var plan := [MainV(91, 0, 8, true, false, 1, 10, 0, 0), mid[1]];
    assert [1, 3][1..] == [3] && Without([1, 3], 1) == [3];
    assert Planned(mid, [95, 95], 95, [0, 1], s.qs) == plan;
    assert s.qs[0 := [3]] == s'.qs;
    assert TookTask(mid[0], 1, 0, s.qs, s'.qs) by { TookFirst(mid[0], [1, 3], [2]); }
    assert Switched(plan, 1, 0, 95) == s'.vs;
    assert s.current[0 := 0] == s'.current && s.tprev[0 := 95] == s'.tprev && s.vqs[0 := [0, 1]] == s'.vqs;
    Schedules(s, o, s', mid, plan, 0);
  }

  lemma WrapSmall(d: nat)
    requires d < TWO64
    ensures Wrap(d) == d
  {
  }

  lemma MainFresh(used: nat, now: nat)
    requires used < 8 && now >= 91
    ensures forall b: nat :: Refresh(Main(MainServer(91, used), b), now, now) == Main(MainServer(91, used), 8 - used)
  {
  }

  /** VCPU 0 is picked; VCPU 1, of the same period, is not looked at. */
  lemma {:induction false} ScanTwo(vs: seq<V>, at: seq<nat>, tcur: nat, qs: seq<seq<int>>)
    requires |vs| == |at| == 2 && Period(vs[0].server) == Period(vs[1].server) > 0
    requires Fresh(vs, at, tcur, 0) == vs[0].server && Budget(vs[0].server) > 0 && |qs| == 3 && qs[0] != []
    ensures var q := [0, 1];
            && Scan(vs, at, tcur, q, 2) == (Period(vs[0].server), 0) && Choice(vs, at, tcur, q) == 0
            && Planned(vs, at, tcur, q, qs) == vs[0 := Running(vs[0], qs[0])]
            && QueueAfter(vs, at, tcur, q, qs) == if Without(qs[0], NextTask(vs[0], qs[0])) == [] then [1] else q
  {
    hide Fresh, Period, Budget, Running, NextTask;
    var q := [0, 1];
    assert Scan(vs, at, tcur, q, 1) == (Period(vs[0].server), 0);
    assert vs[0 := vs[0].(server := Fresh(vs, at, tcur, 0))] == vs;
    assert Scanned(vs, at, tcur, q, 1) == vs;
    assert Scanned(vs, at, tcur, q, 2) == vs;
    assert Omit(q, 0) == [1];
  }

  lemma TookFirst(w: V, q0: seq<int>, q1: seq<int>)
    requires q0 != [] && q0[0] != 0 && !InQuantum(w, q0)
    ensures var qs := [q0, q1, []]; TookTask(w, q0[0], 0, qs, qs[0 := q0[1..]])
  {
    assert Without(q0, q0[0]) == q0[1..];
  }

  lemma ScanOne(vs: seq<V>, at: seq<nat>, tcur: nat, v: int)
    requires |at| == |vs| && 0 <= v < |vs| && Budget(Fresh(vs, at, tcur, v)) > 0
    ensures Scan(vs, at, tcur, [v], 1) == (Period(vs[v].server), 0)
    ensures Scanned(vs, at, tcur, [v], 1) == vs[v := vs[v].(server := Fresh(vs, at, tcur, v))]
  {
    hide Fresh, Period, Budget;
  }

  lemma MainServed()
    ensures Sound(Main(MainServer(91, 0), 8))
    ensures EndSlice(Main(MainServer(91, 0), 8), 5, true, 100, 100, 100) == Main(MainServer(91, 5), 3)
  {
    MainSound(91, 0, 8);
    var s := MainServer(91, 5);
    assert s.q[1..] == [] && S.Exhaust(s.q, 5, 10) == (s.q, 5);
    assert S.BudgetCheck(s, 100) == s;
    hide Sound;
  }

  lemma Step8()
    ensures Stepped(At7(), Op8(), At8())
  {
    hide Ok, Sound, EndSlice, Refresh, Scan, Scanned, Planned, QueueAfter, Choice, TookTask, Wrap;
    Ok78();
    MainServed();
    var s, o, s' := At7(), Op8(), At8();
    var mid := [MainV(91, 5, 3, true, true, 1, 10, 5, 95), s.vs[1]];
    assert s.vs[0].prevTsc == 95 && Wrap(5) == 5 by { WrapSmall(5); }
    assert Ended(s.vs, 0, 5, 100, 100, 100, 100) == mid;
    assert CanSchedule(s, o) && Budgeted(s, o) == mid;
    assert Refresh(mid[0].server, 100, 100) == mid[0].server by { MainFresh(5, 100); }
    ScanTwo(mid, [100, 100], 100, s.qs);
    var plan := [MainV(91, 5, 3, false, true, 3, 15, 5, 95), mid[1]];
    assert [3][1..] == [] && Without([3], 3) == [];
    assert Planned(mid, [100, 100], 100, [0, 1], s.qs) == plan;
    assert s.qs[0 := []] == s'.qs;
    assert TookTask(mid[0], 3, 0, s.qs, s'.qs) by { TookFirst(mid[0], [3], [2]); }
    assert Switched(plan, 0, 0, 100) == s'.vs;
    assert s.current[0 := 0] == s'.current && s.tprev[0 := 100] == s'.tprev && s.vqs[0 := [1]] == s'.vqs;
    Schedules(s, o, s', mid, plan, 0);
  }

  // ----- the result

  /** Task 2 is bound to VCPU 1, woken and run; tasks 1 and 3 are woken, and task
      2 again; VCPU 1 runs out of budget; VCPU 0 runs, and is scheduled again
      at the time when the budget of VCPU 1 is due. */
  function Rows(): seq<State> { [At0(), At1(), At2(), At3(), At4(), At5(), At6(), At7(), At8()] }

  function Ops(): seq<Op> {
    [Rebind(2, 1), Wakeup(2, (90, 90, 90)), Op3(), Wakeup(1, (91, 91, 91)), Wakeup(3, (91, 91, 91)),
     Wakeup(2, (92, 92, 92)), Op7(), Op8()]
  }

  function Clock(): seq<nat> { [80, 80, 90, 90, 91, 91, 92, 95, 100] }

  lemma RunsFromBoot()
    ensures IsRun(Rows(), Ops())
  {
    hide Ok, Stepped;
    Ok01();
    Step1();
    Step2();
    Step3();
    Step4();
    Step5();
    Step6();
    Step7();
    Step8();
    var rows, os := Rows(), Ops();
    forall n | 0 <= n < |os| ensures Stepped(rows[n], os[n], rows[n + 1]) {
      assert n == 0 || n == 1 || n == 2 || n == 3 || n == 4 || n == 5 || n == 6 || n == 7;
    }
  }

  lemma ClockRuns()
    ensures Clocked(Rows(), Ops(), Clock())
  {
    var rows, os, clock := Rows(), Ops(), Clock();
    hide OneByOne;
    forall n | 0 <= n < |os| ensures Timed(clock[n], rows[n], os[n], clock[n + 1]) {
      assert n == 0 || n == 1 || n == 2 || n == 3 || n == 4 || n == 5 || n == 6 || n == 7;
    }
  }

  /** The state that the constructor of the scheduler leaves. */
  function BootState(): State {
    State(Boot([Main(S.Init(8, 10, 1), 0), Io(I.Io(10, 5, 0, 0, 0, 0, 1, 2, false))], 1, 10), [NULL], [0], [[]],
          [[], [], []], [NO, NO, NO, NO], [NO, NO, NO, NO], [0, 0, 0, 0], 1)
  }

  lemma FromBoot()
    ensures At0() == BootState()
  {
    assert S.Init(8, 10, 1) == MainServer(1, 0);
  }

  /** A run from boot that ends with VCPU 0 picked with three ticks of budget and
      the timer set to a whole quantum, whatever that is. */
  lemma DueEventReached(bus: nat, tsc: nat, quantum: nat)
    requires tsc > 0 && quantum > 0
    ensures IsRun(Rows(), Ops()) && Clocked(Rows(), Ops(), Clock()) && Rows()[0] == BootState()
    ensures var s', o := Rows()[8], Ops()[7];
            && o.Schedule? && |o.ev| == |s'.vs| && s'.current == [0] && s'.vqs == [[1]] && InRange(s'.vs, s'.vqs[0])
            && BudgetOf(s'.vs, 0) == 3 && DueNow(s'.vs, o.tcur, PeriodOf(s'.vs, 0), 1)
            && Programmed(s', o, bus, tsc, quantum) == quantum
  {
    RunsFromBoot();
    ClockRuns();
    FromBoot();
    hide IsRun, Clocked, S.Init;
    var s', o := At8(), Op8();
    assert Readings(s'.vs, o.ev, o.tcur, [1]);
    hide Readings;
    DueEventErases(s'.vs, o.ev, o.tcur, 10, [1], 0, 3);
  }
}
