/** What the scheduler grants: over every run of the scheduler the hooks of one
    VCPU are called as its ledger assumes, so the bounds on the servers are
    bounds on the time the scheduler gives them. */
module SupplyRun {
  import opened VcpuHooks
  import opened Sleep
  import opened SchedModel
  import opened SchedRun
  import opened Homes
  import WaitQueues
  import M = ServerSupply
  import S = SporadicServer

  // ----- the clock

  ghost predicate InOrder(a: nat, rd: Reading, b: nat) { a <= rd.0 <= rd.1 <= rd.2 <= b }

  /** The tasks xs are woken one after the other. */
  ghost predicate OneByOne(a: nat, xs: seq<int>, rd: seq<Reading>, b: nat) {
    && a <= b
    && (forall j :: 0 <= j < |xs| ==> InOrder(a, ReadingOf(rd, xs[j]), b))
    && (forall j, k :: 0 <= j < k < |xs| ==> ReadingOf(rd, xs[j]).2 <= ReadingOf(rd, xs[k]).0)
  }

  /** Operation o reads the clock in the order of the code, between a and b. */
  ghost predicate Timed(a: nat, s: State, o: Op, b: nat) {
    && a <= b
    && match o
       case Schedule(_, tcur, _, n0, n1, n2, at, _, _) =>
         a <= tcur <= n0 <= n1 <= n2 <= b && forall v :: 0 <= v < |at| ==> n2 <= at[v] <= b
       case Wakeup(_, rd) => InOrder(a, rd, b)
       case Usleep(_, _) => true
       case Sleepers(now, rd) => |s.vs| < |s.qs| && OneByOne(a, Due(s.qs[|s.vs|], s.time, now), rd, b)
       case Wakeups(k, rd) => k < |s.qs| && OneByOne(a, s.qs[k], rd, b)
       case Rebind(_, _) => true
       case JobWakeup(_, _, rd) => InOrder(a, rd, b)
  }

  ghost predicate Clocked(rows: seq<State>, os: seq<Op>, clock: seq<nat>) {
    && |rows| == |clock| == |os| + 1
    && forall n :: 0 <= n < |os| ==> Timed(clock[n], rows[n], os[n], clock[n + 1])
  }

  // ----- one VCPU through one operation

  /** Operation o ends a slice of VCPU v. */
  ghost predicate Ends(s: State, o: Op, v: nat) {
    && o.Schedule? && o.p < |s.current| == |s.tprev| && s.current[o.p] == v
    && s.tprev[o.p] <= o.tcur
  }

  /** The time that v is charged with by it. */
  ghost function Charged(s: State, o: Op, v: nat): nat {
    if Ends(s, o, v) then o.tcur - s.tprev[o.p] else 0
  }

  /** All the time that v is charged with by the first n operations of a run. */
  ghost function Charges(rows: seq<State>, os: seq<Op>, v: nat, n: nat): nat
    requires n <= |os| < |rows|
  {
    if n == 0 then 0 else Charges(rows, os, v, n - 1) + Charged(rows[n - 1], os[n - 1], v)
  }

  /** The last of the first n operations that scheduled processor p, -1 if none. */
  function LastPick(os: seq<Op>, p: nat, n: nat): (k: int)
    requires n <= |os|
    ensures -1 <= k < n && (k >= 0 ==> os[k].Schedule? && os[k].p == p)
  {
    if n == 0 then -1 else if os[n - 1].Schedule? && os[n - 1].p == p then n - 1 else LastPick(os, p, n - 1)
  }

  /** The clock reading with which it looked at the budget of v. */
  function PickReading(os: seq<Op>, p: nat, v: nat, n: nat): nat
    requires n <= |os|
  {
    var k := LastPick(os, p, n);
    if k >= 0 && v < |os[k].at| then os[k].at[v] else 0
  }

  /** What the slice of v that o ends overran by, at most: by what it exceeds the
      capacity found when v was picked, or by the time it took to read it. */
  ghost function Excess(s: State, o: Op, v: nat, at: nat): nat {
    if Ends(s, o, v) && v < |s.vs| && s.vs[v].server.Main?
    then M.Max(M.Max(0, Charged(s, o, v) - S.Capacity(s.vs[v].server.s, at)), at - s.tprev[o.p])
    else 0
  }

  ghost function Overruns(rows: seq<State>, os: seq<Op>, v: nat, n: nat): nat
    requires n <= |os| < |rows|
  {
    if n == 0 then 0
    else
      var o := os[n - 1];
      Overruns(rows, os, v, n - 1)
      + if o.Schedule? then Excess(rows[n - 1], o, v, PickReading(os, o.p, v, n - 1)) else 0
  }

  /** When the slice of v, if it is running, began. */
  function Since(s: State, v: nat): nat
    requires v < |s.vs|
  {
    if s.vs[v].pcpu < |s.tprev| then s.tprev[s.vs[v].pcpu] else 0
  }

  lemma {:induction false} StepSize(s: State, o: Op, s': State)
    requires Stepped(s, o, s')
    ensures |s'.vs| == |s.vs|
  {
    hide Ok, Woke, WokeAll, Examined, WaitQueues.Drained, NextMain, TookTask;
  }

  /** Scheduling another processor does not touch v. */
  lemma {:induction false} ScheduledElsewhere(s: State, o: Op, s': State, v: nat)
    requires Stepped(s, o, s') && o.Schedule? && v < |s.vs| == |s'.vs| && s.vs[v].pcpu != o.p
    ensures s'.vs[v] == s.vs[v] && Since(s', v) == Since(s, v)
  {
    var mid, q, c := Budgeted(s, o), s.vqs[o.p], Pick(s, o);
    assert OnProcessor(s.vs, q, o.p);
    assert v !in q;
    assert mid[v] == s.vs[v] by { hide Wrap, EndSlice, Flags, SoundAll; }
    hide Ok, TookTask, Running, EndSlice, Wrap;
    ScannedAt(mid, o.at, o.tcur, q, |q|, v);
    assert v !in q[..|q|];
    ChoiceRange(mid, o.at, o.tcur, q);
    hide Scanned, Scan;
  }

  /** The server of v once its timeslice, if it has one, has ended. */
  ghost function EndedServer(s: State, o: Op, v: nat): Server
    requires CanSchedule(s, o) && v < |s.vs| && Sound(s.vs[v].server)
  {
    var w := s.vs[v];
    if s.current[o.p] == v then EndSlice(w.server, o.tcur - s.tprev[o.p], w.runnable, o.n0, o.n1, o.n2) else w.server
  }

  lemma {:induction false} BudgetedAt(s: State, o: Op, v: nat)
    requires CanSchedule(s, o) && v < |s.vs|
    ensures Sound(s.vs[v].server) && SoundAll(Budgeted(s, o))
    ensures var w, w' := s.vs[v], Budgeted(s, o)[v];
            && w'.server == EndedServer(s, o, v) && w'.pcpu == w.pcpu
            && w'.runnable == w.runnable && w'.running == w.running
  {
    hide EndSlice, Wrap, Sound, SoundAll, Ok;
    CurrentSound(s, o.p);
    OkSound(s, v);
    EndedKeeps(s.vs, s.current[o.p], o.tcur - s.tprev[o.p], o.acct, o.n0, o.n1, o.n2);
  }

  lemma OkSound(s: State, v: nat)
    requires Ok(s) && v < |s.vs|
    ensures SoundAll(s.vs) && Sound(s.vs[v].server) && |s.tprev| == |s.current|
  {
    hide Sound, Flags, HasMain, QueueHomes, TaskHomes, Separate, OnProcessor;
  }

  /** What the pick and the others on the processor look like afterwards. */
  lemma {:induction false} PlannedAt(s: State, o: Op, v: nat)
    requires CanSchedule(s, o) && v < |s.vs| && s.vs[v].pcpu == o.p
    ensures Sound(s.vs[v].server)
    ensures var w, sv, c := s.vs[v], EndedServer(s, o, v), Pick(s, o);
            var w' := Planned(Budgeted(s, o), o.at, o.tcur, s.vqs[o.p], s.qs)[v];
            && w'.pcpu == w.pcpu && (c != v ==> w'.runnable == w.runnable && w'.running == w.running)
            && (c == v ==> w.runnable && w'.server == Refresh(sv, o.tcur, o.at[v]) && Budget(w'.server) > 0)
            && (c != v ==> w'.server == sv || (w.runnable && w'.server == Refresh(sv, o.tcur, o.at[v])))
  {
    BudgetedAt(s, o, v);
    var mid, q, c := Budgeted(s, o), s.vqs[o.p], Pick(s, o);
    QueuedRuns(s, o.p, v);
    hide Ok, Flags, Sound, SoundAll, EndSlice, Refresh, Budget, Ended;
    ScannedAt(mid, o.at, o.tcur, q, |q|, v);
    assert q[..|q|] == q;
    if c == v { PickFresh(mid, o.at, o.tcur, q); }
    hide Scanned, Scan;
  }

  lemma QueuedRuns(s: State, p: nat, v: nat)
    requires Ok(s) && p < |s.vqs| && v < |s.vs| && s.vs[v].pcpu == p
    ensures v in s.vqs[p] <==> s.vs[v].runnable
  {
    hide Sound, SoundAll, QueueHomes, TaskHomes, Separate, HasMain;
  }

  lemma {:induction false} PickFresh(vs: seq<V>, at: seq<nat>, tcur: nat, q: seq<int>)
    requires |at| == |vs| && InRange(vs, q) && SoundAll(vs) && Choice(vs, at, tcur, q) != NULL
    ensures var c := Choice(vs, at, tcur, q);
            && c in q && 0 <= c < |vs| && Scanned(vs, at, tcur, q, |q|)[c].server == Fresh(vs, at, tcur, c)
            && Budget(Fresh(vs, at, tcur, c)) > 0
  {
    var (T, i) := Scan(vs, at, tcur, q, |q|);
    hide Sound, Budget, Refresh;
    ScanChooses(vs, at, tcur, q, Scanned(vs, at, tcur, q, |q|), T, i);
  }

  /** vcpu_schedule on the processor of v: if v is current its slice ends; it may
      be refreshed if it is queued; it runs next only if it is queued and the
      refresh found budget. */
  lemma {:induction false} ScheduledHere(s: State, o: Op, s': State, v: nat)
    requires Stepped(s, o, s') && o.Schedule? && v < |s.vs| == |s'.vs| && s.vs[v].pcpu == o.p
    ensures Sound(s.vs[v].server)
    ensures var w, w', sv := s.vs[v], s'.vs[v], EndedServer(s, o, v);
            && (w.running <==> s.current[o.p] == v) && w'.pcpu == o.p
            && Since(s, v) == s.tprev[o.p] && Since(s', v) == o.tcur
            && (w'.running ==> w.runnable && w'.server == Refresh(sv, o.tcur, o.at[v]) && Budget(w'.server) > 0)
            && (!w'.running ==> w'.runnable == w.runnable)
            && (!w'.running ==> w'.server == sv || (w.runnable && w'.server == Refresh(sv, o.tcur, o.at[v])))
  {
    PlannedAt(s, o, v);
    RunsHere(s, o.p, v);
    CurrentSound(s, o.p);
    var plan, cur, c := Planned(Budgeted(s, o), o.at, o.tcur, s.vqs[o.p], s.qs), s.current[o.p], Pick(s, o);
    hide Ok, Sound, Refresh, Budget, EndSlice, TookTask, Planned;
    SwitchedAt(plan, cur, c, o.begin, v);
    hide Switched;
  }

  lemma RunsHere(s: State, p: nat, v: nat)
    requires Ok(s) && p < |s.current| && v < |s.vs| && s.vs[v].pcpu == p
    ensures s.vs[v].running <==> s.current[p] == v
  {
    hide Sound, SoundAll, QueueHomes, TaskHomes, Separate, HasMain, RunFlags;
  }

  lemma SwitchedAt(vs: seq<V>, cur: int, c: int, begin: nat, v: nat)
    requires (cur == NULL || 0 <= cur < |vs|) && (c == NULL || 0 <= c < |vs|) && v < |vs|
    ensures var w := Switched(vs, cur, c, begin)[v];
            && w.server == vs[v].server && w.pcpu == vs[v].pcpu && w.runnable == vs[v].runnable
            && w.running == if c == v then true else if cur == v then false else vs[v].running
  {
  }

  // ----- the ledger of a MAIN VCPU

  /** A ledger and the reading that found capacity when v was last picked. */
  datatype Book = Book(g: M.Ledger, at: nat)

  /** The ledger says what VCPU w is: blocked iff neither runnable nor running,
      and while it runs, granted capacity. */
  ghost predicate Tracks(w: V, since: nat, b: Book, now: nat) {
    && w.server.Main? && M.Sound(b.g) && b.g.s == w.server.s && b.g.now <= now
    && (b.g.blocked <==> !w.runnable && !w.running)
    && (w.running ==> b.g.end <= since <= b.at <= now && b.g.now <= b.at && S.Capacity(b.g.s, b.at) > 0)
  }

  lemma {:induction false} FollowsAppend(g: M.Ledger, ms: seq<M.Move>, ms': seq<M.Move>)
    requires M.Sound(g) && M.Follows(g, ms) && M.Follows(M.Moved(g, ms), ms')
    ensures M.Follows(g, ms + ms') && M.Moved(g, ms + ms') == M.Moved(M.Moved(g, ms), ms')
    decreases |ms|
  {
    hide M.Sound, M.Granted, M.Move1;
    if ms == [] {
      assert ms + ms' == ms';
    } else {
      M.MoveSound(g, ms[0]);
      FollowsAppend(M.Move1(g, ms[0]), ms[1..], ms');
      assert (ms + ms')[0] == ms[0] && (ms + ms')[1..] == ms[1..] + ms';
    }
  }

  lemma FollowsOne(g: M.Ledger, m: M.Move)
    requires M.Sound(g) && M.Granted(g, m)
    ensures M.Sound(M.Move1(g, m)) && M.Follows(g, [m]) && M.Moved(g, [m]) == M.Move1(g, m)
  {
    M.MoveSound(g, m);
    assert [m][1..] == [];
    hide M.Sound, M.Granted, M.Move1;
    assert M.Follows(M.Move1(g, m), []);
  }

  ghost predicate Resumes(ms: seq<M.Move>) { forall i :: 0 <= i < |ms| ==> ms[i].Resume? }

  lemma {:induction false} ResumesFree(g: M.Ledger, ms: seq<M.Move>)
    requires M.Sound(g) && M.Follows(g, ms) && Resumes(ms)
    ensures M.Moved(g, ms).used == g.used && M.Moved(g, ms).over == g.over
    decreases |ms|
  {
    if ms != [] {
      M.MoveSound(g, ms[0]);
      ResumesFree(M.Move1(g, ms[0]), ms[1..]);
      hide S.UnblockCheck;
    }
  }

  /** A wakeup resumes v if it is blocked and changes nothing else of it. */
  lemma {:induction false} WakeTracks(w: V, since: nat, b: Book, a: nat, rd: Reading, z: nat) returns (ms: seq<M.Move>)
    requires Tracks(w, since, b, a) && InOrder(a, rd, z) && rd.1 > 0 && Sound(w.server)
    ensures M.Follows(b.g, ms) && Resumes(ms)
    ensures Tracks(w.(server := Woken(w, rd.0, rd.1, rd.2), runnable := true), since, b.(g := M.Moved(b.g, ms)), z)
  {
    if b.g.blocked {
      var m := M.Resume(rd.0, rd.1);
      FollowsOne(b.g, m);
      hide M.Sound, M.Follows, M.Moved;
      ms := [m];
    } else {
      ms := [];
    }
  }

  /** The slice that ends is a move that the ledger grants. */
  lemma {:induction false} EndTracks(w: V, since: nat, b: Book, a: nat, tcur: nat, n0: nat, n1: nat, n2: nat)
    requires Tracks(w, since, b, a) && w.running && a <= tcur <= n0 <= n1 && Sound(w.server)
    ensures since <= tcur
    ensures var m := M.Serve(since, b.at, tcur - since, w.runnable, n0, n1);
            && M.Granted(b.g, m) && M.Sound(M.Move1(b.g, m))
            && var g, sv := M.Move1(b.g, m), EndSlice(w.server, tcur - since, w.runnable, n0, n1, n2);
            && sv.Main? && g.s == sv.s && g.blocked == !w.runnable && g.now == n1 && g.end == tcur
            && g.used == b.g.used + (tcur - since)
            && g.over - b.g.over <= M.Max(M.Max(0, tcur - since - S.Capacity(w.server.s, b.at)), b.at - since)
  {
    hide M.Sound, M.Move1, S.EndTimeslice, S.Capacity, M.Due, Sound;
    var m := M.Serve(since, b.at, tcur - since, w.runnable, n0, n1);
    SoundHead(b.g);
    M.MoveSound(b.g, m);
    M.MoveFields(b.g, m);
    M.OverAtMost(b.g, m);
  }

  lemma SoundHead(g: M.Ledger)
    requires M.Sound(g)
    ensures g.s.q != [] && S.Inv(g.s)
  {
  }

  /** Refreshed and picked, or left as it is. */
  lemma NextTracks(w: V, w': V, g: M.Ledger, tcur: nat, at: nat, z: nat)
    requires M.Sound(g) && w.server.Main? && w.server.s == g.s && g.now <= at <= z && g.end <= tcur <= at
    requires g.blocked <==> !w.runnable
    requires w'.server == w.server || w'.server == Refresh(w.server, tcur, at)
    requires if w'.running then w.runnable && w'.server == Refresh(w.server, tcur, at) && Budget(w'.server) > 0
             else w'.runnable == w.runnable
    ensures Tracks(w', tcur, Book(g, at), z)
  {
    hide M.Sound;
  }

  /** What operation o does to the ledger of v: the slice that ended, which began
      when the processor was last scheduled and was granted by the reading `at`;
      or else wakeups only. */
  ghost predicate MovesOf(s: State, o: Op, v: nat, at: nat, ms: seq<M.Move>) {
    if Ends(s, o, v)
    then v < |s.vs| && ms == [M.Serve(s.tprev[o.p], at, Charged(s, o, v), s.vs[v].runnable, o.n0, o.n1)]
    else Resumes(ms)
  }

  /** Scheduling the processor of v ends its slice, if it has one, with a move
      that its ledger grants, and picks it only with capacity. */
  lemma {:induction false} ScheduleTracks(s: State, o: Op, s': State, v: nat, b: Book, a: nat, z: nat)
    returns (ms: seq<M.Move>)
    requires Stepped(s, o, s') && o.Schedule? && v < |s.vs| == |s'.vs| && s.vs[v].pcpu == o.p
    requires Timed(a, s, o, z) && Tracks(s.vs[v], Since(s, v), b, a)
    ensures |o.at| == |s.vs| && M.Follows(b.g, ms) && MovesOf(s, o, v, b.at, ms) && s'.vs[v].pcpu == s.vs[v].pcpu
    ensures M.Moved(b.g, ms).used == b.g.used + Charged(s, o, v)
    ensures M.Moved(b.g, ms).over <= b.g.over + Excess(s, o, v, b.at)
    ensures Tracks(s'.vs[v], Since(s', v), Book(M.Moved(b.g, ms), o.at[v]), z)
  {
    hide Stepped, Ok, Refresh, Budget, EndSlice, M.Sound, M.Move1, M.Granted, Sound, CanSchedule, M.Follows, M.Moved,
      Tracks, S.Capacity;
    CanFacts(s, o, s');
    ScheduledHere(s, o, s', v);
    TracksFacts(s.vs[v], Since(s, v), b, a);
    var w, w', since := s.vs[v], s'.vs[v], s.tprev[o.p];
    var sv := EndedServer(s, o, v);
    if w.running {
      var m := M.Serve(since, b.at, o.tcur - since, w.runnable, o.n0, o.n1);
      EndTracks(w, since, b, a, o.tcur, o.n0, o.n1, o.n2);
      FollowsOne(b.g, m);
      ms := [m];
      NextTracks(w.(server := sv), w', M.Move1(b.g, m), o.tcur, o.at[v], z);
    } else {
      ms := [];
      FollowsNone(b.g);
      NextTracks(w, w', b.g, o.tcur, o.at[v], z);
    }
  }

  lemma FollowsNone(g: M.Ledger)
    requires M.Sound(g)
    ensures M.Follows(g, []) && M.Moved(g, []) == g && g.end <= g.now
  {
  }

  lemma CanFacts(s: State, o: Op, s': State)
    requires Stepped(s, o, s') && o.Schedule?
    ensures CanSchedule(s, o) && o.p < |s.current| == |s.tprev| && |o.at| == |s.vs| && s.tprev[o.p] <= o.tcur
  {
    hide Flags, SoundAll, HasMain, QueueHomes, TaskHomes, Separate, OnProcessor, Scheduled;
  }

  lemma TracksFacts(w: V, since: nat, b: Book, now: nat)
    requires Tracks(w, since, b, now)
    ensures w.server.Main? && M.Sound(b.g) && b.g.s == w.server.s && b.g.now <= now
    ensures b.g.blocked <==> !w.runnable && !w.running
  {
  }

  lemma TracksLater(w: V, since: nat, b: Book, a: nat, z: nat)
    requires Tracks(w, since, b, a) && a <= z
    ensures Tracks(w, since, b, z)
  {
    hide M.Sound;
  }

  /** A wakeup of any VCPU u. */
  lemma {:induction false} WokeTracks(t: Table, u: int, v: nat, since: nat, b: Book, a: nat, rd: Reading, z: nat)
    returns (ms: seq<M.Move>)
    requires v < |t.vs| && Tracks(t.vs[v], since, b, a) && InOrder(a, rd, z) && rd.1 > 0
    ensures M.Follows(b.g, ms) && Resumes(ms)
    ensures Tracks(Woke(t, u, rd).vs[v], since, b.(g := M.Moved(b.g, ms)), z)
    ensures Woke(t, u, rd).vs[v].pcpu == t.vs[v].pcpu
  {
    hide Tracks, M.Sound, M.Follows, M.Moved, Woken;
    TracksFacts(t.vs[v], since, b, a);
    if u == v && Sound(t.vs[v].server) {
      ms := WakeTracks(t.vs[v], since, b, a, rd, z);
    } else {
      ms := [];
      FollowsNone(b.g);
      TracksLater(t.vs[v], since, b, a, z);
    }
  }

  lemma {:induction false} OneByOneFront(a: nat, xs: seq<int>, rd: seq<Reading>, z: nat)
    requires OneByOne(a, xs, rd, z) && xs != []
    ensures OneByOne(a, Front(xs), rd, ReadingOf(rd, Last(xs)).0)
    ensures InOrder(ReadingOf(rd, Last(xs)).0, ReadingOf(rd, Last(xs)), z)
  {
    var y := Last(xs);
    assert InOrder(a, ReadingOf(rd, y), z);
    forall j | 0 <= j < |Front(xs)| ensures InOrder(a, ReadingOf(rd, Front(xs)[j]), ReadingOf(rd, y).0) {
      assert InOrder(a, ReadingOf(rd, xs[j]), z);
      assert ReadingOf(rd, xs[j]).2 <= ReadingOf(rd, xs[|xs| - 1]).0;
    }
  }

  ghost predicate AllTicking(xs: seq<int>, rd: seq<Reading>) {
    forall j :: 0 <= j < |xs| ==> ReadingOf(rd, xs[j]).1 > 0
  }

  lemma {:induction false} PassTracks(t: Table, xs: seq<int>, cpu: seq<int>, rd: seq<Reading>,
                                      v: nat, since: nat, b: Book, a: nat, z: nat)
    returns (ms: seq<M.Move>)
    requires v < |t.vs| && Tracks(t.vs[v], since, b, a) && OneByOne(a, xs, rd, z) && AllTicking(xs, rd)
    ensures M.Follows(b.g, ms) && Resumes(ms)
    ensures Tracks(WokeAll(t, xs, cpu, rd).vs[v], since, b.(g := M.Moved(b.g, ms)), z)
    ensures WokeAll(t, xs, cpu, rd).vs[v].pcpu == t.vs[v].pcpu
    decreases |xs|
  {
    hide M.Sound, M.Follows, M.Moved, Tracks, Woke;
    TracksFacts(t.vs[v], since, b, a);
    if xs == [] {
      ms := [];
      FollowsNone(b.g);
      TracksLater(t.vs[v], since, b, a, z);
    } else {
      var y, r := Last(xs), ReadingOf(rd, Last(xs));
      assert AllTicking(Front(xs), rd);
      assert r.1 > 0;
      OneByOneFront(a, xs, rd, z);
      hide OneByOne, AllTicking, InOrder;
      var front := PassTracks(t, Front(xs), cpu, rd, v, since, b, a, r.0);
      var t1, b1 := WokeAll(t, Front(xs), cpu, rd), b.(g := M.Moved(b.g, front));
      var last := WokeTracks(t1, CpuOf(cpu, y), v, since, b1, r.0, r, z);
      ms := front + last;
      FollowsAppend(b.g, front, last);
    }
  }

  lemma TickingAll(xs: seq<int>, rd: seq<Reading>)
    requires Ticking(rd) && forall j :: 0 <= j < |xs| ==> 0 <= xs[j] < |rd|
    ensures AllTicking(xs, rd)
  {
  }

  /** The tasks that a pass wakes have readings. */
  lemma {:induction false} SleepersTick(s: State, now: nat, rd: seq<Reading>, s': State)
    requires Roused(s, now, rd, s')
    ensures AllTicking(Due(s.qs[|s.vs|], s.time, now), rd)
  {
    var q := s.qs[|s.vs|];
    var xs := Due(q, s.time, now);
    hide WokeAll, Bound, Asleep, WaitQueues.StillBound;
    forall j | 0 <= j < |xs| ensures 0 <= xs[j] < |rd| {
      assert xs[j] in xs;
      DueMember(q, s.time, now, xs[j]);
    }
    hide Due, Examined;
    TickingAll(xs, rd);
  }

  lemma {:induction false} WaitersTick(s: State, k: nat, rd: seq<Reading>, s': State)
    requires Emptied(s, k, rd, s')
    ensures AllTicking(s.qs[k], rd)
  {
    var xs := s.qs[k];
    assert xs[..|xs|] == xs;
    assert Housed(xs, s'.cpu, |s.vs|);
    hide WokeAll, Bound;
    TickingAll(xs, rd);
  }

  /** Every operation of the scheduler makes on the ledger of v only moves that
      it grants: the slice that ended, if there is one, and wakeups. */
  lemma {:induction false} StepTracks(s: State, o: Op, s': State, v: nat, b: Book, a: nat, z: nat)
    returns (ms: seq<M.Move>, b': Book)
    requires Stepped(s, o, s') && v < |s.vs| == |s'.vs| && Timed(a, s, o, z) && Tracks(s.vs[v], Since(s, v), b, a)
    ensures M.Follows(b.g, ms) && MovesOf(s, o, v, b.at, ms) && b'.g == M.Moved(b.g, ms)
    ensures if o.Schedule? && o.p == s.vs[v].pcpu then v < |o.at| && b'.at == o.at[v] else b'.at == b.at
    ensures b'.g.used == b.g.used + Charged(s, o, v) && b'.g.over <= b.g.over + Excess(s, o, v, b.at)
    ensures Tracks(s'.vs[v], Since(s', v), b', z) && s'.vs[v].pcpu == s.vs[v].pcpu
  {
    hide Ok, Tracks, M.Sound, M.Follows, M.Moved, Scheduled, CanSchedule, Woke, WokeAll, NextMain, Examined,
      WaitQueues.Drained, OneByOne, AllTicking, Due, S.Capacity, Rehomed, Inherited;
    TracksFacts(s.vs[v], Since(s, v), b, a);
    FollowsNone(b.g);
    match o
    case Schedule(p, _, _, _, _, _, at, _, _) =>
      if s.vs[v].pcpu == p {
        ms := ScheduleTracks(s, o, s', v, b, a, z);
        b' := Book(M.Moved(b.g, ms), at[v]);
      } else {
        ScheduledElsewhere(s, o, s', v);
        NotCharged(s, o, v);
        ms, b' := [], b;
        TracksLater(s.vs[v], Since(s, v), b, a, z);
      }
    case Wakeup(x, rd) =>
      ms := WokeTracks(Table(s.vs, s.vqs), s'.cpu[x], v, Since(s, v), b, a, rd, z);
      b' := b.(g := M.Moved(b.g, ms));
      ResumesFree(b.g, ms);
    case Usleep(x, finish) =>
      ms, b' := [], b;
      TracksLater(s.vs[v], Since(s, v), b, a, z);
    case Sleepers(now, rd) =>
      SleepersTick(s, now, rd, s');
      ms := PassTracks(Table(s.vs, s.vqs), Due(s.qs[|s.vs|], s.time, now), s'.cpu, rd, v, Since(s, v), b, a, z);
      b' := b.(g := M.Moved(b.g, ms));
      ResumesFree(b.g, ms);
    case Wakeups(k, rd) =>
      WaitersTick(s, k, rd, s');
      ms := PassTracks(Table(s.vs, s.vqs), s.qs[k], s'.cpu, rd, v, Since(s, v), b, a, z);
      b' := b.(g := M.Moved(b.g, ms));
      ResumesFree(b.g, ms);
    case Rebind(x, u) =>
      ms, b' := [], b;
      TracksLater(s.vs[v], Since(s, v), b, a, z);
    case JobWakeup(x, T, rd) =>
      InheritedMain(s.vs, s.cpu[x], T, v);
      ms := WokeTracks(Table(Inherited(s.vs, s.cpu[x], T), s.vqs), s'.cpu[x], v, Since(s, v), b, a, rd, z);
      b' := b.(g := M.Moved(b.g, ms));
      ResumesFree(b.g, ms);
  }

  lemma InheritedMain(vs: seq<V>, u: int, T: nat, v: nat)
    requires v < |vs|
    ensures vs[v].server.Main? ==> Inherited(vs, u, T)[v] == vs[v]
  {
  }

  lemma NotCharged(s: State, o: Op, v: nat)
    requires CanSchedule(s, o) && v < |s.vs| && s.vs[v].pcpu != o.p
    ensures !Ends(s, o, v)
  {
    hide Flags, SoundAll, HasMain, QueueHomes, TaskHomes, Separate, OnProcessor;
  }

  // ----- every run

  lemma {:induction false} SameSize(rows: seq<State>, os: seq<Op>, n: nat)
    requires IsRun(rows, os) && n < |rows|
    ensures |rows[n].vs| == |rows[0].vs|
    decreases n
  {
    hide Stepped, Ok, IsRun;
    if n > 0 {
      SameSize(rows, os, n - 1);
      RunStep(rows, os, n - 1);
      StepSize(rows[n - 1], os[n - 1], rows[n]);
    }
  }

  lemma RunStep(rows: seq<State>, os: seq<Op>, n: nat)
    requires IsRun(rows, os) && n + 1 < |rows|
    ensures n < |os| && Stepped(rows[n], os[n], rows[n + 1])
  {
    hide Stepped, Ok;
  }

  lemma ClockStep(rows: seq<State>, os: seq<Op>, clock: seq<nat>, n: nat)
    requires Clocked(rows, os, clock) && n < |os|
    ensures |clock| == |rows| == |os| + 1 && Timed(clock[n], rows[n], os[n], clock[n + 1])
  {
    hide Timed;
  }

  lemma {:induction false} RunTracks(rows: seq<State>, os: seq<Op>, clock: seq<nat>, v: nat, g0: M.Ledger, n: nat)
    returns (ms: seq<M.Move>, b: Book)
    requires IsRun(rows, os) && |rows| == |clock| == |os| + 1 && Clocked(rows, os, clock) && n <= |os|
    requires v < |rows[0].vs| && Tracks(rows[0].vs[v], Since(rows[0], v), Book(g0, 0), clock[0])
    ensures v < |rows[n].vs| && rows[n].vs[v].pcpu == rows[0].vs[v].pcpu
    ensures M.Sound(g0) && M.Follows(g0, ms) && b == Book(M.Moved(g0, ms), PickReading(os, rows[0].vs[v].pcpu, v, n))
    ensures b.g.used == g0.used + Charges(rows, os, v, n) && b.g.over <= g0.over + Overruns(rows, os, v, n)
    ensures Tracks(rows[n].vs[v], Since(rows[n], v), b, clock[n])
    decreases n
  {
    hide Ok, Tracks, M.Sound, M.Follows, M.Moved, Ends, IsRun, Clocked, Stepped, Timed, Excess;
    TracksFacts(rows[0].vs[v], Since(rows[0], v), Book(g0, 0), clock[0]);
    if n == 0 {
      ms, b := [], Book(g0, 0);
      FollowsNone(g0);
    } else {
      var front, b1 := RunTracks(rows, os, clock, v, g0, n - 1);
      RunStep(rows, os, n - 1);
      ClockStep(rows, os, clock, n - 1);
      SameSize(rows, os, n);
      SameSize(rows, os, n - 1);
      var last;
      last, b := StepTracks(rows[n - 1], os[n - 1], rows[n], v, b1, clock[n - 1], clock[n]);
      ms := front + last;
      FollowsAppend(g0, front, last);
      PickedHere(rows[n - 1], os[n - 1], rows[n], v);
      OverrunsNext(rows, os, v, n);
    }
  }

  /** A slice that ends was run on the processor of its VCPU. */
  lemma PickedHere(s: State, o: Op, s': State, v: nat)
    requires Stepped(s, o, s') && v < |s.vs|
    ensures Ends(s, o, v) ==> o.p == s.vs[v].pcpu && s.vs[v].running
  {
    hide SoundAll, HasMain, QueueHomes, TaskHomes, Separate, RunFlags, OnProcessor, Scheduled;
  }

  lemma OverrunsNext(rows: seq<State>, os: seq<Op>, v: nat, n: nat)
    requires 0 < n <= |os| < |rows| && v < |rows[n - 1].vs|
    requires Ends(rows[n - 1], os[n - 1], v) ==> os[n - 1].p == rows[n - 1].vs[v].pcpu
    ensures Overruns(rows, os, v, n) == Overruns(rows, os, v, n - 1)
            + Excess(rows[n - 1], os[n - 1], v, PickReading(os, rows[n - 1].vs[v].pcpu, v, n - 1))
  {
    hide S.Capacity, LastPick;
  }

  /** The periodic supply only grows. */
  lemma {:induction false} UnitsLater(e: int, n: nat, x: int, x': int, T: nat)
    requires T > 0 && x <= x'
    ensures M.Units(e, n, x, T) <= M.Units(e, n, x', T)
    decreases n
  {
    if n > 0 {
      M.TimesMono(x - e, x' - e, T);
      UnitsLater(e + 1, n - 1, x, x', T);
    }
  }

  /** v is a MAIN VCPU as vcpu_init leaves it. */
  ghost predicate FreshMain(w: V, C: nat, T: nat, t0: nat) {
    C > 0 && T > 0 && t0 > 0 && w.server.Main? && w.server.s == S.Init(C, T, t0) && !w.runnable && !w.running
  }

  /** Over every run of the scheduler the time charged to a MAIN VCPU is at most
      the supply of a periodic server with its budget and period, plus what its
      slices overran by. */
  lemma {:induction false} SupplyBounded(rows: seq<State>, os: seq<Op>, clock: seq<nat>, v: nat, C: nat, T: nat,
                                         t0: nat, n: nat)
    requires IsRun(rows, os) && |rows| == |clock| == |os| + 1 && Clocked(rows, os, clock) && n <= |os|
    requires v < |rows[0].vs| && FreshMain(rows[0].vs[v], C, T, t0) && t0 <= clock[0]
    ensures Charges(rows, os, v, n) <= M.Periodic(C, T, t0, clock[n]) + Overruns(rows, os, v, n)
  {
    var g0 := M.Start(C, T, t0);
    assert Tracks(rows[0].vs[v], Since(rows[0], v), Book(g0, 0), clock[0]) by { hide Ok, Stepped, M.Sound, S.Init; }
    hide Ok, Stepped, Tracks, M.Sound, M.Follows, M.Moved, IsRun, Clocked, FreshMain, Charges, Overruns;
    var ms, b := RunTracks(rows, os, clock, v, g0, n);
    TracksFacts(rows[n].vs[v], Since(rows[n], v), b, clock[n]);
    M.ConsumptionBounded(C, T, t0, ms);
    UnitsLater(t0, C, b.g.now, clock[n], T);
  }
}
