/** What the timer is worth: when every slice of a MAIN VCPU ends soon after the
    count that was programmed for it has run down, its overrun is a tick of the
    timer and the latency for each slice. */
module TimerRun {
  import opened VcpuHooks
  import opened SchedModel
  import opened SchedRun
  import opened SupplyRun
  import Homes
  import Sleep
  import WaitQueues
  import M = ServerSupply
  import S = SporadicServer

  // ----- from the pick to the end of the slice

  /** The timer is programmed for the capacity that the ledger is granted. */
  lemma {:induction false} PickBudget(s: State, o: Op, s': State, v: nat)
    requires Stepped(s, o, s') && o.Schedule? && v < |s.vs| == |s'.vs| && s.vs[v].pcpu == o.p
    requires s'.vs[v].running && s'.vs[v].server.Main? && |o.at| == |s.vs|
    ensures Budget(s'.vs[v].server) == S.Capacity(s'.vs[v].server.s, o.at[v]) > 0
  {
    ScheduledHere(s, o, s', v);
    hide Stepped, Ok, EndSlice, CanSchedule, Sound, S.Capacity;
  }

  /** v is as it was, but for its budget field and whether it is queued. */
  ghost predicate StillRuns(w: V, w': V) {
    && w'.pcpu == w.pcpu && w'.running == w.running && w.server.Main? && w'.server.Main?
    && (w.running ==> w'.server.s == w.server.s)
  }

  lemma WokeRuns(t: Table, u: int, rd: Reading, v: nat)
    requires v < |t.vs| && t.vs[v].server.Main?
    ensures StillRuns(t.vs[v], Woke(t, u, rd).vs[v])
  {
    hide S.UnblockCheck;
  }

  lemma {:induction false} PassRuns(t: Table, xs: seq<int>, cpu: seq<int>, rd: seq<Reading>, v: nat)
    requires v < |t.vs| && t.vs[v].server.Main?
    ensures StillRuns(t.vs[v], WokeAll(t, xs, cpu, rd).vs[v])
    decreases |xs|
  {
    if xs != [] {
      hide Woke;
      PassRuns(t, Sleep.Front(xs), cpu, rd, v);
      var y := Sleep.Last(xs);
      WokeRuns(WokeAll(t, Sleep.Front(xs), cpu, rd), CpuOf(cpu, y), ReadingOf(rd, y), v);
    }
  }

  /** No operation but the scheduling of its processor changes what v runs on. */
  lemma {:induction false} OthersKeep(s: State, o: Op, s': State, v: nat)
    requires Stepped(s, o, s') && v < |s.vs| == |s'.vs| && s.vs[v].server.Main?
    requires !(o.Schedule? && o.p == s.vs[v].pcpu)
    ensures StillRuns(s.vs[v], s'.vs[v])
  {
    hide Ok, Scheduled, CanSchedule, Woke, WokeAll, NextMain, Sleep.Examined, WaitQueues.Drained, Sleep.Due, Rehomed,
      Inherited;
    match o
    case Schedule(p, _, _, _, _, _, _, _, _) => ScheduledElsewhere(s, o, s', v);
    case Wakeup(x, rd) => WokeRuns(Table(s.vs, s.vqs), s'.cpu[x], rd, v);
    case Usleep(x, finish) =>
    case Sleepers(now, rd) =>
      PassRuns(Table(s.vs, s.vqs), Sleep.Due(s.qs[|s.vs|], s.time, now), s'.cpu, rd, v);
    case Wakeups(k, rd) => PassRuns(Table(s.vs, s.vqs), s.qs[k], s'.cpu, rd, v);
    case Rebind(x, u) =>
    case JobWakeup(x, T, rd) =>
      InheritedMain(s.vs, s.cpu[x], T, v);
      WokeRuns(Table(Inherited(s.vs, s.cpu[x], T), s.vqs), s'.cpu[x], rd, v);
  }

  lemma KeepsKind(s: State, o: Op, s': State, v: nat)
    requires Stepped(s, o, s') && o.Schedule? && v < |s.vs| == |s'.vs| && o.p == s.vs[v].pcpu
    requires s.vs[v].server.Main?
    ensures s'.vs[v].server.Main? && s'.vs[v].pcpu == s.vs[v].pcpu
  {
    ScheduledHere(s, o, s', v);
    hide Stepped, Ok, CanSchedule, Sound;
  }

  /** While v runs, its server is the one that the last scheduling of its
      processor left when it picked v. */
  lemma {:induction false} PickHolds(rows: seq<State>, os: seq<Op>, v: nat, n: nat)
    requires IsRun(rows, os) && |rows| == |os| + 1 && n <= |os|
    requires v < |rows[0].vs| && rows[0].vs[v].server.Main? && !rows[0].vs[v].running
    ensures v < |rows[n].vs| && rows[n].vs[v].server.Main? && rows[n].vs[v].pcpu == rows[0].vs[v].pcpu
    ensures rows[n].vs[v].running ==>
              var k := LastPick(os, rows[0].vs[v].pcpu, n);
              && 0 <= k && v < |rows[k + 1].vs| && StillRuns(rows[k + 1].vs[v], rows[n].vs[v])
    decreases n
  {
    hide IsRun, Stepped, Ok;
    if n > 0 {
      PickHolds(rows, os, v, n - 1);
      RunStep(rows, os, n - 1);
      SameSize(rows, os, n);
      SameSize(rows, os, n - 1);
      var s, o, s' := rows[n - 1], os[n - 1], rows[n];
      if o.Schedule? && o.p == s.vs[v].pcpu {
        KeepsKind(s, o, s', v);
      } else {
        OthersKeep(s, o, s', v);
      }
    }
  }

  // ----- the programmed count

  /** The count that vcpu_schedule programs, s' being the state it leaves. */
  ghost function Programmed(s': State, o: Op, bus: nat, tsc: nat, quantum: nat): nat
    requires o.Schedule? && o.p < |s'.current| && o.p < |s'.vqs| && tsc > 0 && quantum > 0
    requires |o.ev| == |s'.vs| && InRange(s'.vs, s'.vqs[o.p])
  {
    var c := s'.current[o.p];
    Count(Shorten(BudgetOf(s'.vs, c), Events(s'.vs, o.ev, o.tcur, PeriodOf(s'.vs, c), s'.vqs[o.p])), bus, tsc, quantum)
  }

  /** No event that matters falls on the very tick of the pick. */
  ghost predicate NoneDue(s': State, o: Op)
    requires o.Schedule? && o.p < |s'.current| && o.p < |s'.vqs|
  {
    var q, T := s'.vqs[o.p], PeriodOf(s'.vs, s'.current[o.p]);
    Readings(s'.vs, o.ev, o.tcur, q) && !exists j :: 0 <= j < |q| && DueNow(s'.vs, o.tcur, T, q[j])
  }

  /** A slice of length d, granted by o, ends within the latency of the count. */
  ghost predicate InTime(s': State, o: Op, d: nat, bus: nat, tsc: nat, quantum: nat, latency: nat)
    requires tsc > 0 && quantum > 0
  {
    && o.Schedule? && o.p < |s'.current| && o.p < |s'.vqs| && NoneDue(s', o)
    && d * bus <= Programmed(s', o, bus, tsc, quantum) * tsc + latency * bus
  }

  /** So do all slices of v that the first n operations end. */
  ghost predicate Prompt(rows: seq<State>, os: seq<Op>, v: nat, n: nat, bus: nat, tsc: nat, quantum: nat, latency: nat)
    requires n <= |os| < |rows| && tsc > 0 && quantum > 0
  {
    forall m :: 0 <= m < n && Ends(rows[m], os[m], v) ==>
      var k := LastPick(os, os[m].p, m);
      k >= 0 ==> InTime(rows[k + 1], os[k], Charged(rows[m], os[m], v), bus, tsc, quantum, latency)
  }

  /** A delay no longer than the capacity is counted at most a tick too long. */
  lemma {:induction false} CountCovers(cap: nat, es: seq<nat>, d: nat, bus: nat, tsc: nat, quantum: nat, latency: nat)
    requires cap > 0 && tsc > 0 && quantum > 0 && forall i :: 0 <= i < |es| ==> es[i] != 0
    requires d * bus <= Count(Shorten(cap, es), bus, tsc, quantum) * tsc + latency * bus
    ensures d * bus <= cap * bus + tsc + latency * bus
  {
    var delay := Shorten(cap, es);
    ShortenIsLeast(cap, es);
    CountNotLate(delay, bus, tsc, quantum);
    var c := Count(delay, bus, tsc, quantum);
    hide Shorten, Count;
    MulMono(delay, cap, bus);
    assert c * tsc <= tsc + cap * bus by { if c == 1 { assert c * tsc == tsc; } }
  }

  /** A slice of v that ends in time exceeds what was programmed by a tick and
      the latency. */
  lemma {:induction false} SliceInTime(rows: seq<State>, os: seq<Op>, v: nat, m: nat, bus: nat, tsc: nat, quantum: nat,
                                       latency: nat)
    requires IsRun(rows, os) && |rows| == |os| + 1 && m < |os| && tsc > 0 && quantum > 0
    requires v < |rows[0].vs| && rows[0].vs[v].server.Main? && !rows[0].vs[v].running
    requires Ends(rows[m], os[m], v) && Prompt(rows, os, v, m + 1, bus, tsc, quantum, latency)
    ensures v < |rows[m].vs| && rows[m].vs[v].server.Main?
    ensures var cap := S.Capacity(rows[m].vs[v].server.s, PickReading(os, os[m].p, v, m));
            cap > 0 && Charged(rows[m], os[m], v) * bus <= cap * bus + tsc + latency * bus
  {
    hide IsRun, Stepped, Ok, Ends, S.Capacity, Budget, Shorten, Count, Events, Prompt, InTime, StillRuns;
    PickHolds(rows, os, v, m);
    RunStep(rows, os, m);
    PickedHere(rows[m], os[m], rows[m + 1], v);
    EndsSchedule(rows[m], os[m], v);
    var k := LastPick(os, os[m].p, m);
    SlicePicked(rows, os, v, m, k);
    var s', o, d := rows[k + 1], os[k], Charged(rows[m], os[m], v);
    PromptAt(rows, os, v, m, bus, tsc, quantum, latency);
    InTimeCovers(s', o, v, d, bus, tsc, quantum, latency);
  }

  lemma {:induction false} SlicePicked(rows: seq<State>, os: seq<Op>, v: nat, m: nat, k: nat)
    requires IsRun(rows, os) && |rows| == |os| + 1 && k < m < |os| && os[k].Schedule?
    requires v < |rows[0].vs| && v < |rows[m].vs| && v < |rows[k + 1].vs| && rows[m].vs[v].running
    requires StillRuns(rows[k + 1].vs[v], rows[m].vs[v]) && rows[m].vs[v].pcpu == os[k].p
    ensures os[k].p < |rows[k + 1].current| && rows[k + 1].current[os[k].p] == v && v < |os[k].at|
    ensures rows[k + 1].vs[v].server.Main? && rows[k + 1].vs[v].server.s == rows[m].vs[v].server.s
    ensures Budget(rows[k + 1].vs[v].server) == S.Capacity(rows[m].vs[v].server.s, os[k].at[v]) > 0
  {
    hide IsRun, Stepped, Ok, S.Capacity, Budget;
    RunStep(rows, os, k);
    SameSize(rows, os, k);
    SameSize(rows, os, k + 1);
    CanFacts(rows[k], os[k], rows[k + 1]);
    SamePcpu(rows[k], os[k], rows[k + 1], v);
    PickBudget(rows[k], os[k], rows[k + 1], v);
  }

  lemma {:induction false} SamePcpu(s: State, o: Op, s': State, v: nat)
    requires Stepped(s, o, s') && o.Schedule? && v < |s.vs| == |s'.vs|
    ensures s.vs[v].pcpu == s'.vs[v].pcpu
    ensures s'.vs[v].running && s'.vs[v].pcpu == o.p ==> o.p < |s'.current| && s'.current[o.p] == v
  {
    hide Stepped, Ok;
    if s.vs[v].pcpu == o.p { ScheduledHere(s, o, s', v); } else { ScheduledElsewhere(s, o, s', v); }
    if s'.vs[v].pcpu == o.p { AfterRuns(s, o, s', v); }
  }

  lemma AfterRuns(s: State, o: Op, s': State, v: nat)
    requires Stepped(s, o, s') && o.Schedule? && v < |s.vs| == |s'.vs| && s'.vs[v].pcpu == o.p
    ensures o.p < |s'.current| && (s'.vs[v].running <==> s'.current[o.p] == v)
  {
    hide SoundAll, HasMain, Homes.QueueHomes, Homes.TaskHomes, Homes.Separate, RunFlags, Scheduled, OnProcessor;
  }

  lemma PromptAt(rows: seq<State>, os: seq<Op>, v: nat, m: nat, bus: nat, tsc: nat, quantum: nat, latency: nat)
    requires m < |os| < |rows| && tsc > 0 && quantum > 0 && Prompt(rows, os, v, m + 1, bus, tsc, quantum, latency)
    requires Ends(rows[m], os[m], v) && LastPick(os, os[m].p, m) >= 0
    ensures var k := LastPick(os, os[m].p, m);
            InTime(rows[k + 1], os[k], Charged(rows[m], os[m], v), bus, tsc, quantum, latency)
  {
    hide Ends, InTime;
  }

  lemma {:induction false} InTimeCovers(s': State, o: Op, v: nat, d: nat, bus: nat, tsc: nat, quantum: nat,
                                        latency: nat)
    requires tsc > 0 && quantum > 0 && InTime(s', o, d, bus, tsc, quantum, latency)
    requires v < |s'.vs| && s'.current[o.p] == v && Budget(s'.vs[v].server) > 0
    ensures d * bus <= Budget(s'.vs[v].server) * bus + tsc + latency * bus
  {
    var q, T := s'.vqs[o.p], PeriodOf(s'.vs, v);
    hide Events, Readings, DueNow, Shorten, Count;
    assert Readings(s'.vs, o.ev, o.tcur, q);
    ZeroEvent(s'.vs, o.ev, o.tcur, T, q);
    assert |o.ev| == |s'.vs| && InRange(s'.vs, q) by { ReadingsRange(s'.vs, o.ev, o.tcur, q); }
    var es := Events(s'.vs, o.ev, o.tcur, T, q);
    NoZero(es);
    CountCovers(Budget(s'.vs[v].server), es, d, bus, tsc, quantum, latency);
  }

  lemma ReadingsRange(vs: seq<V>, ev: seq<nat>, tcur: nat, q: seq<int>)
    requires Readings(vs, ev, tcur, q)
    ensures |ev| == |vs| && InRange(vs, q)
  {
    hide NextEvent;
  }

  // ----- every run

  /** How many slices of v the first n operations end. */
  ghost function Slices(rows: seq<State>, os: seq<Op>, v: nat, n: nat): nat
    requires n <= |os| < |rows|
  {
    if n == 0 then 0 else Slices(rows, os, v, n - 1) + if Ends(rows[n - 1], os[n - 1], v) then 1 else 0
  }

  /** The time it took, at the start of those slices, to read the capacity. */
  ghost function ReadTimes(rows: seq<State>, os: seq<Op>, v: nat, n: nat): nat
    requires n <= |os| < |rows|
  {
    if n == 0 then 0
    else
      var s, o := rows[n - 1], os[n - 1];
      ReadTimes(rows, os, v, n - 1)
      + if Ends(s, o, v) then M.Max(0, PickReading(os, o.p, v, n - 1) - s.tprev[o.p]) else 0
  }

  lemma {:induction false} ExcessInTime(d: nat, cap: nat, read: int, k: nat, bus: nat)
    requires d * bus <= cap * bus + k
    ensures M.Max(M.Max(0, d - cap), read) * bus <= k + M.Max(0, read) * bus
  {
    if d > cap {
      assert (d - cap) * bus == d * bus - cap * bus;
    }
    assert M.Max(0, read) * bus >= 0;
  }

  lemma {:induction false} OverrunsInTime(rows: seq<State>, os: seq<Op>, v: nat, n: nat, bus: nat, tsc: nat,
                                          quantum: nat, latency: nat)
    requires IsRun(rows, os) && |rows| == |os| + 1 && n <= |os| && tsc > 0 && quantum > 0
    requires v < |rows[0].vs| && rows[0].vs[v].server.Main? && !rows[0].vs[v].running
    requires Prompt(rows, os, v, n, bus, tsc, quantum, latency)
    ensures Overruns(rows, os, v, n) * bus
            <= Slices(rows, os, v, n) * (tsc + latency * bus) + ReadTimes(rows, os, v, n) * bus
    decreases n
  {
    hide IsRun, Stepped, Ok, Ends, S.Capacity, LastPick, InTime;
    if n > 0 {
      var s, o, k := rows[n - 1], os[n - 1], tsc + latency * bus;
      OverrunsInTime(rows, os, v, n - 1, bus, tsc, quantum, latency);
      if Ends(s, o, v) {
        assert Prompt(rows, os, v, n - 1 + 1, bus, tsc, quantum, latency);
        SliceInTime(rows, os, v, n - 1, bus, tsc, quantum, latency);
        EndsSchedule(s, o, v);
        var at := PickReading(os, o.p, v, n - 1);
        var cap, d := S.Capacity(s.vs[v].server.s, at), Charged(s, o, v);
        var start: int := s.tprev[o.p];
        var read := at - start;
        hide Prompt, Charged;
        ExcessInTime(d, cap, read, k, bus);
        Spread(Overruns(rows, os, v, n - 1), Excess(s, o, v, at), Slices(rows, os, v, n - 1), 1,
               ReadTimes(rows, os, v, n - 1), M.Max(0, read), k, bus);
      }
    }
  }

  lemma EndsSchedule(s: State, o: Op, v: nat)
    requires Ends(s, o, v)
    ensures o.Schedule? && o.p < |s.tprev|
  {
  }

  lemma Spread(a: nat, a': nat, n: nat, n': nat, r: nat, r': nat, k: nat, bus: nat)
    requires a * bus <= n * k + r * bus && a' * bus <= n' * k + r' * bus
    ensures (a + a') * bus <= (n + n') * k + (r + r') * bus
  {
    assert (a + a') * bus == a * bus + a' * bus;
    assert (n + n') * k == n * k + n' * k;
    assert (r + r') * bus == r * bus + r' * bus;
  }

  /** Over every run in which the slices of a MAIN VCPU end within the latency of
      their counts, and no event falls on the tick of a pick, the time charged
      to it is at most the supply of a periodic server plus, for each slice, a
      tick of the timer, the latency and the time it took to read the capacity. */
  lemma {:induction false} OverrunBounded(rows: seq<State>, os: seq<Op>, clock: seq<nat>, v: nat, C: nat, T: nat,
                                          t0: nat, n: nat, bus: nat, tsc: nat, quantum: nat, latency: nat)
    requires IsRun(rows, os) && |rows| == |clock| == |os| + 1 && Clocked(rows, os, clock) && n <= |os|
    requires v < |rows[0].vs| && FreshMain(rows[0].vs[v], C, T, t0) && t0 <= clock[0]
    requires tsc > 0 && quantum > 0 && Prompt(rows, os, v, n, bus, tsc, quantum, latency)
    ensures Charges(rows, os, v, n) * bus
            <= M.Periodic(C, T, t0, clock[n]) * bus
               + Slices(rows, os, v, n) * (tsc + latency * bus) + ReadTimes(rows, os, v, n) * bus
  {
    hide IsRun, Clocked, Charges, Overruns, Prompt, Slices, ReadTimes, S.Init;
    SupplyBounded(rows, os, clock, v, C, T, t0, n);
    OverrunsInTime(rows, os, v, n, bus, tsc, quantum, latency);
    var c, p, u := Charges(rows, os, v, n), M.Periodic(C, T, t0, clock[n]), Overruns(rows, os, v, n);
    hide FreshMain, M.Periodic;
    MulMono(c, p + u, bus);
    assert (p + u) * bus == p * bus + u * bus;
  }
}
