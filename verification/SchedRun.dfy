/** Runs of the scheduler on values: what each operation does to the whole
    state, and where that leaves every task. */
module SchedRun {
  import opened Links
  import opened TaskQueues
  import opened VcpuHooks
  import opened Sleep
  import opened WaitQueues
  import opened SchedModel
  import opened Homes
  import opened TaskFlow

  // ----- waking one VCPU after the other

  /** The clock readings of one wakeup. */
  type Reading = (nat, nat, nat)

  /** The VCPUs and the processors' queues. */
  datatype Table = Table(vs: seq<V>, vqs: seq<seq<int>>)

  /** The table after VCPU v has been woken. */
  ghost function Woke(t: Table, v: int, rd: Reading): (r: Table)
    ensures |r.vs| == |t.vs|
  {
    if 0 <= v < |t.vs| && Sound(t.vs[v].server)
    then Table(t.vs[v := t.vs[v].(server := Woken(t.vs[v], rd.0, rd.1, rd.2), runnable := true)],
               Joined(t.vqs, t.vs[v].pcpu, v))
    else t
  }

  lemma WokeIs(t: Table, v: nat, rd: Reading)
    requires v < |t.vs| && Sound(t.vs[v].server)
    ensures Woke(t, v, rd) == Table(t.vs[v := t.vs[v].(server := Woken(t.vs[v], rd.0, rd.1, rd.2), runnable := true)],
                                    Joined(t.vqs, t.vs[v].pcpu, v))
  {
  }

  lemma WokeSame(t: Table, v: int, rd: Reading)
    ensures forall u :: 0 <= u < |t.vs| ==>
              Woke(t, v, rd).vs[u].tr == t.vs[u].tr && Woke(t, v, rd).vs[u].running == t.vs[u].running
  {
  }

  function CpuOf(cpu: seq<int>, x: int): int { if 0 <= x < |cpu| then cpu[x] else NULL }

  function ReadingOf(rd: seq<Reading>, x: int): Reading { if 0 <= x < |rd| then rd[x] else (0, 0, 0) }

  /** The table after the VCPUs of the tasks xs have been woken in turn. */
  ghost function WokeAll(t: Table, xs: seq<int>, cpu: seq<int>, rd: seq<Reading>): (r: Table)
    ensures |r.vs| == |t.vs|
    decreases |xs|
  {
    if xs == [] then t
    else Woke(WokeAll(t, Front(xs), cpu, rd), CpuOf(cpu, Last(xs)), ReadingOf(rd, Last(xs)))
  }

  lemma {:induction false} WokeElsewhere(t: Table, xs: seq<int>, cpu: seq<int>, rd: seq<Reading>, x: int, v: int)
    requires x !in xs && 0 <= x < |cpu|
    ensures WokeAll(t, xs, cpu[x := v], rd) == WokeAll(t, xs, cpu, rd)
    decreases |xs|
  {
    if xs != [] {
      hide Woke;
      WokeElsewhere(t, Front(xs), cpu, rd, x, v);
    }
  }

  /** One more wakeup, of a task that is bound to v by it. */
  lemma {:induction false} WokeNext(t: Table, xs: seq<int>, cpu: seq<int>, rd: seq<Reading>, x: int, v: int)
    requires x !in xs && 0 <= x < |cpu| && x < |rd|
    ensures WokeAll(t, xs + [x], cpu[x := v], rd) == Woke(WokeAll(t, xs, cpu, rd), v, rd[x])
  {
    assert Front(xs + [x]) == xs && Last(xs + [x]) == x;
    WokeElsewhere(t, xs, cpu, rd, x, v);
    hide Woke;
  }

  /** One more sleeper examined: woken, or passed over. */
  lemma {:induction false} RoundWoken(t: Table, s: seq<int>, i: nat, time: seq<nat>, now: nat, cpu: seq<int>,
                                      rd: seq<Reading>, v: int)
    requires i < |s| && Distinct(s) && IsDue(time, now, s[i]) && 0 <= s[i] < |cpu| && s[i] < |rd|
    ensures WokeAll(t, Due(s[..i + 1], time, now), cpu[s[i] := v], rd)
            == Woke(WokeAll(t, Due(s[..i], time, now), cpu, rd), v, rd[s[i]])
  {
    hide Due, WokeAll, Woke;
    NextDue(s, i, time, now);
    if s[i] in Due(s[..i], time, now) { DueMember(s[..i], time, now, s[i]); }
    WokeNext(t, Due(s[..i], time, now), cpu, rd, s[i], v);
  }

  lemma RoundKept(s: seq<int>, i: nat, time: seq<nat>, now: nat)
    requires i < |s| && !IsDue(time, now, s[i])
    ensures Due(s[..i + 1], time, now) == Due(s[..i], time, now)
  {
    NextDue(s, i, time, now);
  }

  /** One more task of a wait queue. */
  lemma {:induction false} HeadWoken(t: Table, s: seq<int>, i: nat, cpu: seq<int>, rd: seq<Reading>, v: int)
    requires i < |s| && Distinct(s) && 0 <= s[i] < |cpu| && s[i] < |rd|
    ensures WokeAll(t, s[..i + 1], cpu[s[i] := v], rd) == Woke(WokeAll(t, s[..i], cpu, rd), v, rd[s[i]])
  {
    hide WokeAll, Woke;
    assert s[..i + 1] == s[..i] + [s[i]];
    WokeNext(t, s[..i], cpu, rd, s[i], v);
  }

  lemma WokeNone(t: Table, s: seq<int>, time: seq<nat>, now: nat, cpu: seq<int>, rd: seq<Reading>)
    ensures WokeAll(t, Due(s[..0], time, now), cpu, rd) == t && WokeAll(t, s[..0], cpu, rd) == t
  {
  }

  // ----- states and operations

  datatype State = State(vs: seq<V>, current: seq<int>, tprev: seq<nat>, vqs: seq<seq<int>>,
                         qs: seq<seq<int>>, cpu: seq<int>, home: seq<int>, time: seq<nat>, binding: int)

  /** What every valid scheduler keeps of these values. */
  ghost predicate Ok(s: State) {
    && |s.current| == |s.tprev| == |s.vqs| && |s.cpu| == |s.home| == |s.time|
    && Flags(s.vs, s.current, s.vqs, s.qs) && SoundAll(s.vs) && HasMain(s.vs)
    && (forall p :: 0 <= p < |s.vqs| ==> OnProcessor(s.vs, s.vqs[p], p))
    && (forall p :: 0 <= p < |s.vqs| && s.current[p] != NULL ==>
          0 <= s.current[p] < |s.vs| && s.vs[s.current[p]].pcpu == p)
    && Separate(s.qs) && QueueHomes(s.home, |s.vs|, s.qs) && TaskHomes(s.home, s.vs)
  }

  /** vcpu_schedule on processor p, vcpu_wakeup, sched_usleep, process_sleepqueue,
      wakeup_queue, set_iovcpu and iovcpu_job_wakeup, each with its clock
      readings. */
  datatype Op =
    | Schedule(p: nat, tcur: nat, acct: nat, n0: nat, n1: nat, n2: nat, at: seq<nat>, ev: seq<nat>, begin: nat)
    | Wakeup(x: int, one: Reading)
    | Usleep(x: int, finish: nat)
    | Sleepers(now: nat, rd: seq<Reading>)
    | Wakeups(k: nat, rd: seq<Reading>)
    | Rebind(x: int, v: int)
    | JobWakeup(x: int, T: nat, one: Reading)

  ghost predicate CanSchedule(s: State, o: Op) {
    && Ok(s) && o.Schedule? && o.p < |s.current| && |o.at| == |o.ev| == |s.vs| && s.tprev[o.p] <= o.tcur
  }

  /** The table once the current VCPU of processor p has ended its timeslice. */
  ghost function Budgeted(s: State, o: Op): (mid: seq<V>)
    requires CanSchedule(s, o)
    ensures |mid| == |s.vs| && InRange(mid, s.vqs[o.p])
  {
    CurrentSound(s, o.p);
    Ended(s.vs, s.current[o.p], o.tcur - s.tprev[o.p], o.acct, o.n0, o.n1, o.n2)
  }

  lemma CurrentSound(s: State, p: nat)
    requires Ok(s) && p < |s.current|
    ensures s.current[p] == NULL || (0 <= s.current[p] < |s.vs| && Sound(s.vs[s.current[p]].server))
    ensures InRange(s.vs, s.vqs[p])
  {
    hide Sound, Flags, QueueHomes, TaskHomes, Separate, HasMain;
    assert OnProcessor(s.vs, s.vqs[p], p);
  }

  ghost function Pick(s: State, o: Op): (c: int)
    requires CanSchedule(s, o)
    ensures c == NULL || 0 <= c < |s.vs|
  {
    ChoiceRange(Budgeted(s, o), o.at, o.tcur, s.vqs[o.p]);
    Choice(Budgeted(s, o), o.at, o.tcur, s.vqs[o.p])
  }

  lemma ChoiceRange(vs: seq<V>, at: seq<nat>, tcur: nat, q: seq<int>)
    requires |at| == |vs| && InRange(vs, q)
    ensures Choice(vs, at, tcur, q) == NULL || Choice(vs, at, tcur, q) in q
  {
    hide Scan;
  }

  ghost predicate Scheduled(s: State, o: Op, s': State)
    requires CanSchedule(s, o)
  {
    var p, mid, c := o.p, Budgeted(s, o), Pick(s, o);
    CurrentSound(s, p);
    && s'.current == s.current[p := c] && s'.tprev == s.tprev[p := o.tcur]
    && s'.vs == Switched(Planned(mid, o.at, o.tcur, s.vqs[p], s.qs), s.current[p], c, o.begin)
    && s'.vqs == s.vqs[p := QueueAfter(mid, o.at, o.tcur, s.vqs[p], s.qs)]
    && (if c == NULL then s'.qs == s.qs else TookTask(mid[c], s'.vs[c].tr, c, s.qs, s'.qs))
    && s'.cpu == s.cpu && s'.home == s.home && s'.time == s.time && s'.binding == s.binding
  }

  ghost predicate Wakened(s: State, x: int, rd: Reading, s': State) {
    && 0 < x < |s.cpu| && rd.1 > 0 && |s'.cpu| == |s.cpu|
    && var v := s'.cpu[x];
    && 0 <= v < |s.vs| && v < |s.qs| && s'.cpu == s.cpu[x := v]
    && (if s.cpu[x] != UNBOUND then v == s.cpu[x] && s'.binding == s.binding
        else s.binding >= 0 && NextMain(s.vs, s.binding, v) && s'.binding == SchedModel.Next(v, |s.vs|))
    && Table(s'.vs, s'.vqs) == Woke(Table(s.vs, s.vqs), v, rd)
    && s'.qs == (if x in s.qs[v] then s.qs else s.qs[v := s.qs[v] + [x]])
    && x < |s.home| && s'.home == s.home[x := v]
    && s'.current == s.current && s'.tprev == s.tprev && s'.time == s.time
  }

  /** Only the binding changes; wherever the task is queued or runs, it stays. */
  ghost predicate Rebound(s: State, x: int, v: int, s': State) {
    0 <= x < |s.cpu| && 0 <= v < |s.vs| && s' == s.(cpu := s.cpu[x := v])
  }

  ghost predicate JobWakened(s: State, x: int, T: nat, rd: Reading, s': State) {
    && 0 <= x < |s.cpu| && 0 <= s.cpu[x] < |s.vs| && s.cpu[x] != UNBOUND && T > 0
    && Wakened(s.(vs := Inherited(s.vs, s.cpu[x], T)), x, rd, s')
  }

  /** The tasks xs are at home on the VCPUs they have been woken on. */
  ghost predicate Rehomed(home: seq<int>, home': seq<int>, xs: seq<int>, cpu: seq<int>) {
    |home'| == |home| == |cpu| && forall y :: 0 <= y < |home| ==> home'[y] == if y in xs then cpu[y] else home[y]
  }

  lemma RehomedNone(home: seq<int>, cpu: seq<int>, s: seq<int>, time: seq<nat>, now: nat)
    requires |cpu| == |home|
    ensures Rehomed(home, home, Due(s[..0], time, now), cpu) && Rehomed(home, home, s[..0], cpu)
  {
  }

  lemma {:induction false} RehomedNext(home: seq<int>, home': seq<int>, xs: seq<int>, cpu: seq<int>, x: int, v: int)
    requires Rehomed(home, home', xs, cpu) && 0 <= x < |cpu| && x !in xs
    ensures |home'| == |cpu| && Rehomed(home, home'[x := v], xs + [x], cpu[x := v])
  {
  }

  ghost predicate PutToSleep(s: State, x: int, finish: nat, s': State) {
    && 0 < x < |s.time| && |s.vs| < |s.qs|
    && s' == s.(time := s.time[x := finish], qs := s.qs[|s.vs| := s.qs[|s.vs|] + [x]])
    && x !in s.qs[|s.vs|]
  }

  ghost predicate Ticking(rd: seq<Reading>) { forall x :: 0 <= x < |rd| ==> rd[x].1 > 0 }

  ghost predicate Roused(s: State, now: nat, rd: seq<Reading>, s': State) {
    var nv := |s.vs|;
    && nv < |s.qs| && |rd| == |s.cpu| && Ticking(rd)
    && Examined(s.qs, s'.qs, nv, |s.qs[nv]|, s'.cpu, s.time, s'.time, now) && StillBound(s.cpu, s'.cpu)
    && Table(s'.vs, s'.vqs) == WokeAll(Table(s.vs, s.vqs), Due(s.qs[nv], s.time, now), s'.cpu, rd)
    && Rehomed(s.home, s'.home, Due(s.qs[nv], s.time, now), s'.cpu)
    && s'.current == s.current && s'.tprev == s.tprev
  }

  ghost predicate Emptied(s: State, k: nat, rd: seq<Reading>, s': State) {
    var nv := |s.vs|;
    && nv < k < |s.qs| && |rd| == |s.cpu| && Ticking(rd)
    && Drained(s.qs, s'.qs, nv, k, |s.qs[k]|, s'.cpu) && StillBound(s.cpu, s'.cpu)
    && Table(s'.vs, s'.vqs) == WokeAll(Table(s.vs, s.vqs), s.qs[k], s'.cpu, rd)
    && Rehomed(s.home, s'.home, s.qs[k], s'.cpu)
    && s'.current == s.current && s'.tprev == s.tprev && s'.time == s.time
  }

  /** What an operation does, as the methods of the scheduler promise it. */
  ghost predicate Stepped(s: State, o: Op, s': State) {
    && Ok(s) && Ok(s')
    && match o
       case Schedule(_, _, _, _, _, _, _, _, _) => CanSchedule(s, o) && Scheduled(s, o, s')
       case Wakeup(x, rd) => Wakened(s, x, rd, s')
       case Usleep(x, finish) => PutToSleep(s, x, finish, s')
       case Sleepers(now, rd) => Roused(s, now, rd, s')
       case Wakeups(k, rd) => Emptied(s, k, rd, s')
       case Rebind(x, v) => Rebound(s, x, v, s')
       case JobWakeup(x, T, rd) => JobWakened(s, x, T, rd, s')
  }

  ghost predicate IsRun(rows: seq<State>, os: seq<Op>) {
    && |rows| == |os| + 1 && Ok(rows[0])
    && forall n :: 0 <= n < |os| ==> Stepped(rows[n], os[n], rows[n + 1])
  }

  lemma Wakens(s: State, s': State, x: int, rd: Reading, v: nat)
    requires Ok(s) && Ok(s') && 0 < x < |s.cpu| == |s.home| && rd.1 > 0 && v < |s.vs| && v < |s.qs|
    requires s'.cpu == s.cpu[x := v] && (s.cpu[x] != UNBOUND ==> v == s.cpu[x])
    requires if s.cpu[x] != UNBOUND then s'.binding == s.binding
             else s.binding >= 0 && NextMain(s.vs, s.binding, v) && s'.binding == SchedModel.Next(v, |s.vs|)
    requires Table(s'.vs, s'.vqs) == Woke(Table(s.vs, s.vqs), v, rd) && s'.home == s.home[x := v]
    requires s'.qs == (if x in s.qs[v] then s.qs else s.qs[v := s.qs[v] + [x]])
    requires s'.current == s.current && s'.tprev == s.tprev && s'.time == s.time
    ensures Stepped(s, Wakeup(x, rd), s')
  {
    hide Ok, Woke, NextMain;
  }

  /** The parts that vcpu_schedule goes through make up its step. */
  lemma Schedules(s: State, o: Op, s': State, mid: seq<V>, plan: seq<V>, c: int)
    requires CanSchedule(s, o) && Ok(s') && mid == Budgeted(s, o) && c == Pick(s, o)
    requires plan == Planned(mid, o.at, o.tcur, s.vqs[o.p], s.qs)
    requires s.current[o.p] == NULL || 0 <= s.current[o.p] < |s.vs|
    requires s'.vs == Switched(plan, s.current[o.p], c, o.begin)
    requires s'.current == s.current[o.p := c] && s'.tprev == s.tprev[o.p := o.tcur]
    requires s'.vqs == s.vqs[o.p := QueueAfter(mid, o.at, o.tcur, s.vqs[o.p], s.qs)]
    requires if c == NULL then s'.qs == s.qs else TookTask(mid[c], s'.vs[c].tr, c, s.qs, s'.qs)
    requires s'.cpu == s.cpu && s'.home == s.home && s'.time == s.time && s'.binding == s.binding
    ensures Stepped(s, o, s')
  {
    hide Ok, Planned, Switched, Choice, Ended, TookTask, QueueAfter;
  }

  /** One more task passed over by the sleep queue's pass and by the wakeup of a
      wait queue. */
  lemma {:induction false} RoundPassed(s0: State, s1: State, q: seq<int>, i: nat, time: seq<nat>, now: nat,
                                       rd: seq<Reading>, v: int, s: State)
    requires i < |q| && Distinct(q) && IsDue(time, now, q[i]) && 0 <= q[i] < |s1.cpu| && q[i] < |rd|
    requires Table(s1.vs, s1.vqs) == WokeAll(Table(s0.vs, s0.vqs), Due(q[..i], time, now), s1.cpu, rd)
    requires Rehomed(s0.home, s1.home, Due(q[..i], time, now), s1.cpu) && q[i] < |s1.home|
    requires s.cpu == s1.cpu[q[i] := v] && s.home == s1.home[q[i] := v]
    requires Table(s.vs, s.vqs) == Woke(Table(s1.vs, s1.vqs), v, rd[q[i]])
    ensures Table(s.vs, s.vqs) == WokeAll(Table(s0.vs, s0.vqs), Due(q[..i + 1], time, now), s.cpu, rd)
    ensures Rehomed(s0.home, s.home, Due(q[..i + 1], time, now), s.cpu)
  {
    hide Due, WokeAll, Woke, Rehomed, IsDue;
    RoundWoken(Table(s0.vs, s0.vqs), q, i, time, now, s1.cpu, rd, v);
    NextDue(q, i, time, now);
    if q[i] in Due(q[..i], time, now) { DueMember(q[..i], time, now, q[i]); }
    RehomedNext(s0.home, s1.home, Due(q[..i], time, now), s1.cpu, q[i], v);
  }

  lemma {:induction false} HeadPassed(s0: State, s1: State, q: seq<int>, i: nat, rd: seq<Reading>, v: int, s: State)
    requires i < |q| && Distinct(q) && 0 <= q[i] < |s1.cpu| && q[i] < |rd|
    requires Table(s1.vs, s1.vqs) == WokeAll(Table(s0.vs, s0.vqs), q[..i], s1.cpu, rd)
    requires Rehomed(s0.home, s1.home, q[..i], s1.cpu) && q[i] < |s1.home|
    requires s.cpu == s1.cpu[q[i] := v] && s.home == s1.home[q[i] := v]
    requires Table(s.vs, s.vqs) == Woke(Table(s1.vs, s1.vqs), v, rd[q[i]])
    ensures Table(s.vs, s.vqs) == WokeAll(Table(s0.vs, s0.vqs), q[..i + 1], s.cpu, rd)
    ensures Rehomed(s0.home, s.home, q[..i + 1], s.cpu)
  {
    assert q[..i + 1] == q[..i] + [q[i]] && q[i] !in q[..i];
    hide WokeAll, Woke, Rehomed;
    HeadWoken(Table(s0.vs, s0.vqs), q, i, s1.cpu, rd, v);
    RehomedNext(s0.home, s1.home, q[..i], s1.cpu, q[i], v);
  }

  // ----- no task is lost

  /** What an operation does to the set of queued tasks. */
  ghost function DeedOf(s: State, o: Op, s': State): Deed {
    match o
    case Schedule(p, _, _, _, _, _, _, _, _) =>
      if p < |s'.current| && 0 <= s'.current[p] < |s'.vs| then Run(s'.vs[s'.current[p]].tr) else Shift
    case Wakeup(x, _) => Queue(x)
    case Usleep(x, _) => Queue(x)
    case Sleepers(_, _) => Shift
    case Wakeups(_, _) => Shift
    case Rebind(_, _) => Shift
    case JobWakeup(x, _, _) => Queue(x)
  }

  lemma {:induction false} StepMoves(s: State, o: Op, s': State)
    requires Stepped(s, o, s')
    ensures Did(s.qs, DeedOf(s, o, s'), s'.qs)
  {
    hide Flags, SoundAll, HasMain, QueueHomes, TaskHomes, OnProcessor, OnNone;
    match o
    case Schedule(p, _, _, _, _, _, _, _, _) =>
      var c := Pick(s, o);
      hide Planned, Switched, Choice, Ended;
      if c != NULL { TookMoves(s.qs, Budgeted(s, o)[c], s'.vs[c].tr, c, s'.qs); }
    case Wakeup(x, rd) => AppendMoves(s.qs, s'.qs, s'.cpu[x], x);
    case Usleep(x, finish) => AppendMoves(s.qs, s'.qs, |s.vs|, x);
    case Sleepers(now, rd) =>
      hide Examined, WokeAll;
      ExaminedMoves(s.qs, s'.qs, |s.vs|, s'.cpu, s.time, s'.time, now);
    case Wakeups(k, rd) =>
      hide Drained, WokeAll;
      DrainedMoves(s.qs, s'.qs, |s.vs|, k, s'.cpu);
    case Rebind(x, v) =>
    case JobWakeup(x, T, rd) => AppendMoves(s.qs, s'.qs, s'.cpu[x], x);
  }

  /** The deeds of a run. */
  ghost function Deeds(rows: seq<State>, os: seq<Op>): (ds: seq<Deed>)
    requires |rows| == |os| + 1
    ensures |ds| == |os| && forall n :: 0 <= n < |os| ==> ds[n] == DeedOf(rows[n], os[n], rows[n + 1])
  {
    seq(|os|, n requires 0 <= n < |os| => DeedOf(rows[n], os[n], rows[n + 1]))
  }

  ghost function QueuesOf(rows: seq<State>): (qss: seq<seq<seq<int>>>)
    ensures |qss| == |rows| && forall n :: 0 <= n < |rows| ==> qss[n] == rows[n].qs
  {
    seq(|rows|, n requires 0 <= n < |rows| => rows[n].qs)
  }

  /** Over every run of the scheduler a task is on a queue iff it was put on one
      after it last ran. */
  lemma {:induction false} RunLosesNoTask(rows: seq<State>, os: seq<Op>, x: int)
    requires IsRun(rows, os)
    ensures OnNone(rows[|os|].qs, x) <==> !Waits(Deeds(rows, os), x, !OnNone(rows[0].qs, x))
  {
    var qss, ds := QueuesOf(rows), Deeds(rows, os);
    forall n | 0 <= n < |ds|
      ensures Did(qss[n], ds[n], qss[n + 1])
    {
      StepMoves(rows[n], os[n], rows[n + 1]);
    }
    hide Did, Stepped, OnNone, Ok;
    NoTaskLost(qss, ds, x);
  }
}
