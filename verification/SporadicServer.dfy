/** The budget arithmetic of a MAIN VCPU (a sporadic server) on values: the
    replenishment queue as a sequence, one function per hook, and what every
    run of the hooks keeps.  Clock readings are parameters, 64-bit wrap-around
    is not modelled. */
module SporadicServer {

  const MAX_REPL: nat := 32

  /** `b` time units become available at time `t`. */
  datatype Repl = Repl(t: nat, b: nat)

  /** The MAIN VCPU fields that the hooks read and write. */
  datatype Server = Server(C: nat, T: nat, q: seq<Repl>, usage: nat)

  function Sum(q: seq<Repl>): nat {
    if q == [] then 0 else q[0].b + Sum(q[1..])
  }

  predicate Positive(q: seq<Repl>) {
    forall i :: 0 <= i < |q| ==> q[i].t > 0 && q[i].b > 0
  }

  predicate Sorted(q: seq<Repl>) {
    |q| > 1 ==> q[0].t <= q[1].t && Sorted(q[1..])
  }

  /** What the kernel's own (compiled-out) checker demands of a MAIN VCPU,
      strengthened to be inductive. */
  predicate Inv(s: Server) {
    && s.T > 0
    && 1 <= |s.q| <= MAX_REPL
    && Positive(s.q)
    && Sum(s.q) == s.C
    && s.usage < s.q[0].b
    && Sorted(s.q[1..])
  }

  // ----- queue operations

  /** Insert before the first entry that is not earlier. */
  function Insert(q: seq<Repl>, r: Repl): (q': seq<Repl>)
    ensures |q'| == |q| + 1
  {
    if q == [] || q[0].t >= r.t then [r] + q else [q[0]] + Insert(q[1..], r)
  }

  /** A full queue drops the addition. */
  function Add(q: seq<Repl>, b: nat, t: nat): seq<Repl> {
    if |q| < MAX_REPL then Insert(q, Repl(t, b)) else q
  }

  /** Pop the head and give its amount and time to the next entry. */
  function MergeHead(q: seq<Repl>): seq<Repl>
    requires |q| > 1
  {
    [Repl(q[0].t, q[0].b + q[1].b)] + q[2..]
  }

  /** Insertion adds exactly the new entry and keeps time order. */
  lemma {:induction false} InsertKeeps(q: seq<Repl>, r: Repl)
    ensures Sum(Insert(q, r)) == Sum(q) + r.b
    ensures multiset(Insert(q, r)) == multiset(q) + multiset{r}
  {
    if q == [] || q[0].t >= r.t {
      assert ([r] + q)[1..] == q;
    } else {
      InsertKeeps(q[1..], r);
      assert q == [q[0]] + q[1..];
      assert ([q[0]] + Insert(q[1..], r))[1..] == Insert(q[1..], r);
    }
  }

  lemma {:induction false} InsertPositive(q: seq<Repl>, r: Repl)
    requires Positive(q) && r.t > 0 && r.b > 0
    ensures Positive(Insert(q, r))
  {
    if q != [] && q[0].t < r.t { InsertPositive(q[1..], r); }
  }

  lemma {:induction false} InsertSorted(q: seq<Repl>, r: Repl)
    requires Sorted(q)
    ensures Sorted(Insert(q, r))
  {
    if q == [] || q[0].t >= r.t {
      assert ([r] + q)[1..] == q;
    } else {
      InsertSorted(q[1..], r);
      assert ([q[0]] + Insert(q[1..], r))[1..] == Insert(q[1..], r);
    }
  }

  /** An entry later than the head goes into the tail, which stays in order. */
  lemma {:induction false} InsertTail(q: seq<Repl>, r: Repl)
    requires q != [] && q[0].t < r.t && Sorted(q[1..])
    ensures Sorted(Insert(q, r)[1..]) && Insert(q, r)[0] == q[0]
  {
    InsertSorted(q[1..], r);
    assert Insert(q, r)[1..] == Insert(q[1..], r);
  }

  lemma {:induction false} SortedFrom(q: seq<Repl>, k: nat)
    requires Sorted(q) && k <= |q|
    ensures Sorted(q[k..])
    decreases k
  {
    if k > 0 {
      SortedFrom(q[1..], k - 1);
      assert q[k..] == q[1..][k - 1..];
    }
  }

  lemma {:induction false} MergeKeeps(q: seq<Repl>)
    requires |q| > 1
    ensures Sum(MergeHead(q)) == Sum(q)
  {
    var m := Repl(q[0].t, q[0].b + q[1].b);
    assert MergeHead(q)[1..] == q[2..];
    assert q[1..][1..] == q[2..];
  }

  /** repl_merge, which is defined and never called: merge the head while the
      next entry is reached without a gap. */
  function MergeAll(q: seq<Repl>): (r: seq<Repl>)
    ensures |r| <= |q| && Sum(r) == Sum(q)
    ensures |r| > 1 ==> r[0].t + r[0].b < r[1].t
    decreases |q|
  {
    if |q| > 1 && q[0].t + q[0].b >= q[1].t then MergeKeeps(q); MergeAll(MergeHead(q)) else q
  }

  // ----- the hooks

  function Capacity(s: Server, now: nat): int {
    if s.q == [] || s.q[0].t > now then 0 else s.q[0].b - s.usage
  }

  /** The exhaust-and-reschedule loop of budget_check. */
  function Exhaust(q: seq<Repl>, usage: nat, T: nat): (r: (seq<Repl>, nat))
    requires 1 <= |q| <= MAX_REPL && Positive(q)
    ensures |r.0| == |q| && Positive(r.0)
    ensures Sum(r.0) == Sum(q)
    ensures r.1 < r.0[0].b && r.1 <= usage
    decreases usage
  {
    if q[0].b <= usage then
      InsertKeeps(q[1..], Repl(q[0].t + T, q[0].b));
      InsertPositive(q[1..], Repl(q[0].t + T, q[0].b));
      Exhaust(Add(q[1..], q[0].b, q[0].t + T), usage - q[0].b, T)
    else
      (q, usage)
  }

  /** Push the head back by the overrun and merge at most once. */
  function Overrun(q: seq<Repl>, usage: nat): seq<Repl>
    requires q != []
  {
    var q' := [Repl(q[0].t + usage, q[0].b)] + q[1..];
    if |q'| > 1 && q'[0].t + q'[0].b >= q'[1].t then MergeHead(q') else q'
  }

  function BudgetCheck(s: Server, now: nat): Server
    requires 1 <= |s.q| <= MAX_REPL && Positive(s.q)
  {
    if Capacity(s, now) <= 0 then
      var (q, u) := Exhaust(s.q, s.usage, s.T);
      s.(q := if u > 0 then Overrun(q, u) else q, usage := u)
    else s
  }

  /** Leave the remnant as a reduced head, or give it to the next entry when
      no slot is left for the used part. */
  function SplitHead(q: seq<Repl>, remnant: nat): seq<Repl>
    requires 1 <= |q| <= MAX_REPL
  {
    if |q| == MAX_REPL then [Repl(q[1].t, q[1].b + remnant)] + q[2..]
    else [Repl(q[0].t, remnant)] + q[1..]
  }

  /** Charge `usage` to the head: the used part is due one period later. */
  function Split(q: seq<Repl>, usage: nat, T: nat): seq<Repl>
    requires 1 <= |q| <= MAX_REPL && usage < q[0].b
  {
    var q' := SplitHead(q, q[0].b - usage);
    Add(q', usage, q'[0].t + T)
  }

  function SplitCheck(s: Server, now: nat): Server
    requires 1 <= |s.q| <= MAX_REPL && s.usage < s.q[0].b
  {
    if s.usage > 0 && s.q[0].t <= now
    then s.(q := Split(s.q, s.usage, s.T), usage := 0)
    else s
  }

  /** The merge loop of unblock_check; the head already sits at `now`. */
  function Coalesce(q: seq<Repl>, usage: nat, now: nat): (r: seq<Repl>)
    requires q != [] && usage < q[0].b && q[0].t == now
    ensures 1 <= |r| <= |q|
    ensures Sum(r) == Sum(q)
    ensures Positive(q) ==> Positive(r)
    ensures r[0].t == now && r[0].b >= q[0].b
    ensures r[1..] == q[|q| - |r| + 1..]
    ensures |r| > 1 ==> r[1].t > now + r[0].b - usage
    decreases |q|
  {
    if |q| > 1 && q[1].t <= now + q[0].b - usage then
      MergeKeeps(q);
      assert MergeHead(q)[1..] == q[2..];
      Coalesce(MergeHead(q), usage, now)
    else
      q
  }

  function UnblockCheck(s: Server, now0: nat, now1: nat): Server
    requires s.q != [] && s.usage < s.q[0].b
  {
    if Capacity(s, now0) > 0 then
      s.(q := Coalesce([Repl(now1, s.q[0].b)] + s.q[1..], s.usage, now1))
    else s
  }

  /** main_vcpu_end_timeslice; the hook reads the clock three times. */
  function EndTimeslice(s: Server, tdelta: nat, runnable: bool, n0: nat, n1: nat): Server
    requires Inv(s)
  {
    var s1 := BudgetCheck(s.(usage := s.usage + tdelta), n0);
    BudgetKeeps(s.(usage := s.usage + tdelta), n0);
    if runnable then s1 else SplitCheck(s1, n1)
  }

  /** The budget field as main_vcpu_update_replenishments sets it. */
  function Budget(s: Server, now: nat): nat {
    if Capacity(s, now) > 0 then Capacity(s, now) else 0
  }

  /** main_vcpu_next_event: the first replenishment in queue order that is still
      to come, 0 for none. */
  function FirstAfter(q: seq<Repl>, now: nat): (e: nat)
    ensures e == 0 <==> forall i :: 0 <= i < |q| ==> q[i].t <= now
    ensures e != 0 ==> e > now && exists i :: 0 <= i < |q| && q[i].t == e
  {
    if q == [] then 0
    else if now < q[0].t then q[0].t
    else
      var e := FirstAfter(q[1..], now);
      assert forall i :: 0 < i < |q| ==> q[i] == q[1..][i - 1];
      assert forall i :: 0 <= i < |q[1..]| ==> q[1..][i] == q[i + 1];
      e
  }

  lemma {:induction false} HeadEarliest(q: seq<Repl>, i: nat)
    requires Sorted(q) && i < |q|
    ensures q[0].t <= q[i].t
    decreases i
  {
    if i > 0 { HeadEarliest(q[1..], i - 1); }
  }

  /** In a queue in time order that is the earliest time still to come. */
  lemma {:induction false} FirstIsEarliest(q: seq<Repl>, now: nat, i: nat)
    requires Sorted(q) && i < |q| && q[i].t > now
    ensures 0 < FirstAfter(q, now) <= q[i].t
    decreases i
  {
    if q[0].t <= now {
      FirstIsEarliest(q[1..], now, i - 1);
    } else {
      HeadEarliest(q, i);
    }
  }

  /** Every run keeps the tail in time order, but an overrun may push the head
      past it.  The reported event is the earliest one still to come iff a head
      that is still to come is no later than any other such entry. */
  lemma {:induction false} EarliestIff(q: seq<Repl>, now: nat)
    requires q != [] && Sorted(q[1..])
    ensures (forall i :: 0 <= i < |q| && q[i].t > now ==> FirstAfter(q, now) <= q[i].t)
       <==> (forall i :: 0 < i < |q| && q[0].t > now && q[i].t > now ==> q[0].t <= q[i].t)
  {
    var r := q[1..];
    assert forall i :: 1 <= i < |q| ==> q[i] == r[i - 1];
    forall i | 1 <= i < |q| && q[i].t > now
      ensures 0 < FirstAfter(r, now) <= q[i].t
    {
      FirstIsEarliest(r, now, i - 1);
    }
  }

  // ----- every step keeps the invariant

  lemma {:induction false} OverrunKeeps(q: seq<Repl>, usage: nat)
    requires q != [] && Positive(q) && usage < q[0].b
    ensures var r := Overrun(q, usage);
            1 <= |r| <= |q| && Positive(r) && Sum(r) == Sum(q) && usage < r[0].b
  {
    var q' := [Repl(q[0].t + usage, q[0].b)] + q[1..];
    assert q'[1..] == q[1..];
    if |q'| > 1 { MergeKeeps(q'); }
  }

  /** Exhausting keeps the tail in order, and once the head has been
      rescheduled the whole queue is. */
  lemma {:induction false} ExhaustSorted(q: seq<Repl>, usage: nat, T: nat)
    requires 1 <= |q| <= MAX_REPL && Positive(q) && Sorted(q[1..])
    ensures var r := Exhaust(q, usage, T).0; Sorted(r[1..]) && (q[0].b <= usage ==> Sorted(r))
    decreases usage
  {
    if q[0].b <= usage {
      var e := Repl(q[0].t + T, q[0].b);
      var q' := Insert(q[1..], e);
      InsertSorted(q[1..], e);
      InsertPositive(q[1..], e);
      SortedFrom(q', 1);
      assert Add(q[1..], e.b, e.t) == q';
      ExhaustSorted(q', usage - q[0].b, T);
    }
  }

  lemma {:induction false} OverrunSorted(q: seq<Repl>, usage: nat)
    requires q != [] && Sorted(q[1..])
    ensures Sorted(Overrun(q, usage)[1..])
  {
    var q' := [Repl(q[0].t + usage, q[0].b)] + q[1..];
    assert q'[1..] == q[1..];
    if |q| > 1 {
      SortedFrom(q[1..], 1);
      assert MergeHead(q')[1..] == q[1..][1..];
    }
  }

  lemma {:induction false} BudgetKeeps(s: Server, now: nat)
    requires Inv(s.(usage := 0))
    ensures Inv(BudgetCheck(s, now))
  {
    hide Sorted, Sum, Positive, Insert;
    if Capacity(s, now) <= 0 {
      var (q, u) := Exhaust(s.q, s.usage, s.T);
      ExhaustSorted(s.q, s.usage, s.T);
      if u > 0 {
        OverrunKeeps(q, u);
        OverrunSorted(q, u);
      }
    }
  }

  lemma {:induction false} SplitQueueKeeps(q: seq<Repl>, usage: nat, T: nat)
    requires 1 <= |q| <= MAX_REPL && Positive(q) && 0 < usage < q[0].b
    ensures var r := Split(q, usage, T);
            1 <= |r| <= MAX_REPL && Positive(r) && Sum(r) == Sum(q)
  {
    SplitHeadKeeps(q, q[0].b - usage);
    var q' := SplitHead(q, q[0].b - usage);
    var e := Repl(q'[0].t + T, usage);
    hide Sum, Positive, Insert;
    InsertKeeps(q', e);
    HeadPositive(q');
    InsertPositive(q', e);
  }

  lemma HeadPositive(q: seq<Repl>)
    requires q != [] && Positive(q)
    ensures q[0].t > 0
  {
  }

  lemma {:induction false} SplitSorted(q: seq<Repl>, usage: nat, T: nat)
    requires 1 <= |q| <= MAX_REPL && Sorted(q[1..]) && usage < q[0].b && T > 0
    ensures Sorted(Split(q, usage, T)[1..])
  {
    var q' := SplitHead(q, q[0].b - usage);
    SplitHeadTail(q, q[0].b - usage);
    InsertTail(q', Repl(q'[0].t + T, usage));
  }

  lemma {:induction false} SplitHeadTail(q: seq<Repl>, remnant: nat)
    requires 1 <= |q| <= MAX_REPL && Sorted(q[1..])
    ensures 1 <= |SplitHead(q, remnant)| < MAX_REPL && Sorted(SplitHead(q, remnant)[1..])
  {
    var r := SplitHead(q, remnant);
    if |q| == MAX_REPL {
      SortedFrom(q[1..], 1);
      assert r[1..] == q[1..][1..];
    } else {
      assert r[1..] == q[1..];
    }
  }

  lemma {:induction false} SplitKeeps(s: Server, now: nat)
    requires Inv(s)
    ensures Inv(SplitCheck(s, now))
  {
    hide Sum, Positive, Sorted, Split;
    if s.usage > 0 && s.q[0].t <= now {
      SplitQueueKeeps(s.q, s.usage, s.T);
      SplitSorted(s.q, s.usage, s.T);
      SplitPositiveHead(s.q, s.usage, s.T);
    }
  }

  lemma SplitPositiveHead(q: seq<Repl>, usage: nat, T: nat)
    requires 1 <= |q| <= MAX_REPL && Positive(q) && 0 < usage < q[0].b
    ensures 1 <= |Split(q, usage, T)| && Split(q, usage, T)[0].b > 0
  {
    SplitQueueKeeps(q, usage, T);
  }

  lemma {:induction false} SplitHeadKeeps(q: seq<Repl>, remnant: nat)
    requires 1 <= |q| <= MAX_REPL && Positive(q) && 0 < remnant <= q[0].b
    ensures var r := SplitHead(q, remnant);
            1 <= |r| < MAX_REPL && Positive(r) && Sum(r) == Sum(q) - q[0].b + remnant
  {
    var r := SplitHead(q, remnant);
    if |q| == MAX_REPL {
      assert r[1..] == q[1..][1..];
    } else {
      assert r[1..] == q[1..];
    }
  }

  lemma {:induction false} UnblockKeeps(s: Server, now0: nat, now1: nat)
    requires Inv(s) && now1 > 0
    ensures Inv(UnblockCheck(s, now0, now1))
  {
    var q := [Repl(now1, s.q[0].b)] + s.q[1..];
    assert q[1..] == s.q[1..];
    if Capacity(s, now0) > 0 {
      var r := Coalesce(q, s.usage, now1);
      SortedFrom(s.q[1..], |q| - |r|);
      assert q[|q| - |r| + 1..] == s.q[1..][|q| - |r|..];
    }
  }

  datatype Event =
    | Slice(tdelta: nat, runnable: bool, n0: nat, n1: nat)
    | Unblock(now0: nat, now1: nat)

  predicate ValidEvent(e: Event) {
    e.Unblock? ==> e.now1 > 0
  }

  function Step(s: Server, e: Event): (s': Server)
    requires Inv(s) && ValidEvent(e)
    ensures s'.C == s.C && s'.T == s.T
  {
    match e
    case Slice(d, runnable, n0, n1) => EndTimeslice(s, d, runnable, n0, n1)
    case Unblock(n0, n1) => UnblockCheck(s, n0, n1)
  }

  lemma {:induction false} SliceKeeps(s: Server, d: nat, runnable: bool, n0: nat, n1: nat)
    requires Inv(s)
    ensures Inv(EndTimeslice(s, d, runnable, n0, n1))
  {
    hide Sum, Positive, Sorted, BudgetCheck, SplitCheck;
    var s1 := BudgetCheck(s.(usage := s.usage + d), n0);
    BudgetKeeps(s.(usage := s.usage + d), n0);
    if !runnable { SplitKeeps(s1, n1); }
  }

  lemma {:induction false} StepKeeps(s: Server, e: Event)
    requires Inv(s) && ValidEvent(e)
    ensures Inv(Step(s, e))
  {
    match e
    case Slice(d, runnable, n0, n1) => SliceKeeps(s, d, runnable, n0, n1);
    case Unblock(n0, n1) => UnblockKeeps(s, n0, n1);
  }

  /** The state that vcpu_init leaves. */
  function Init(C: nat, T: nat, t0: nat): Server {
    Server(C, T, Add([], C, t0), 0)
  }

  function Run(s: Server, es: seq<Event>): Server
    requires Inv(s) && forall i :: 0 <= i < |es| ==> ValidEvent(es[i])
    decreases |es|
  {
    if |es| == 0 then s else StepKeeps(s, es[0]); Run(Step(s, es[0]), es[1..])
  }

  /** Conservation over every run: whatever the slices, blocks, unblocks and
      clock readings, the replenishments sum to C, are positive, at most
      MAX_REPL in number, in time order behind the head, and usage stays below
      the head amount. */
  lemma {:induction false} EveryRunConserves(s: Server, es: seq<Event>)
    requires Inv(s) && forall i :: 0 <= i < |es| ==> ValidEvent(es[i])
    ensures Inv(Run(s, es)) && Sum(Run(s, es).q) == s.C
    decreases |es|
  {
    if |es| != 0 { StepKeeps(s, es[0]); EveryRunConserves(Step(s, es[0]), es[1..]); }
  }

  lemma {:induction false} RunFromInit(C: nat, T: nat, t0: nat, es: seq<Event>)
    requires C > 0 && T > 0 && t0 > 0 && forall i :: 0 <= i < |es| ==> ValidEvent(es[i])
    ensures Inv(Init(C, T, t0)) && Inv(Run(Init(C, T, t0), es)) && Sum(Run(Init(C, T, t0), es).q) == C
  {
    assert Init(C, T, t0).q == [Repl(t0, C)];
    EveryRunConserves(Init(C, T, t0), es);
  }

  /** A run from vcpu_init that ends with a slice which overruns by 4 and
      leaves the head, due at 23, in front of an entry due at 22: at time 20 the
      later of the two is reported. */
  lemma EarlierEventMissed()
    ensures var es := [Slice(11, true, 12, 12), Slice(1, false, 13, 13), Unblock(13, 13),
                       Slice(1, false, 14, 14), Unblock(15, 15), Slice(5, true, 20, 20)];
            && Inv(Init(7, 7, 1))
            && Run(Init(7, 7, 1), es) == Server(7, 7, [Repl(23, 6), Repl(22, 1)], 4)
            && FirstAfter([Repl(23, 6), Repl(22, 1)], 20) == 23
  {
    hide Run, Init, Inv, Step, Sum, Positive, Sorted;
    var e1, e2, e3 := Slice(11, true, 12, 12), Slice(1, false, 13, 13), Unblock(13, 13);
    var e4, e5, e6 := Slice(1, false, 14, 14), Unblock(15, 15), Slice(5, true, 20, 20);
    var s0, s1 := Init(7, 7, 1), Server(7, 7, [Repl(12, 7)], 4);
    var s2, s3 := Server(7, 7, [Repl(12, 2), Repl(19, 5)], 0), Server(7, 7, [Repl(13, 2), Repl(19, 5)], 0);
    var s4 := Server(7, 7, [Repl(13, 1), Repl(19, 5), Repl(20, 1)], 0);
    var s5 := Server(7, 7, [Repl(15, 1), Repl(19, 5), Repl(20, 1)], 0);
    Missed1();
    Missed2();
    Missed3();
    Missed4();
    Missed5();
    Missed6();
    RunFirst(s0, e1, [e2, e3, e4, e5, e6]);
    RunFirst(s1, e2, [e3, e4, e5, e6]);
    RunFirst(s2, e3, [e4, e5, e6]);
    RunFirst(s3, e4, [e5, e6]);
    RunFirst(s4, e5, [e6]);
    RunFirst(s5, e6, []);
    assert [e1] + [e2, e3, e4, e5, e6] == [e1, e2, e3, e4, e5, e6] && [e2] + [e3, e4, e5, e6] == [e2, e3, e4, e5, e6];
    assert [e3] + [e4, e5, e6] == [e3, e4, e5, e6] && [e4] + [e5, e6] == [e4, e5, e6];
    assert [e5] + [e6] == [e5, e6] && [e6] + [] == [e6];
  }

  lemma RunFirst(s: Server, e: Event, es: seq<Event>)
    requires Inv(s) && ValidEvent(e) && forall i :: 0 <= i < |es| ==> ValidEvent(es[i])
    ensures Inv(Step(s, e)) && Run(s, [e] + es) == Run(Step(s, e), es) && Run(s, []) == s
    ensures es == [] ==> Run(s, [e] + es) == Step(s, e)
  {
    StepKeeps(s, e);
    hide Inv, Step;
    assert ([e] + es)[0] == e && ([e] + es)[1..] == es;
  }

  /** Eleven units are the head's seven and four of its next ones. */
  lemma Missed1()
    ensures Inv(Init(7, 7, 1)) && Step(Init(7, 7, 1), Slice(11, true, 12, 12)) == Server(7, 7, [Repl(12, 7)], 4)
  {
    var q, r := [Repl(1, 7)], [Repl(8, 7)];
    assert Init(7, 7, 1) == Server(7, 7, q, 0);
    assert q[1..] == [] && Insert([], Repl(8, 7)) == r;
    assert Exhaust(r, 4, 7) == (r, 4);
    assert Exhaust(q, 11, 7) == (r, 4);
    assert r[1..] == [] && [Repl(12, 7)] + r[1..] == [Repl(12, 7)];
    assert Overrun(r, 4) == [Repl(12, 7)];
  }

  lemma Missed2()
    ensures Inv(Server(7, 7, [Repl(12, 7)], 4))
    ensures Step(Server(7, 7, [Repl(12, 7)], 4), Slice(1, false, 13, 13)) == Server(7, 7, [Repl(12, 2), Repl(19, 5)], 0)
  {
    var q := [Repl(12, 7)];
    assert q[1..] == [] && [Repl(12, 2)] + q[1..] == [Repl(12, 2)] && [Repl(12, 2)][1..] == [];
    assert Insert([Repl(12, 2)], Repl(19, 5)) == [Repl(12, 2), Repl(19, 5)];
    assert Split(q, 5, 7) == [Repl(12, 2), Repl(19, 5)];
  }

  lemma Missed3()
    ensures Inv(Server(7, 7, [Repl(12, 2), Repl(19, 5)], 0))
    ensures Step(Server(7, 7, [Repl(12, 2), Repl(19, 5)], 0), Unblock(13, 13))
            == Server(7, 7, [Repl(13, 2), Repl(19, 5)], 0)
  {
    var q, r := [Repl(12, 2), Repl(19, 5)], [Repl(13, 2), Repl(19, 5)];
    assert q[1..] == [Repl(19, 5)] && q[1..][1..] == [];
    assert [Repl(13, 2)] + q[1..] == r;
    assert Coalesce(r, 0, 13) == r;
  }

  lemma Missed4()
    ensures Inv(Server(7, 7, [Repl(13, 2), Repl(19, 5)], 0))
    ensures Step(Server(7, 7, [Repl(13, 2), Repl(19, 5)], 0), Slice(1, false, 14, 14))
            == Server(7, 7, [Repl(13, 1), Repl(19, 5), Repl(20, 1)], 0)
  {
    var q, r := [Repl(13, 2), Repl(19, 5)], [Repl(13, 1), Repl(19, 5)];
    assert q[1..] == [Repl(19, 5)] && q[1..][1..] == [];
    assert [Repl(13, 1)] + q[1..] == r && r[1..] == [Repl(19, 5)] && r[1..][1..] == [];
    assert Insert([Repl(19, 5)], Repl(20, 1)) == [Repl(19, 5), Repl(20, 1)];
    assert Insert(r, Repl(20, 1)) == [Repl(13, 1), Repl(19, 5), Repl(20, 1)];
    assert Split(q, 1, 7) == [Repl(13, 1), Repl(19, 5), Repl(20, 1)];
  }

  lemma Missed5()
    ensures Inv(Server(7, 7, [Repl(13, 1), Repl(19, 5), Repl(20, 1)], 0))
    ensures Step(Server(7, 7, [Repl(13, 1), Repl(19, 5), Repl(20, 1)], 0), Unblock(15, 15))
            == Server(7, 7, [Repl(15, 1), Repl(19, 5), Repl(20, 1)], 0)
  {
    var q, r := [Repl(13, 1), Repl(19, 5), Repl(20, 1)], [Repl(15, 1), Repl(19, 5), Repl(20, 1)];
    assert q[1..] == [Repl(19, 5), Repl(20, 1)] && q[1..][1..] == [Repl(20, 1)] && q[1..][1..][1..] == [];
    assert Sum([Repl(20, 1)]) == 1 && Sum(q[1..]) == 6;
    assert [Repl(15, 1)] + q[1..] == r;
    assert Coalesce(r, 0, 15) == r;
  }

  lemma Missed6()
    ensures var s := Server(7, 7, [Repl(15, 1), Repl(19, 5), Repl(20, 1)], 0);
            Inv(s) && Step(s, Slice(5, true, 20, 20)) == Server(7, 7, [Repl(23, 6), Repl(22, 1)], 4)
  {
    var q := [Repl(15, 1), Repl(19, 5), Repl(20, 1)];
    var r := [Repl(19, 5), Repl(20, 1), Repl(22, 1)];
    MissedQueue();
    assert Overrun(r, 4) == [Repl(23, 6), Repl(22, 1)] by {
      var p := [Repl(23, 5), Repl(20, 1), Repl(22, 1)];
      assert r[1..] == [Repl(20, 1), Repl(22, 1)] && [Repl(23, 5)] + r[1..] == p;
      assert p[2..] == [Repl(22, 1)];
    }
    hide Exhaust, Overrun, Insert, Sum, Sorted, Positive;
  }

  lemma MissedQueue()
    ensures var q := [Repl(15, 1), Repl(19, 5), Repl(20, 1)];
            && Positive(q) && Sum(q) == 7 && Sorted(q[1..])
            && Exhaust(q, 5, 7) == ([Repl(19, 5), Repl(20, 1), Repl(22, 1)], 4)
  {
    var q := [Repl(15, 1), Repl(19, 5), Repl(20, 1)];
    var r := [Repl(19, 5), Repl(20, 1), Repl(22, 1)];
    assert q[1..] == [Repl(19, 5), Repl(20, 1)] && q[1..][1..] == [Repl(20, 1)] && q[1..][1..][1..] == [];
    assert Insert([], Repl(22, 1)) == [Repl(22, 1)];
    assert Insert([Repl(20, 1)], Repl(22, 1)) == [Repl(20, 1), Repl(22, 1)];
    assert Insert(q[1..], Repl(22, 1)) == r;
    assert Sum([Repl(20, 1)]) == 1 && Sum(q[1..]) == 6;
    assert Exhaust(r, 4, 7) == (r, 4);
  }
}
