/** What a MAIN VCPU's replenishment queue means in time.  First, merging
    replenishments ("observation 3") does not change the work a backlogged
    server can do.  Second, the bound the sporadic server exists for: the time
    it consumes never exceeds the supply of a periodic server with the same
    budget and period by more than the time by which it overran its grants. */
module ServerSupply {
  import opened SporadicServer

  function Max(a: int, b: int): int {
    if a >= b then a else b
  }

  function Clamp(d: int, b: nat): nat {
    if d <= 0 then 0 else if d <= b then d else b
  }

  // ----- merging preserves the work function

  /** Work done by time `x` when entries are served in order, entry i starting
      at the later of its own time and the end of entry i-1 (`f` at first). */
  function Work(q: seq<Repl>, f: int, x: int): nat {
    if q == [] then 0
    else
      var start := Max(f, q[0].t);
      Clamp(x - start, q[0].b) + Work(q[1..], start + q[0].b, x)
  }

  /** The queue with the consumed part of the head taken out. */
  function Remaining(q: seq<Repl>, usage: nat): seq<Repl>
    requires q != [] && usage <= q[0].b
  {
    [Repl(q[0].t, q[0].b - usage)] + q[1..]
  }

  lemma {:induction false} WorkTwo(q: seq<Repl>, f: int, x: int)
    requires |q| > 1
    ensures Work(q, f, x) ==
            var s := Max(f, q[0].t);
            var s1 := Max(s + q[0].b, q[1].t);
            Clamp(x - s, q[0].b) + Clamp(x - s1, q[1].b) + Work(q[2..], s1 + q[1].b, x)
  {
    assert q[1..][1..] == q[2..];
    assert q[1..][0] == q[1];
  }

  /** Observation 3 on the amounts the queue records. */
  lemma {:induction false} MergePreservesWork(q: seq<Repl>, f: int, x: int)
    requires |q| > 1 && q[0].t + q[0].b >= q[1].t
    ensures Work(MergeHead(q), f, x) == Work(q, f, x)
  {
    WorkTwo(q, f, x);
    assert MergeHead(q)[1..] == q[2..];
  }

  /** The whole merge loop changes nothing about the work that can be done. */
  lemma {:induction false} MergeAllPreservesWork(q: seq<Repl>, f: int, x: int)
    ensures Work(MergeAll(q), f, x) == Work(q, f, x)
    decreases |q|
  {
    if |q| > 1 && q[0].t + q[0].b >= q[1].t {
      MergePreservesWork(q, f, x);
      MergeAllPreservesWork(MergeHead(q), f, x);
    }
  }

  lemma {:induction false} MergeNeutral(q: seq<Repl>, usage: nat, f: int, x: int)
    requires |q| > 1 && usage <= q[0].b && Max(f, q[0].t) + q[0].b - usage >= q[1].t
    ensures Work(Remaining(MergeHead(q), usage), f, x) == Work(Remaining(q, usage), f, x)
  {
    WorkTwo(Remaining(q, usage), f, x);
    assert Remaining(MergeHead(q), usage)[1..] == q[2..] == Remaining(q, usage)[2..];
  }

  /** With the consumed part of the head taken out, a merge is neutral exactly
      when the next entry is not later than the end of what remains; otherwise
      it makes supply available too early. */
  lemma {:induction false} MergeNeutralIff(q: seq<Repl>, usage: nat, f: int)
    requires |q| > 1 && usage <= q[0].b && q[1].b > 0
    ensures (forall x :: Work(Remaining(MergeHead(q), usage), f, x) == Work(Remaining(q, usage), f, x))
            <==> Max(f, q[0].t) + q[0].b - usage >= q[1].t
  {
    var r, m := Remaining(q, usage), Remaining(MergeHead(q), usage);
    assert m[1..] == q[2..] == r[2..];
    var s := Max(f, q[0].t);
    if s + q[0].b - usage >= q[1].t {
      forall x ensures Work(m, f, x) == Work(r, f, x) { MergeNeutral(q, usage, f, x); }
    } else {
      var x := s + q[0].b - usage + 1;
      WorkTwo(r, f, x);
      WorkBefore(q[2..], s + q[0].b - usage + q[1].b, x);
      WorkBefore(q[2..], q[1].t + q[1].b, x);
      assert Work(m, f, x) == q[0].b - usage + 1;
      assert Work(r, f, x) == q[0].b - usage;
    }
  }

  lemma {:induction false} WorkBefore(q: seq<Repl>, f: int, x: int)
    requires x <= f
    ensures Work(q, f, x) == 0
  {
    if q != [] { WorkBefore(q[1..], Max(f, q[0].t) + q[0].b, x); }
  }

  /** The head pushed back by the overrun. */
  function Pushed(q: seq<Repl>, u: nat): (p: seq<Repl>)
    requires q != []
    ensures |p| == |q|
  {
    [Repl(q[0].t + u, q[0].b)] + q[1..]
  }

  /** The test of budget_check lets through a merge across a gap: it compares
      t + b with the next time although u of b is already used. */
  predicate Premature(p: seq<Repl>, u: nat, f: int) {
    |p| > 1 && p[0].t + p[0].b >= p[1].t && Max(f, p[0].t) + p[0].b - u < p[1].t
  }

  /** Pushing back and merging leaves the work that can be done unchanged iff
      the merge is not across a gap. */
  lemma {:induction false} OverrunNeutralIff(q: seq<Repl>, u: nat, f: int)
    requires q != [] && Positive(q) && u < q[0].b
    ensures Overrun(q, u) != [] && u < Overrun(q, u)[0].b
    ensures (forall x :: Work(Remaining(Overrun(q, u), u), f, x) == Work(Remaining(Pushed(q, u), u), f, x))
            <==> !Premature(Pushed(q, u), u, f)
  {
    var p := Pushed(q, u);
    OverrunKeeps(q, u);
    if |p| > 1 && p[0].t + p[0].b >= p[1].t {
      assert p[1].b > 0;
      MergeNeutralIff(p, u, f);
    }
  }

  /** The same for the hook: after the exhausted heads have been rescheduled,
      budget_check preserves work iff its merge is not across a gap. */
  lemma {:induction false} BudgetNeutralIff(s: Server, now: nat, f: int)
    requires Inv(s.(usage := 0)) && Capacity(s, now) <= 0 && Exhaust(s.q, s.usage, s.T).1 > 0
    ensures var (q, u) := Exhaust(s.q, s.usage, s.T);
            var r := BudgetCheck(s, now);
            && r.usage == u && r.q != [] && u < r.q[0].b
            && ((forall x :: Work(Remaining(r.q, u), f, x) == Work(Remaining(Pushed(q, u), u), f, x))
                <==> !Premature(Pushed(q, u), u, f))
  {
    var (q, u) := Exhaust(s.q, s.usage, s.T);
    OverrunNeutralIff(q, u, f);
    hide Exhaust, Work, Overrun, Premature;
  }

  /** A run from vcpu_init that ends in such a merge.  A server with C = 3 and
      T = 5 uses 2 and blocks at 3, is unblocked at 4 with 1 left, and then runs
      for 2: one unit too long.  Merging the units due at 7 and at 9 lets two
      units be used by time 9 where the replenishments supply one. */
  lemma PrematureMergeExample()
    ensures var es := [Slice(2, false, 3, 3), Unblock(4, 4), Slice(2, true, 6, 6)];
            && Inv(Init(3, 5, 1))
            && Run(Init(3, 5, 1), es) == Server(3, 5, [Repl(7, 3)], 1)
            && BudgetCheck(Server(3, 5, [Repl(4, 1), Repl(6, 2)], 2), 6) == Server(3, 5, [Repl(7, 3)], 1)
    ensures Exhaust([Repl(4, 1), Repl(6, 2)], 2, 5) == ([Repl(6, 2), Repl(9, 1)], 1)
    ensures Pushed([Repl(6, 2), Repl(9, 1)], 1) == [Repl(7, 2), Repl(9, 1)]
    ensures Premature([Repl(7, 2), Repl(9, 1)], 1, 7)
    ensures Work(Remaining([Repl(7, 3)], 1), 7, 9) == 2 && Work(Remaining([Repl(7, 2), Repl(9, 1)], 1), 7, 9) == 1
  {
    PrematureRun();
    var p := [Repl(7, 2), Repl(9, 1)];
    WorkTwo(Remaining(p, 1), 7, 9);
    assert Remaining(p, 1)[2..] == [];
    assert Remaining([Repl(7, 3)], 1)[1..] == [];
  }

  lemma ExampleSplit()
    ensures EndTimeslice(Server(3, 5, [Repl(1, 3)], 0), 2, false, 3, 3) == Server(3, 5, [Repl(1, 1), Repl(6, 2)], 0)
    ensures Inv(Server(3, 5, [Repl(1, 3)], 0)) && Inv(Server(3, 5, [Repl(1, 1), Repl(6, 2)], 0))
  {
    assert [Repl(1, 3)][1..] == [];
    assert Insert([], Repl(6, 2)) == [Repl(6, 2)];
    assert [Repl(1, 1)][1..] == [];
    assert Insert([Repl(1, 1)], Repl(6, 2)) == [Repl(1, 1), Repl(6, 2)];
    assert [Repl(1, 1), Repl(6, 2)][1..] == [Repl(6, 2)];
  }

  lemma ExampleUnblock()
    ensures Inv(Server(3, 5, [Repl(1, 1), Repl(6, 2)], 0)) && Inv(Server(3, 5, [Repl(4, 1), Repl(6, 2)], 0))
    ensures UnblockCheck(Server(3, 5, [Repl(1, 1), Repl(6, 2)], 0), 4, 4) == Server(3, 5, [Repl(4, 1), Repl(6, 2)], 0)
  {
    assert [Repl(1, 1), Repl(6, 2)][1..] == [Repl(6, 2)] && [Repl(6, 2)][1..] == [];
    assert [Repl(4, 1), Repl(6, 2)][1..] == [Repl(6, 2)];
  }

  lemma ExampleOverrun()
    ensures Exhaust([Repl(4, 1), Repl(6, 2)], 2, 5) == ([Repl(6, 2), Repl(9, 1)], 1)
    ensures Pushed([Repl(6, 2), Repl(9, 1)], 1) == [Repl(7, 2), Repl(9, 1)]
    ensures Overrun([Repl(6, 2), Repl(9, 1)], 1) == [Repl(7, 3)]
  {
    assert [Repl(4, 1), Repl(6, 2)][1..] == [Repl(6, 2)] && [Repl(6, 2)][1..] == [];
    assert Insert([], Repl(9, 1)) == [Repl(9, 1)];
    assert Insert([Repl(6, 2)], Repl(9, 1)) == [Repl(6, 2), Repl(9, 1)];
    assert Exhaust([Repl(6, 2), Repl(9, 1)], 1, 5) == ([Repl(6, 2), Repl(9, 1)], 1);
    assert [Repl(6, 2), Repl(9, 1)][1..] == [Repl(9, 1)];
    assert [Repl(7, 2), Repl(9, 1)][2..] == [];
  }

  lemma PrematureRun()
    ensures var es := [Slice(2, false, 3, 3), Unblock(4, 4), Slice(2, true, 6, 6)];
            && Inv(Init(3, 5, 1))
            && Run(Init(3, 5, 1), es) == Server(3, 5, [Repl(7, 3)], 1)
            && BudgetCheck(Server(3, 5, [Repl(4, 1), Repl(6, 2)], 2), 6) == Server(3, 5, [Repl(7, 3)], 1)
    ensures Exhaust([Repl(4, 1), Repl(6, 2)], 2, 5) == ([Repl(6, 2), Repl(9, 1)], 1)
    ensures Pushed([Repl(6, 2), Repl(9, 1)], 1) == [Repl(7, 2), Repl(9, 1)]
  {
    var e0, e1, e2 := Slice(2, false, 3, 3), Unblock(4, 4), Slice(2, true, 6, 6);
    assert Init(3, 5, 1) == Server(3, 5, [Repl(1, 3)], 0);
    ExampleSplit();
    ExampleUnblock();
    ExampleOverrun();
    var s0, s1 := Server(3, 5, [Repl(1, 3)], 0), Server(3, 5, [Repl(1, 1), Repl(6, 2)], 0);
    var s2 := Server(3, 5, [Repl(4, 1), Repl(6, 2)], 0);
    assert Step(s0, e0) == s1 && Step(s1, e1) == s2;
    hide Exhaust, Insert, Coalesce, Sum, Sorted, Positive, Split, Overrun;
    assert Step(s2, e2) == Server(3, 5, [Repl(7, 3)], 1);
    assert [e0, e1, e2][1..] == [e1, e2] && [e1, e2][1..] == [e2] && [e2][1..] == [];
  }

  lemma {:induction false} CoalescePreservesWork(q: seq<Repl>, usage: nat, now: nat, x: int)
    requires q != [] && usage < q[0].b && q[0].t == now
    ensures Work(Remaining(Coalesce(q, usage, now), usage), now, x) == Work(Remaining(q, usage), now, x)
    decreases |q|
  {
    if |q| > 1 && q[1].t <= now + q[0].b - usage {
      MergeNeutral(q, usage, now, x);
      CoalescePreservesWork(MergeHead(q), usage, now, x);
    }
  }

  /** Unblocking moves the head up to `now` and merges everything that can be
      reached without a gap; the work a server idle until `now` can do by any
      time is unchanged. */
  lemma {:induction false} UnblockPreservesWork(s: Server, now0: nat, now1: nat, x: int)
    requires Inv(s) && now0 <= now1 && Capacity(s, now0) > 0
    ensures var s' := UnblockCheck(s, now0, now1);
            && s'.usage == s.usage < s'.q[0].b
            && Work(Remaining(s'.q, s.usage), now1, x) == Work(Remaining(s.q, s.usage), now1, x)
  {
    var q := [Repl(now1, s.q[0].b)] + s.q[1..];
    CoalescePreservesWork(q, s.usage, now1, x);
    assert Remaining(q, s.usage)[1..] == Remaining(s.q, s.usage)[1..];
  }

  /** Every entry that unblocking leaves lies strictly beyond the end of what
      remains of the head. */
  lemma {:induction false} UnblockLeavesGap(s: Server, now0: nat, now1: nat, i: nat)
    requires Inv(s) && Capacity(s, now0) > 0
    requires 1 <= i < |UnblockCheck(s, now0, now1).q|
    ensures var q' := UnblockCheck(s, now0, now1).q; q'[i].t > now1 + q'[0].b - s.usage
  {
    hide Coalesce, Sorted, Sum, Positive;
    var q := [Repl(now1, s.q[0].b)] + s.q[1..];
    var r := Coalesce(q, s.usage, now1);
    var k := |q| - |r|;
    assert q[k + 1..] == s.q[1..][k..];
    assert r[i] == r[1..][i - 1] && r[1] == r[1..][0];
    SortedAt(s.q[1..], k, k + i - 1);
  }

  lemma {:induction false} SortedAt(q: seq<Repl>, i: nat, j: nat)
    requires Sorted(q) && i <= j < |q|
    ensures q[i].t <= q[j].t
    decreases j
  {
    if i > 0 {
      SortedAt(q[1..], i - 1, j - 1);
    } else if j > 0 {
      SortedAt(q[1..], 0, j - 1);
    }
  }

  // ----- counting supply

  /** How often a unit that first becomes available `d` before the end of the
      interval, and then again every `T`, can be used. */
  function Times(d: int, T: nat): nat
    requires T > 0
    decreases Max(d, 0)
  {
    if d <= 0 then 0 else 1 + Times(d - T, T)
  }

  /** Uses before `x` of `n` units available one after the other from `e` on. */
  function Units(e: int, n: nat, x: int, T: nat): nat
    requires T > 0
    decreases n
  {
    if n == 0 then 0 else Times(x - e, T) + Units(e + 1, n - 1, x, T)
  }

  /** The supply of a periodic server: C units at t0, t0 + T, t0 + 2T, ... */
  function Periodic(C: nat, T: nat, t0: int, x: int): nat
    requires T > 0
  {
    Units(t0, C, x, T)
  }

  /** Uses before `x` of a whole queue. */
  function Pool(q: seq<Repl>, x: int, T: nat): nat
    requires T > 0
  {
    if q == [] then 0 else Units(q[0].t, q[0].b, x, T) + Pool(q[1..], x, T)
  }

  lemma {:induction false} TimesMono(d: int, d': int, T: nat)
    requires T > 0 && d <= d'
    ensures Times(d, T) <= Times(d', T)
    decreases Max(d, 0)
  {
    if d > 0 { TimesMono(d - T, d' - T, T); }
  }

  lemma {:induction false} UnitsMono(e: int, e': int, n: nat, x: int, T: nat)
    requires T > 0 && e <= e'
    ensures Units(e', n, x, T) <= Units(e, n, x, T)
    decreases n
  {
    if n > 0 {
      TimesMono(x - e', x - e, T);
      UnitsMono(e + 1, e' + 1, n - 1, x, T);
    }
  }

  lemma {:induction false} UnitsSplit(e: int, n: nat, m: nat, x: int, T: nat)
    requires T > 0
    ensures Units(e, n + m, x, T) == Units(e, n, x, T) + Units(e + n, m, x, T)
    decreases n
  {
    if n > 0 { UnitsSplit(e + 1, n - 1, m, x, T); }
  }

  /** Using n units once moves them one period on. */
  lemma {:induction false} UnitsShift(e: int, n: nat, x: int, T: nat)
    requires T > 0 && e + n <= x
    ensures Units(e, n, x, T) == n + Units(e + T, n, x, T)
    decreases n
  {
    if n > 0 { UnitsShift(e + 1, n - 1, x, T); }
  }

  lemma {:induction false} UnitsAtMost(e: int, n: nat, k: nat, x: int, T: nat)
    requires T > 0 && Times(x - e, T) <= k
    ensures Units(e, n, x, T) <= n * k
    decreases n
  {
    if n > 0 {
      TimesMono(x - e - 1, x - e, T);
      UnitsAtMost(e + 1, n - 1, k, x, T);
      MulStep(n, k);
    }
  }

  lemma MulStep(n: int, k: int)
    ensures n * k == (n - 1) * k + k
  {
  }

  /** A run of at most T units becoming available one tick earlier yields at
      most one more use. */
  lemma {:induction false} UnitsAdvance(e: int, k: nat, n: nat, x: int, T: nat)
    requires T > 0 && n <= T
    ensures Units(e, n, x, T) <= Units(e + k, n, x, T) + k
    decreases k
  {
    if k > 0 {
      UnitsAdvance(e + 1, k - 1, n, x, T);
      UnitsEnds(e, n, x, T);
      TimesStep(x - e, n, T);
    }
  }

  lemma {:induction false} UnitsEnds(e: int, n: nat, x: int, T: nat)
    requires T > 0
    ensures Units(e, n, x, T) + Times(x - e - n, T) == Times(x - e, T) + Units(e + 1, n, x, T)
    decreases n
  {
    if n > 0 { UnitsEnds(e + 1, n - 1, x, T); }
  }

  lemma {:induction false} TimesStep(d: int, n: nat, T: nat)
    requires T > 0 && n <= T
    ensures Times(d, T) <= Times(d - n, T) + 1
  {
    if d > 0 { TimesMono(d - T, d - n, T); }
  }

  lemma {:induction false} UnitsBefore(e: int, n: nat, x: int, T: nat)
    requires T > 0 && x <= e
    ensures Units(e, n, x, T) == 0
    decreases n
  {
    if n > 0 { UnitsBefore(e + 1, n - 1, x, T); }
  }

  lemma {:induction false} PoolInsert(q: seq<Repl>, r: Repl, x: int, T: nat)
    requires T > 0
    ensures Pool(Insert(q, r), x, T) == Pool(q, x, T) + Units(r.t, r.b, x, T)
  {
    if q == [] || q[0].t >= r.t {
      assert ([r] + q)[1..] == q;
    } else {
      PoolInsert(q[1..], r, x, T);
      assert ([q[0]] + Insert(q[1..], r))[1..] == Insert(q[1..], r);
    }
  }

  /** Rescheduling exhausted heads makes nothing available earlier. */
  lemma {:induction false} ExhaustPool(q: seq<Repl>, usage: nat, x: int, T: nat)
    requires 1 <= |q| <= MAX_REPL && Positive(q) && T > 0
    ensures Pool(Exhaust(q, usage, T).0, x, T) <= Pool(q, x, T)
    decreases usage
  {
    if q[0].b <= usage {
      var e := Repl(q[0].t + T, q[0].b);
      InsertPositive(q[1..], e);
      PoolInsert(q[1..], e, x, T);
      UnitsMono(q[0].t, e.t, e.b, x, T);
      assert Add(q[1..], e.b, e.t) == Insert(q[1..], e);
      ExhaustPool(Insert(q[1..], e), usage - q[0].b, x, T);
    }
  }

  /** Every entry is at most the whole budget. */
  lemma {:induction false} EntryAtMostSum(q: seq<Repl>, i: nat)
    requires i < |q|
    ensures q[i].b <= Sum(q)
    decreases i
  {
    if i > 0 { EntryAtMostSum(q[1..], i - 1); }
  }

  // ----- the ledger of a run

  /** A server together with the clock, the end of its last slice, the time it
      has consumed, the part of that by which it overran, and how much of the
      head was used before its time. */
  datatype Ledger = Ledger(s: Server, now: nat, end: nat, used: nat, over: nat, early: nat, blocked: bool)

  /** Runs `[start, start + d]`, its capacity having been read at `at`, and then
      ends its slice (clock readings n0 and n1 follow), or is unblocked. */
  datatype Move =
    | Serve(start: nat, at: nat, d: nat, runnable: bool, n0: nat, n1: nat)
    | Resume(now0: nat, now1: nat)

  /** What the scheduler grants: a VCPU is picked only when it has capacity, and
      runs on one processor at a time.  How long it runs is not restricted. */
  predicate Granted(g: Ledger, m: Move)
    requires g.s.q != []
  {
    match m
    case Serve(start, at, d, _, n0, n1) =>
      && !g.blocked && g.end <= start <= at && g.now <= at && Capacity(g.s, at) > 0
      && at <= start + d <= n0 <= n1
    case Resume(n0, n1) => g.blocked && g.now <= n0 <= n1 && n1 > 0
  }

  /** When the rest of the head becomes available; a blocked server cannot use
      it before the present. */
  function Avail(g: Ledger): int
    requires Inv(g.s)
  {
    if g.blocked then Max(g.now, g.s.q[0].t) else g.s.q[0].t + g.s.usage - g.early
  }

  function Min(a: int, b: int): int { if a <= b then a else b }

  /** The part of a slice that the head had available: no more than remained of
      it, and no more than the time since that became available. */
  function Due(g: Ledger, m: Move): int
    requires Inv(g.s) && m.Serve?
  {
    Min(m.d, Min(g.s.q[0].b - g.s.usage, m.start + m.d - Avail(g)))
  }

  /** The slice stays within the head replenishment. */
  predicate Within(g: Ledger, m: Move)
    requires Inv(g.s) && m.Serve?
  {
    g.s.usage + m.d < g.s.q[0].b
  }

  function Move1(g: Ledger, m: Move): Ledger
    requires Sound(g) && Granted(g, m)
  {
    match m
    case Serve(start, at, d, runnable, n0, n1) =>
      var s' := EndTimeslice(g.s, d, runnable, n0, n1);
      var o := d - Due(g, m);
      DueBounds(g, m);
      Ledger(s', n1, start + d, g.used + d, g.over + o,
             if runnable && Within(g, m) then g.early + o else s'.usage, !runnable)
    case Resume(n0, n1) =>
      var s' := UnblockCheck(g.s, n0, n1);
      Ledger(s', n1, g.end, g.used, g.over, s'.usage, false)
  }

  /** What every run keeps.  Only an unblocked head that was pushed back can be
      out of time order, and then there is a slot to spare. */
  predicate Sound(g: Ledger) {
    && Inv(g.s) && g.end <= g.now
    && g.early <= g.s.usage
    && (g.blocked ==> g.early == g.s.usage)
    && (!g.blocked && g.early < g.s.usage ==> g.s.q[0].t + g.s.usage - g.early <= g.now)
    && (InPlace(g.s.q) || (g.blocked && g.s.usage == 0 && g.s.q[0].t <= g.now))
  }

  predicate InPlace(q: seq<Repl>) { |q| == MAX_REPL ==> q[0].t <= q[1].t }

  lemma DueBounds(g: Ledger, m: Move)
    requires Sound(g) && m.Serve? && Granted(g, m)
    ensures Avail(g) <= m.at && 0 <= Due(g, m) <= m.d && Due(g, m) <= g.s.q[0].b - g.s.usage
    ensures Avail(g) + Due(g, m) <= m.start + m.d
  {
  }

  /** Without scheduling overhead the overrun is what exceeds the capacity. */
  lemma OverIs(g: Ledger, m: Move)
    requires Sound(g) && m.Serve? && Granted(g, m) && m.start == m.at
    ensures m.d - Due(g, m) == m.d - Min(m.d, Capacity(g.s, m.at))
  {
    DueBounds(g, m);
  }

  /** Uses before `x` of a queue whose head has `u` used and the rest available
      from `e` on: the used part comes back one period after the head's time. */
  function HeadPool(q: seq<Repl>, u: nat, e: int, x: int, T: nat): nat
    requires T > 0 && q != [] && u <= q[0].b
  {
    Units(q[0].t + T, u, x, T) + Units(e, q[0].b - u, x, T) + Pool(q[1..], x, T)
  }

  /** Uses before `x` still in the queue. */
  function Pending(g: Ledger, x: int): nat
    requires Inv(g.s)
  {
    HeadPool(g.s.q, g.s.usage, Avail(g), x, g.s.T)
  }

  // ----- serving

  /** Serving d units of the head, e of them in time: no more than d - e uses
      are gained. */
  lemma {:induction false} ServeUnits(t: int, b: nat, u: nat, w: nat, d: nat, e: nat, x: int, T: nat)
    requires T > 0 && u + d <= b && e <= d && w <= u && t + u - w + e <= x && (e == d || b <= T + u + d)
    ensures d + Units(t + T, u + d, x, T) + Units(t + u - w + e, b - u - d, x, T)
            <= Units(t + T, u, x, T) + Units(t + u - w, b - u, x, T) + (d - e)
  {
    var a, n := t + u - w, b - u;
    UnitsSplit(t + T, u, d, x, T);
    UnitsSplit(a, e, n - e, x, T);
    UnitsShift(a, e, x, T);
    UnitsSplit(t + T + u, e, d - e, x, T);
    UnitsMono(a + T, t + T + u, e, x, T);
    UnitsSplit(a + e, n - d, d - e, x, T);
    if e < d { UnitsMono(a + e + n - d, t + T + u + e, d - e, x, T); }
  }

  /** A whole head used up and rescheduled. */
  lemma {:induction false} HeadUsed(q: seq<Repl>, u: nat, w: nat, e: nat, x: int, T: nat)
    requires 1 <= |q| <= MAX_REPL && T > 0 && w <= u < q[0].b && e <= q[0].b - u
    requires q[0].t + u - w + e <= x
    ensures var q' := Insert(q[1..], Repl(q[0].t + T, q[0].b));
            q[0].b - u + Pool(q', x, T) <= HeadPool(q, u, q[0].t + u - w, x, T) + (q[0].b - u - e)
  {
    var t, b := q[0].t, q[0].b;
    ServeUnits(t, b, u, w, b - u, e, x, T);
    PoolInsert(q[1..], Repl(t + T, b), x, T);
  }

  /** Pushing the head back by what was taken from it too early, and merging at
      most once, gains nothing over the queue before, even when the merge is
      across a gap. */
  lemma {:induction false} OverrunPool(q: seq<Repl>, u: nat, x: int, T: nat)
    requires q != [] && Positive(q) && 0 < u < q[0].b && T > 0
    requires |q| > 1 ==> q[1].b <= T
    ensures u < Overrun(q, u)[0].b
    ensures HeadPool(Overrun(q, u), u, Overrun(q, u)[0].t, x, T) <= Pool(q, x, T)
  {
    var p := Pushed(q, u);
    assert p[1..] == q[1..];
    assert Pool(q, x, T) == Units(q[0].t, q[0].b, x, T) + Pool(q[1..], x, T);
    if |p| > 1 && p[0].t + p[0].b >= p[1].t {
      assert Overrun(q, u) == MergeHead(p);
      hide Pool, Units, Positive, Overrun, HeadPool;
      PushMergePool(q, u, x, T);
    } else {
      assert Overrun(q, u) == p;
      hide Pool, Units, Positive, Overrun;
      PushUnits(q[0].t, q[0].b, u, x, T);
    }
  }

  lemma {:induction false} PushMergePool(q: seq<Repl>, u: nat, x: int, T: nat)
    requires |q| > 1 && 0 < u < q[0].b && T > 0 && q[1].b <= T && q[0].t + u + q[0].b >= q[1].t
    ensures var r := MergeHead(Pushed(q, u));
            HeadPool(r, u, r[0].t, x, T) <= Units(q[0].t, q[0].b, x, T) + Pool(q[1..], x, T)
  {
    var t, b, r := q[0].t, q[0].b, MergeHead(Pushed(q, u));
    assert r[1..] == q[1..][1..];
    assert Pool(q[1..], x, T) == Units(q[1].t, q[1].b, x, T) + Pool(r[1..], x, T);
    hide Pool, Units;
    PushUnits(t, b, u, x, T);
    UnitsSplit(t + u, b - u, q[1].b, x, T);
    MergeUnits(t + b, q[1].t, q[1].b, u, x, T);
  }

  /** The units used too early and the rest of a pushed head. */
  lemma {:induction false} PushUnits(t: int, b: nat, u: nat, x: int, T: nat)
    requires T > 0 && u <= b
    ensures Units(t + u + T, u, x, T) + Units(t + u, b - u, x, T) + (if t + u <= x then u else 0) <= Units(t, b, x, T)
  {
    UnitsSplit(t, u, b - u, x, T);
    UnitsMono(t, t + u + T, u, x, T);
    if t + u <= x {
      UnitsShift(t, u, x, T);
      UnitsMono(t + T, t + u + T, u, x, T);
    }
  }

  /** Units due at t', made available from e on instead. */
  lemma {:induction false} MergeUnits(e: int, t': int, n: nat, u: nat, x: int, T: nat)
    requires T > 0 && n <= T && t' <= e + u
    ensures Units(e, n, x, T) <= Units(t', n, x, T) + (if e <= x then u else 0)
  {
    if x <= e {
      UnitsBefore(e, n, x, T);
    } else if t' <= e {
      UnitsMono(t', e, n, x, T);
    } else {
      UnitsAdvance(e, t' - e, n, x, T);
    }
  }

  lemma ExhaustNothing(s: Server, now: nat)
    requires Inv(s) && s.q[0].t <= now
    ensures BudgetCheck(s, now) == s
  {
  }

  /** A slice that stays within the head and leaves the server runnable. */
  lemma {:induction false} WithinSound(g: Ledger, m: Move)
    requires Sound(g) && m.Serve? && Granted(g, m) && m.runnable && Within(g, m)
    ensures Sound(Move1(g, m)) && Move1(g, m).s == g.s.(usage := g.s.usage + m.d)
    ensures Avail(Move1(g, m)) == Avail(g) + Due(g, m)
  {
    DueBounds(g, m);
    ExhaustNothing(g.s.(usage := g.s.usage + m.d), m.n0);
  }

  lemma {:induction false} ServeWithin(g: Ledger, m: Move, x: int)
    requires Sound(g) && m.Serve? && Granted(g, m) && m.runnable && Within(g, m)
    requires x >= m.n1 && g.s.C <= g.s.T + 1
    ensures Inv(Move1(g, m).s)
    ensures Move1(g, m).used + Pending(Move1(g, m), x) <= g.used + Pending(g, x) + (Move1(g, m).over - g.over)
  {
    var s, e := g.s, Due(g, m);
    DueBounds(g, m);
    WithinSound(g, m);
    EntryAtMostSum(s.q, 0);
    hide Units, Pool, Sum, Sorted, Positive, BudgetCheck, SplitCheck, Due;
    ServeUnits(s.q[0].t, s.q[0].b, s.usage, g.early, m.d, e, x, s.T);
  }

  /** The queue after a slice that goes beyond the head. */
  lemma {:induction false} BeyondShape(s: Server, u: nat, now: nat)
    requires Inv(s) && u >= s.q[0].b && s.q[0].t <= now
    ensures var q1 := Insert(s.q[1..], Repl(s.q[0].t + s.T, s.q[0].b));
            && 1 <= |q1| <= MAX_REPL && Positive(q1) && Sum(q1) == s.C
            && var (q2, o) := Exhaust(q1, u - s.q[0].b, s.T);
               && Sorted(q2)
               && BudgetCheck(s.(usage := u), now) == s.(q := if o > 0 then Overrun(q2, o) else q2, usage := o)
  {
    var e := Repl(s.q[0].t + s.T, s.q[0].b);
    InsertPositive(s.q[1..], e);
    InsertKeeps(s.q[1..], e);
    ExhaustSorted(s.q, u, s.T);
    assert Add(s.q[1..], e.b, e.t) == Insert(s.q[1..], e);
    assert Exhaust(s.q, u, s.T) == Exhaust(Insert(s.q[1..], e), u - s.q[0].b, s.T);
  }

  /** Entries behind the head are at most a period when the budget is at most
      one unit more. */
  lemma EntriesFit(q: seq<Repl>, T: nat)
    requires Positive(q) && Sum(q) <= T + 1
    ensures |q| > 1 ==> q[1].b <= T
  {
    if |q| > 1 { EntryAtMostSum(q[1..], 0); }
  }

  lemma WholePool(q: seq<Repl>, x: int, T: nat)
    requires q != [] && T > 0
    ensures HeadPool(q, 0, q[0].t, x, T) == Pool(q, x, T)
  {
  }

  lemma {:induction false} BeyondPool(s: Server, o: nat, x: int)
    requires 1 <= |s.q| <= MAX_REPL && Positive(s.q) && s.T > 0 && Sum(s.q) <= s.T + 1
    ensures var (q, v) := Exhaust(s.q, o, s.T);
            var r := if v > 0 then Overrun(q, v) else q;
            r != [] && v < r[0].b && HeadPool(r, v, r[0].t, x, s.T) <= Pool(s.q, x, s.T)
  {
    var (q, v) := Exhaust(s.q, o, s.T);
    ExhaustPool(s.q, o, x, s.T);
    EntriesFit(q, s.T);
    hide Exhaust, Pool, Units, Overrun;
    if v > 0 {
      OverrunPool(q, v, x, s.T);
      OverrunKeeps(q, v);
    } else {
      WholePool(q, x, s.T);
    }
  }

  lemma {:induction false} OverrunInPlace(q: seq<Repl>, u: nat)
    requires q != [] && |q| <= MAX_REPL && Sorted(q)
    ensures InPlace(q) && InPlace(Overrun(q, u))
  {
  }

  lemma MoveFields(g: Ledger, m: Move)
    requires Sound(g) && m.Serve? && Granted(g, m)
    ensures var r := Move1(g, m);
            && r.s == EndTimeslice(g.s, m.d, m.runnable, m.n0, m.n1) && r.now == m.n1 && r.end == m.start + m.d
            && r.used == g.used + m.d && r.over == g.over + (m.d - Due(g, m)) && r.blocked == !m.runnable
            && r.early == if m.runnable && Within(g, m) then g.early + (m.d - Due(g, m)) else r.s.usage
  {
    hide EndTimeslice, Due;
  }

  /** What a head pushed back, or not used at all, leaves pending. */
  lemma PendingFresh(g: Ledger, x: int)
    requires Inv(g.s) && !g.blocked && g.early == g.s.usage
    ensures Pending(g, x) == HeadPool(g.s.q, g.s.usage, g.s.q[0].t, x, g.s.T)
  {
    hide HeadPool, Sum, Sorted, Positive;
  }

  /** A slice that goes beyond the head and leaves the server runnable. */
  lemma {:induction false} BeyondServer(s: Server, d: nat, n0: nat, n1: nat)
    requires Inv(s) && s.usage + d >= s.q[0].b && s.q[0].t <= n0
    ensures var q1 := Insert(s.q[1..], Repl(s.q[0].t + s.T, s.q[0].b));
            && 1 <= |q1| <= MAX_REPL && Positive(q1) && Sum(q1) == s.C
            && var (q2, o) := Exhaust(q1, s.usage + d - s.q[0].b, s.T);
               EndTimeslice(s, d, true, n0, n1) == s.(q := if o > 0 then Overrun(q2, o) else q2, usage := o)
    ensures Inv(EndTimeslice(s, d, true, n0, n1)) && InPlace(EndTimeslice(s, d, true, n0, n1).q)
  {
    BeyondShape(s, s.usage + d, n0);
    SliceKeeps(s, d, true, n0, n1);
    var (q2, o) := Exhaust(Insert(s.q[1..], Repl(s.q[0].t + s.T, s.q[0].b)), s.usage + d - s.q[0].b, s.T);
    OverrunInPlace(q2, o);
    hide Sum, Sorted, Positive, BudgetCheck, SplitCheck, Exhaust, Overrun, Insert, InPlace;
  }

  lemma {:induction false} BeyondSound(g: Ledger, m: Move)
    requires Sound(g) && m.Serve? && Granted(g, m) && m.runnable && !Within(g, m)
    ensures Sound(Move1(g, m)) && Move1(g, m).early == Move1(g, m).s.usage && !Move1(g, m).blocked
  {
    hide Move1, EndTimeslice, Sum, Sorted, Positive, InPlace, Insert, Exhaust, Overrun;
    MoveFields(g, m);
    BeyondServer(g.s, m.d, m.n0, m.n1);
  }

  lemma {:induction false} ServeBeyond(g: Ledger, m: Move, x: int)
    requires Sound(g) && m.Serve? && Granted(g, m) && m.runnable && !Within(g, m)
    requires x >= m.n1 && g.s.C <= g.s.T + 1
    ensures Inv(Move1(g, m).s)
    ensures Move1(g, m).used + Pending(Move1(g, m), x) <= g.used + Pending(g, x) + (Move1(g, m).over - g.over)
  {
    hide Move1, EndTimeslice, Units, Pool, Sum, Sorted, Positive, Due, Exhaust, Overrun, Insert, InPlace, HeadPool;
    var s, e, T := g.s, Due(g, m), g.s.T;
    var t, b := s.q[0].t, s.q[0].b;
    DueBounds(g, m);
    MoveFields(g, m);
    BeyondSound(g, m);
    BeyondServer(s, m.d, m.n0, m.n1);
    PendingFresh(Move1(g, m), x);
    BeyondPool(s.(q := Insert(s.q[1..], Repl(t + T, b))), s.usage + m.d - b, x);
    HeadUsed(s.q, s.usage, g.early, e, x, T);
  }

  // ----- blocking

  /** Blocking splits the head: the used part is due one period after the
      head's time, the remnant stays.  With all slots taken the remnant joins
      the next entry instead. */
  lemma {:induction false} SplitShape(q: seq<Repl>, u: nat, T: nat)
    requires 1 <= |q| <= MAX_REPL && 0 < u < q[0].b && T > 0
    ensures var q' := SplitHead(q, q[0].b - u);
            var r := Split(q, u, T);
            && q' != [] && r != [] && r[0] == q'[0] && r[1..] == Insert(q'[1..], Repl(q'[0].t + T, u))
  {
    var q' := SplitHead(q, q[0].b - u);
    assert Insert(q', Repl(q'[0].t + T, u))[1..] == Insert(q'[1..], Repl(q'[0].t + T, u));
  }

  lemma {:induction false} SplitPool(q: seq<Repl>, u: nat, e: int, now: nat, x: int, T: nat)
    requires 1 <= |q| <= MAX_REPL && 0 < u < q[0].b && T > 0 && e <= now && InPlace(q)
    ensures var r := Split(q, u, T);
            r != [] && HeadPool(r, 0, Max(now, r[0].t), x, T) <= HeadPool(q, u, e, x, T)
  {
    var q', n := SplitHead(q, q[0].b - u), q[0].b - u;
    SplitShape(q, u, T);
    PoolInsert(q'[1..], Repl(q'[0].t + T, u), x, T);
    if |q| == MAX_REPL {
      assert q'[1..] == q[1..][1..];
      assert Pool(q[1..], x, T) == Units(q[1].t, q[1].b, x, T) + Pool(q'[1..], x, T);
      hide Pool, Units, Split, Insert;
      var f := Max(now, q[1].t);
      UnitsSplit(f, q[1].b, n, x, T);
      UnitsMono(e, f + q[1].b, n, x, T);
      UnitsMono(q[1].t, f, q[1].b, x, T);
      UnitsMono(q[0].t + T, q[1].t + T, u, x, T);
      NoUnits(q'[0].t + T, x, T);
    } else {
      assert q'[1..] == q[1..];
      hide Pool, Units, Split, Insert;
      UnitsMono(e, Max(now, q[0].t), n, x, T);
      NoUnits(q'[0].t + T, x, T);
    }
  }

  lemma NoUnits(e: int, x: int, T: nat)
    requires T > 0
    ensures Units(e, 0, x, T) == 0
  {
  }

  lemma {:induction false} SplitInPlace(q: seq<Repl>, u: nat, T: nat)
    requires 1 <= |q| <= MAX_REPL && 0 < u < q[0].b && T > 0 && InPlace(q) && Sorted(q[1..])
    ensures var r := Split(q, u, T); r != [] && (InPlace(r) || r[0].t == q[0].t)
  {
    SplitShape(q, u, T);
    var r := Split(q, u, T);
    if |q| == MAX_REPL && |r| > 1 {
      assert r[1] == r[1..][0];
      assert q[1..][1..] == SplitHead(q, q[0].b - u)[1..];
    }
  }

  /** The ledger when the slice just ended leaves the server blocked. */
  function Block(g: Ledger): Ledger
    requires Inv(g.s)
  {
    var s := SplitCheck(g.s, g.now);
    g.(s := s, early := s.usage, blocked := true)
  }

  lemma {:induction false} BlockPending(g: Ledger, x: int)
    requires Sound(g) && !g.blocked
    ensures Sound(Block(g)) && Pending(Block(g), x) <= Pending(g, x)
  {
    var s := g.s;
    SplitKeeps(s, g.now);
    if s.usage > 0 && s.q[0].t <= g.now {
      SplitInPlace(s.q, s.usage, s.T);
      SplitPool(s.q, s.usage, Avail(g), g.now, x, s.T);
      hide Units, Pool, Sum, Sorted, Positive, Split, InPlace, HeadPool;
    } else {
      assert Block(g).s == s;
      hide Pool, Sum, Sorted, Positive, Split, InPlace;
      UnitsMono(Avail(g), Max(g.now, s.q[0].t), s.q[0].b - s.usage, x, s.T);
    }
  }

  /** A slice that ends in blocking is one that leaves the server runnable,
      followed by the split. */
  lemma {:induction false} BlocksAfter(g: Ledger, m: Move)
    requires Sound(g) && m.Serve? && Granted(g, m) && !m.runnable
    ensures Granted(g, m.(runnable := true)) && Inv(Move1(g, m.(runnable := true)).s)
    ensures Move1(g, m) == Block(Move1(g, m.(runnable := true)))
  {
    SliceKeeps(g.s, m.d, true, m.n0, m.n1);
    hide BudgetCheck, SplitCheck, Sum, Sorted, Positive;
  }

  // ----- unblocking

  lemma {:induction false} MergePool(q: seq<Repl>, u: nat, now: nat, x: int, T: nat)
    requires |q| > 1 && u < q[0].b && q[0].t == now && T > 0 && q[1].t <= now + q[0].b - u
    ensures HeadPool(MergeHead(q), u, now, x, T) <= HeadPool(q, u, now, x, T)
  {
    assert MergeHead(q)[1..] == q[1..][1..];
    assert Pool(q[1..], x, T) == Units(q[1].t, q[1].b, x, T) + Pool(MergeHead(q)[1..], x, T);
    hide Pool, Units;
    UnitsSplit(now, q[0].b - u, q[1].b, x, T);
    UnitsMono(q[1].t, now + q[0].b - u, q[1].b, x, T);
  }

  lemma {:induction false} CoalescePool(q: seq<Repl>, u: nat, now: nat, x: int, T: nat)
    requires q != [] && u < q[0].b && q[0].t == now && T > 0
    ensures HeadPool(Coalesce(q, u, now), u, now, x, T) <= HeadPool(q, u, now, x, T)
    decreases |q|
  {
    hide HeadPool;
    if |q| > 1 && q[1].t <= now + q[0].b - u {
      MergePool(q, u, now, x, T);
      CoalescePool(MergeHead(q), u, now, x, T);
    }
  }

  lemma {:induction false} ResumeSound(g: Ledger, m: Move)
    requires Sound(g) && m.Resume? && Granted(g, m)
    ensures Sound(Move1(g, m)) && Move1(g, m).early == Move1(g, m).s.usage == g.s.usage && !Move1(g, m).blocked
    ensures Capacity(g.s, m.now0) <= 0 ==> Move1(g, m).s == g.s && g.now < g.s.q[0].t
  {
    UnblockKeeps(g.s, m.now0, m.now1);
    if Capacity(g.s, m.now0) > 0 {
      var r := Move1(g, m).s.q;
      assert r[0].t == m.now1 && (|r| > 1 ==> r[1].t > m.now1 + r[0].b - g.s.usage);
    }
    hide Coalesce, Sum, Sorted, Positive;
  }

  lemma {:induction false} ResumePending(g: Ledger, m: Move, x: int)
    requires Sound(g) && m.Resume? && Granted(g, m)
    ensures Inv(Move1(g, m).s) && Pending(Move1(g, m), x) <= Pending(g, x)
  {
    var s, T, u, g' := g.s, g.s.T, g.s.usage, Move1(g, m);
    ResumeSound(g, m);
    PendingFresh(g', x);
    if Capacity(s, m.now0) > 0 {
      var q := [Repl(m.now1, s.q[0].b)] + s.q[1..];
      assert q[1..] == s.q[1..] && g'.s == s.(q := Coalesce(q, u, m.now1));
      hide Pool, Units, Coalesce, Sum, Sorted, Positive, Move1;
      CoalescePool(q, u, m.now1, x, T);
      UnitsMono(s.q[0].t + T, m.now1 + T, u, x, T);
      UnitsMono(Avail(g), m.now1, s.q[0].b - u, x, T);
    }
  }

  // ----- every run

  lemma {:induction false} MoveSound(g: Ledger, m: Move)
    requires Sound(g) && Granted(g, m)
    ensures Sound(Move1(g, m)) && Move1(g, m).s.C == g.s.C && Move1(g, m).s.T == g.s.T
    ensures g.now <= Move1(g, m).now && g.over <= Move1(g, m).over
  {
    if m.Resume? {
      ResumeSound(g, m);
    } else {
      DueBounds(g, m);
      hide BudgetCheck, SplitCheck, Sum, Sorted, Positive, InPlace;
      var m' := m.(runnable := true);
      if Within(g, m') { WithinSound(g, m'); } else { BeyondSound(g, m'); }
      if !m.runnable {
        BlocksAfter(g, m);
        BlockPending(Move1(g, m'), 0);
      }
    }
  }

  /** No move raises the time used plus the uses still pending by more than the
      overrun it adds. */
  lemma {:induction false} MovePending(g: Ledger, m: Move, x: int)
    requires Sound(g) && Granted(g, m) && x >= Move1(g, m).now && g.s.C <= g.s.T + 1
    ensures Inv(Move1(g, m).s)
    ensures Move1(g, m).used + Pending(Move1(g, m), x) <= g.used + Pending(g, x) + (Move1(g, m).over - g.over)
  {
    MoveSound(g, m);
    if m.Resume? {
      hide Pending, UnblockCheck;
      ResumePending(g, m, x);
    } else {
      var m' := m.(runnable := true);
      MoveSound(g, m');
      hide Inv, Pending, BudgetCheck, SplitCheck, Due;
      if Within(g, m) { ServeWithin(g, m', x); } else { ServeBeyond(g, m', x); }
      if !m.runnable {
        BlocksAfter(g, m);
        BlockPending(Move1(g, m'), x);
      }
    }
  }

  /** The moves can be granted one after the other from g on. */
  ghost predicate Follows(g: Ledger, ms: seq<Move>)
    requires Sound(g)
    decreases |ms|
  {
    ms == [] || (Granted(g, ms[0]) && (MoveSound(g, ms[0]); Follows(Move1(g, ms[0]), ms[1..])))
  }

  ghost function Moved(g: Ledger, ms: seq<Move>): (r: Ledger)
    requires Sound(g) && Follows(g, ms)
    ensures Sound(r) && r.s.C == g.s.C && r.s.T == g.s.T && g.now <= r.now && g.over <= r.over
    decreases |ms|
  {
    if ms == [] then g else MoveSound(g, ms[0]); Moved(Move1(g, ms[0]), ms[1..])
  }

  lemma {:induction false} RunPending(g: Ledger, ms: seq<Move>, x: int)
    requires Sound(g) && Follows(g, ms) && x >= Moved(g, ms).now && g.s.C <= g.s.T
    ensures Moved(g, ms).used + Pending(Moved(g, ms), x) <= g.used + Pending(g, x) + (Moved(g, ms).over - g.over)
    decreases |ms|
  {
    if ms != [] {
      hide Pending, Inv, Granted, Move1;
      MoveSound(g, ms[0]);
      RunPending(Move1(g, ms[0]), ms[1..], x);
      MovePending(g, ms[0], x);
    }
  }

  /** A server runs on one processor at a time, so it uses no more than passes. */
  lemma {:induction false} UsedIsTime(g: Ledger, ms: seq<Move>)
    requires Sound(g) && Follows(g, ms)
    ensures Moved(g, ms).used - g.used <= Moved(g, ms).end - g.end
    decreases |ms|
  {
    if ms != [] {
      MoveSound(g, ms[0]);
      UsedIsTime(Move1(g, ms[0]), ms[1..]);
    }
  }

  /** A periodic server with a whole period as its budget is always supplied. */
  lemma {:induction false} FullSupply(e: int, C: nat, x: int, T: nat)
    requires T > 0 && C >= T
    ensures Units(e, C, x, T) >= x - e
    decreases Max(x - e, 0)
  {
    UnitsSplit(e, T, C - T, x, T);
    if e < x {
      FullSupply(e + 1, T, x, T);
      UnitsEnds(e, T, x, T);
    }
  }

  /** vcpu_init: nothing to run until the first wakeup. */
  function Start(C: nat, T: nat, t0: nat): (g: Ledger)
    requires C > 0 && T > 0 && t0 > 0
    ensures Sound(g)
  {
    InitSound(C, T, t0);
    Ledger(Init(C, T, t0), t0, t0, 0, 0, 0, true)
  }

  lemma InitSound(C: nat, T: nat, t0: nat)
    requires C > 0 && T > 0 && t0 > 0
    ensures Sound(Ledger(Init(C, T, t0), t0, t0, 0, 0, 0, true)) && Init(C, T, t0) == Server(C, T, [Repl(t0, C)], 0)
  {
    RunFromInit(C, T, t0, []);
  }

  lemma StartPending(C: nat, T: nat, t0: nat, x: int)
    requires C > 0 && T > 0 && t0 > 0
    ensures Inv(Start(C, T, t0).s) && Pending(Start(C, T, t0), x) == Periodic(C, T, t0, x)
  {
    InitSound(C, T, t0);
    assert [Repl(t0, C)][1..] == [];
    NoUnits(t0 + T, x, T);
    hide Units, Inv;
  }

  /** The bound on every run from vcpu_init, whatever the slices: the time
      consumed is at most what a periodic server with budget C and period T
      supplies by then plus the time by which slices overran what the head had
      available, hence at most C for every period begun plus that. */
  lemma {:induction false} ConsumptionBounded(C: nat, T: nat, t0: nat, ms: seq<Move>)
    requires C > 0 && T > 0 && t0 > 0 && Follows(Start(C, T, t0), ms)
    ensures var g := Moved(Start(C, T, t0), ms);
            && g.used <= Periodic(C, T, t0, g.now) + g.over
            && g.used <= C * Times(g.now - t0, T) + g.over
  {
    hide Follows, Moved, Pending, Units, Times, Inv, Init, Granted;
    var g0 := Start(C, T, t0);
    var g := Moved(g0, ms);
    InitSound(C, T, t0);
    if C <= T {
      RunPending(g0, ms, g.now);
      StartPending(C, T, t0, g.now);
    } else {
      UsedIsTime(g0, ms);
      FullSupply(t0, C, g.now, T);
    }
    UnitsAtMost(t0, C, Times(g.now - t0, T), g.now, T);
  }

  ghost predicate Raised(g: Ledger, m: Move, x: int)
    requires Sound(g) && Granted(g, m)
  {
    && x >= Move1(g, m).now && Inv(Move1(g, m).s)
    && Move1(g, m).used + Pending(Move1(g, m), x) > g.used + Pending(g, x) + (Move1(g, m).over - g.over)
  }

  /** Move m raises them after the run ms from vcpu_init. */
  ghost predicate RaisedBy(C: nat, T: nat, t0: nat, ms: seq<Move>, m: Move, x: int)
    requires C > 0 && T > 0
  {
    && t0 > 0 && Follows(Start(C, T, t0), ms)
    && var g := Moved(Start(C, T, t0), ms); Granted(g, m) && Raised(g, m, x)
  }

  /** MovePending holds in all runs of servers with budget C and period T iff C is
      at most T + 1. */
  lemma {:induction false} PendingIff(C: nat, T: nat)
    requires C > 0 && T > 0
    ensures C <= T + 1 <==> forall t0: nat, ms: seq<Move>, m: Move, x: int :: !RaisedBy(C, T, t0, ms, m, x)
  {
    hide RaisedBy;
    if C <= T + 1 {
      forall t0: nat, ms: seq<Move>, m: Move, x: int ensures !RaisedBy(C, T, t0, ms, m, x) {
        NotRaised(C, T, t0, ms, m, x);
      }
    } else {
      EarlyUnit(C, T);
    }
  }

  lemma {:induction false} NotRaised(C: nat, T: nat, t0: nat, ms: seq<Move>, m: Move, x: int)
    requires 0 < C <= T + 1 && T > 0
    ensures !RaisedBy(C, T, t0, ms, m, x)
  {
    if RaisedBy(C, T, t0, ms, m, x) {
      InitSound(C, T, t0);
      hide Sound, Follows, Moved, Granted, Pending, Move1, Inv, Init;
      MovePending(Moved(Start(C, T, t0), ms), m, x);
    }
  }

  /** With a larger budget, a unit of the head used a tick before its time comes
      back before the last unit of the head would have come at all. */
  lemma {:induction false} EarlyUnit(C: nat, T: nat)
    requires C > T + 1 && T > 0
    ensures RaisedBy(C, T, 1, [Resume(2, 2)], Serve(1, 2, 1, true, 2, 2), T + 3)
  {
    var g0, m0 := Start(C, T, 1), Resume(2, 2);
    var g := Ledger(Server(C, T, [Repl(2, C)], 0), 2, 1, 0, 0, 0, false);
    assert Move1(g0, m0) == g by { WokenLate(C, T); }
    assert Follows(g0, [m0]) && Moved(g0, [m0]) == g by {
      MoveSound(g0, m0);
      assert [m0][1..] == [];
      assert Follows(g, []) && Moved(g, []) == g;
    }
    EarlyRaised(g);
  }

  lemma {:induction false} WokenLate(C: nat, T: nat)
    requires C > 0 && T > 0
    ensures var g, m := Start(C, T, 1), Resume(2, 2);
            Granted(g, m) && Move1(g, m) == Ledger(Server(C, T, [Repl(2, C)], 0), 2, 1, 0, 0, 0, false)
  {
    InitSound(C, T, 1);
    var q, r := [Repl(1, C)], [Repl(2, C)];
    assert [Repl(2, C)] + q[1..] == r && Coalesce(r, 0, 2) == r;
    hide Sum, Positive, Sorted;
  }

  lemma {:induction false} EarlyRaised(g: Ledger)
    requires g.s == Server(g.s.C, g.s.T, [Repl(2, g.s.C)], 0) && g == Ledger(g.s, 2, 1, 0, 0, 0, false)
    requires Sound(g) && g.s.T > 0 && g.s.C > g.s.T + 1
    ensures var m := Serve(1, 2, 1, true, 2, 2); Granted(g, m) && Raised(g, m, g.s.T + 3)
  {
    var m, C, T, x := Serve(1, 2, 1, true, 2, 2), g.s.C, g.s.T, g.s.T + 3;
    MoveSound(g, m);
    WithinSound(g, m);
    assert g.s.q[1..] == [];
    UnitsSplit(2, C - 1, 1, x, T);
    NoUnits(2 + T, x, T);
    assert Units(2 + T, 1, x, T) == 1 by { assert Times(1, T) == 1; }
    assert Units(C + 1, 1, x, T) == 0;
    hide Units, Pool, Sum, Sorted, Positive;
    assert Due(g, m) == 0 && Move1(g, m).early == 1;
  }

  /** The first wakeup, at the start, changes nothing but that. */
  lemma {:induction false} Woken(C: nat, T: nat, t0: nat)
    requires C > 0 && T > 0 && t0 > 0
    ensures var g, m := Start(C, T, t0), Resume(t0, t0); Granted(g, m) && Move1(g, m) == g.(blocked := false)
  {
    InitSound(C, T, t0);
    var q := [Repl(t0, C)];
    assert [Repl(t0, C)] + q[1..] == q && Coalesce(q, 0, t0) == q;
    hide Sum, Positive, Sorted;
  }

  lemma FollowsTwo(g: Ledger, m1: Move, m2: Move)
    requires Sound(g) && Granted(g, m1) && Sound(Move1(g, m1)) && Granted(Move1(g, m1), m2)
    ensures Sound(Move1(Move1(g, m1), m2)) && Follows(g, [m1, m2]) && Moved(g, [m1, m2]) == Move1(Move1(g, m1), m2)
  {
    var g1 := Move1(g, m1);
    MoveSound(g, m1);
    MoveSound(g1, m2);
    assert [m1, m2][1..] == [m2] && [m2][1..] == [];
    hide Inv, Move1, Sound, Granted;
    var g2 := Move1(g1, m2);
    assert Follows(g2, []) && Moved(g2, []) == g2;
    assert Follows(g1, [m2]) && Moved(g1, [m2]) == g2;
  }

  /** The bound is attained: woken at the start, one slice of any length from C
      to T uses exactly the supply and its overrun. */
  lemma {:induction false} BoundAttained(C: nat, T: nat, t0: nat, d: nat)
    requires 0 < C <= d <= T && t0 > 0
    ensures var ms := [Resume(t0, t0), Serve(t0, t0, d, true, t0 + d, t0 + d)];
            && Follows(Start(C, T, t0), ms)
            && var g := Moved(Start(C, T, t0), ms);
               g.over == d - C && g.used == d && g.used == Periodic(C, T, t0, g.now) + g.over
  {
    var g0, m := Start(C, T, t0), Serve(t0, t0, d, true, t0 + d, t0 + d);
    InitSound(C, T, t0);
    Woken(C, T, t0);
    MoveSound(g0, Resume(t0, t0));
    var g1 := Move1(g0, Resume(t0, t0));
    OneUse(t0, C, t0 + d, T);
    assert Granted(g1, m) && Move1(g1, m).over == d - C && Move1(g1, m).used == d && Move1(g1, m).now == t0 + d by {
      hide EndTimeslice, Sum, Positive, Sorted, Periodic, Units;
    }
    hide Inv, Sound, Granted, Move1, Units, Init;
    FollowsTwo(g0, Resume(t0, t0), m);
  }

  lemma {:induction false} OneUse(e: int, n: nat, x: int, T: nat)
    requires T > 0 && e + n <= x <= e + T
    ensures Units(e, n, x, T) == n
    decreases n
  {
    if n > 0 {
      OneUse(e + 1, n - 1, x, T);
      assert Times(x - e - T, T) == 0;
    }
  }

  // ----- windows

  /** No replenishment in the queue is due before h. */
  predicate Since(q: seq<Repl>, h: int) { forall i :: 0 <= i < |q| ==> h <= q[i].t }

  lemma {:induction false} PoolAtMost(q: seq<Repl>, h: int, x: int, T: nat)
    requires T > 0 && Since(q, h)
    ensures Pool(q, x, T) <= Sum(q) * Times(x - h, T)
  {
    if q != [] {
      var k := Times(x - h, T);
      TimesMono(x - q[0].t, x - h, T);
      UnitsAtMost(q[0].t, q[0].b, k, x, T);
      PoolAtMost(q[1..], h, x, T);
      hide Times, Units;
      assert (q[0].b + Sum(q[1..])) * k == q[0].b * k + Sum(q[1..]) * k;
    }
  }

  /** No hook makes an entry due earlier than all there are. */
  lemma {:induction false} InsertSince(q: seq<Repl>, e: Repl, h: int)
    requires Since(q, h) && h <= e.t
    ensures Since(Insert(q, e), h)
  {
    if q != [] && q[0].t < e.t { InsertSince(q[1..], e, h); }
  }

  lemma {:induction false} ExhaustSince(q: seq<Repl>, usage: nat, T: nat, h: int)
    requires 1 <= |q| <= MAX_REPL && Positive(q) && Since(q, h)
    ensures Since(Exhaust(q, usage, T).0, h)
    decreases usage
  {
    if q[0].b <= usage {
      var e := Repl(q[0].t + T, q[0].b);
      InsertPositive(q[1..], e);
      InsertSince(q[1..], e, h);
      assert Add(q[1..], e.b, e.t) == Insert(q[1..], e);
      ExhaustSince(Insert(q[1..], e), usage - q[0].b, T, h);
    }
  }

  lemma {:induction false} BudgetSince(s: Server, now: nat, h: int)
    requires 1 <= |s.q| <= MAX_REPL && Positive(s.q) && Since(s.q, h)
    ensures Since(BudgetCheck(s, now).q, h)
  {
    ExhaustSince(s.q, s.usage, s.T, h);
  }

  lemma {:induction false} SplitSince(s: Server, now: nat, h: int)
    requires 1 <= |s.q| <= MAX_REPL && s.usage < s.q[0].b && Since(s.q, h)
    ensures Since(SplitCheck(s, now).q, h)
  {
    if s.usage > 0 && s.q[0].t <= now {
      var q' := SplitHead(s.q, s.q[0].b - s.usage);
      if |q'| < MAX_REPL { InsertSince(q', Repl(q'[0].t + s.T, s.usage), h); }
    }
  }

  lemma {:induction false} UnblockSince(s: Server, now0: nat, now1: nat, h: int)
    requires s.q != [] && s.usage < s.q[0].b && Since(s.q, h) && now0 <= now1
    ensures Since(UnblockCheck(s, now0, now1).q, h)
  {
    if Capacity(s, now0) > 0 {
      var q := [Repl(now1, s.q[0].b)] + s.q[1..];
      var c := Coalesce(q, s.usage, now1);
      forall i | 0 <= i < |c| ensures h <= c[i].t {
        if i > 0 { assert c[i] == c[1..][i - 1] == q[|q| - |c| + i]; }
      }
    }
  }

  lemma {:induction false} MoveSince(g: Ledger, m: Move, h: int)
    requires Sound(g) && Granted(g, m) && Since(g.s.q, h)
    ensures Since(Move1(g, m).s.q, h)
  {
    match m
    case Serve(start, at, d, runnable, n0, n1) =>
      var s := g.s.(usage := g.s.usage + d);
      BudgetSince(s, n0, h);
      BudgetKeeps(s, n0);
      hide BudgetCheck, SplitCheck, Sum, Sorted;
      SplitSince(BudgetCheck(s, n0), n1, h);
    case Resume(n0, n1) => UnblockSince(g.s, n0, n1, h);
  }

  /** What is used in time is used after the oldest replenishment. */
  lemma {:induction false} UsedSince(g: Ledger, ms: seq<Move>, h: int)
    requires Sound(g) && Follows(g, ms) && Since(g.s.q, h)
    ensures var r := Moved(g, ms); r.used - g.used - (r.over - g.over) <= Max(r.end, h) - Max(g.end, h)
    decreases |ms|
  {
    if ms != [] {
      MoveSound(g, ms[0]);
      MoveSince(g, ms[0], h);
      if ms[0].Serve? {
        DueBounds(g, ms[0]);
        assert Avail(g) >= h;
      }
      hide EndTimeslice, UnblockCheck;
      UsedSince(Move1(g, ms[0]), ms[1..], h);
    }
  }

  /** From any state on, the time consumed is at most C for every period begun
      since the oldest replenishment still in the queue, plus the overrun.  In
      particular, counted from an unblocking that found budget, since then. */
  lemma {:induction false} WindowBounded(g: Ledger, ms: seq<Move>, h: int)
    requires Sound(g) && Follows(g, ms) && Since(g.s.q, h)
    ensures var r := Moved(g, ms);
            r.used - g.used <= g.s.C * Times(r.now - h, g.s.T) + (r.over - g.over)
  {
    hide Follows, Moved, Times, Inv, Sound;
    if g.s.C <= g.s.T {
      WindowPending(g, ms, h);
    } else {
      UsedSince(g, ms, h);
      EndsInTime(g, ms);
      TimesCover(Moved(g, ms).now - h, g.s.T, g.s.C);
    }
  }

  lemma EndsInTime(g: Ledger, ms: seq<Move>)
    requires Sound(g) && Follows(g, ms)
    ensures Moved(g, ms).end <= Moved(g, ms).now && g.s.T > 0
  {
    hide Follows, Moved;
  }

  lemma {:induction false} WindowPending(g: Ledger, ms: seq<Move>, h: int)
    requires Sound(g) && Follows(g, ms) && Since(g.s.q, h) && g.s.C <= g.s.T
    ensures Moved(g, ms).used - g.used <= g.s.C * Times(Moved(g, ms).now - h, g.s.T) + (Moved(g, ms).over - g.over)
  {
    var s, x := g.s, Moved(g, ms).now;
    RunPending(g, ms, x);
    hide Follows, Moved, Times, Units, Pool, Positive, Sorted;
    WindowHead(s.q, s.usage, Avail(g), h, x, s.T);
  }

  lemma {:induction false} TimesCover(d: int, T: nat, C: nat)
    requires T > 0 && C >= T
    ensures C * Times(d, T) >= Max(d, 0)
    decreases Max(d, 0)
  {
    if d > 0 {
      TimesCover(d - T, T, C);
      assert C * (1 + Times(d - T, T)) == C + C * Times(d - T, T);
    }
  }

  lemma {:induction false} WindowHead(q: seq<Repl>, u: nat, e: int, h: int, x: int, T: nat)
    requires q != [] && T > 0 && u <= q[0].b && h <= e && Since(q, h)
    ensures HeadPool(q, u, e, x, T) <= Sum(q) * Times(x - h, T)
  {
    var k, b := Times(x - h, T), q[0].b;
    TimesMono(x - q[0].t - T, x - h, T);
    UnitsAtMost(q[0].t + T, u, k, x, T);
    TimesMono(x - e, x - h, T);
    UnitsAtMost(e, b - u, k, x, T);
    PoolAtMost(q[1..], h, x, T);
    hide Times, Units, Pool;
    assert (u + (b - u) + Sum(q[1..])) * k == u * k + (b - u) * k + Sum(q[1..]) * k;
  }

  /** After an unblocking that finds budget nothing in the queue is older. */
  lemma {:induction false} ResumeSince(g: Ledger, m: Move)
    requires Sound(g) && m.Resume? && Granted(g, m) && Capacity(g.s, m.now0) > 0
    ensures Since(Move1(g, m).s.q, m.now1)
  {
    var s := g.s;
    var r := UnblockCheck(s, m.now0, m.now1).q;
    forall i | 1 <= i < |r|
      ensures m.now1 <= r[i].t
    {
      UnblockLeavesGap(s, m.now0, m.now1, i);
    }
  }

  /** From g on, C for every period begun since the present is enough. */
  ghost predicate BoundedFromNow(g: Ledger)
    requires Sound(g)
  {
    forall ms :: Follows(g, ms) ==>
      Moved(g, ms).used - g.used <= g.s.C * Times(Moved(g, ms).now - g.now, g.s.T) + (Moved(g, ms).over - g.over)
  }

  /** A runnable server with one replenishment of which nothing is used: the
      bound counted from the present holds for all that may follow iff the
      replenishment is not due before the present, or the budget is a whole
      period and no slice can have begun earlier. */
  lemma {:induction false} WindowIff(g: Ledger)
    requires Sound(g) && !g.blocked && |g.s.q| == 1 && g.s.usage == 0
    ensures BoundedFromNow(g) <==> g.s.q[0].t >= g.now || (g.s.C >= g.s.T && g.end == g.now)
  {
    hide Inv, Sound, Times, Follows, Moved, BoundedFromNow;
    if g.s.q[0].t >= g.now || (g.s.C >= g.s.T && g.end == g.now) {
      BoundHolds(g);
    } else if g.end < g.now {
      SoundFacts(g);
      OneTickBefore(g);
    } else {
      SoundFacts(g);
      CatchUp(g);
    }
  }

  lemma SoundFacts(g: Ledger)
    requires Sound(g)
    ensures g.end <= g.now && g.s.T > 0
  {
  }

  lemma {:induction false} BoundHolds(g: Ledger)
    requires Sound(g) && |g.s.q| == 1 && (g.s.q[0].t >= g.now || (g.s.C >= g.s.T && g.end == g.now))
    ensures BoundedFromNow(g)
  {
    var t, C, T := g.s.q[0].t, g.s.C, g.s.T;
    SoundFacts(g);
    hide Inv, Sound, Times, Follows, Moved;
    if t >= g.now {
      forall ms | Follows(g, ms)
        ensures Moved(g, ms).used - g.used <= C * Times(Moved(g, ms).now - g.now, T) + (Moved(g, ms).over - g.over)
      {
        WindowBounded(g, ms, g.now);
      }
    } else {
      forall ms | Follows(g, ms)
        ensures Moved(g, ms).used - g.used <= C * Times(Moved(g, ms).now - g.now, T) + (Moved(g, ms).over - g.over)
      {
        BoundLate(g, ms);
      }
    }
  }

  lemma {:induction false} BoundLate(g: Ledger, ms: seq<Move>)
    requires Sound(g) && g.s.C >= g.s.T && g.end == g.now && Follows(g, ms)
    ensures Moved(g, ms).used - g.used
            <= g.s.C * Times(Moved(g, ms).now - g.now, g.s.T) + (Moved(g, ms).over - g.over)
  {
    SoundFacts(g);
    hide Inv, Sound, Times, Follows, Moved;
    UsedIsTime(g, ms);
    EndsInTime(g, ms);
    TimesCover(Moved(g, ms).now - g.now, g.s.T, g.s.C);
  }

  /** A slice that began a tick before the present. */
  lemma {:induction false} OneTickBefore(g: Ledger)
    requires Sound(g) && !g.blocked && |g.s.q| == 1 && g.s.usage == 0 && g.s.q[0].t < g.now && g.end < g.now
    ensures !BoundedFromNow(g)
  {
    var m := Serve(g.now - 1, g.now, 1, true, g.now, g.now);
    MoveSound(g, m);
    DueBounds(g, m);
    var r := Move1(g, m);
    assert r.used == g.used + 1 && r.over == g.over && r.now == g.now;
    assert [m][1..] == [];
    hide Inv, Move1, Sound, Granted;
    assert Follows(r, []) && Moved(r, []) == r;
    assert Follows(g, [m]) && Moved(g, [m]) == r;
    assert Times(0, g.s.T) == 0;
  }

  /** A server that was not picked uses its budget and, its next replenishment
      being due within a period of the present, one unit more. */
  lemma {:induction false} CatchUp(g: Ledger)
    requires Sound(g) && !g.blocked && |g.s.q| == 1 && g.s.usage == 0 && g.s.q[0].t < g.now == g.end && g.s.C < g.s.T
    ensures !BoundedFromNow(g)
  {
    hide Positive, Sorted, Sum, Inv, Move1, Sound, Granted, Times, BoundedFromNow, Follows, Moved;
    var t, C, T, n := g.s.q[0].t, g.s.C, g.s.T, g.now;
    var k := if t + T >= n + C then t + T else n + C;
    var m1, m2 := Serve(n, n, C, true, n + C, n + C), Serve(k, k, 1, true, k + 1, k + 1);
    WholeGranted(g);
    WholeHead(g, m1);
    MoveSound(g, m1);
    var g1 := Move1(g, m1);
    OneMore(g1, m2);
    var g2 := Move1(g1, m2);
    FollowsTwo(g, m1, m2);
    OnePeriod(k + 1 - n, T);
    assert C * Times(k + 1 - n, T) == C;
    Exceeded(g, [m1, m2]);
  }

  lemma WholeGranted(g: Ledger)
    requires Sound(g) && !g.blocked && |g.s.q| == 1 && g.s.usage == 0 && g.s.q[0].t < g.now == g.end
    ensures g.s.q[0].b == g.s.C && Granted(g, Serve(g.now, g.now, g.s.C, true, g.now + g.s.C, g.now + g.s.C))
  {
    assert g.s.q[1..] == [] && Sum(g.s.q[1..]) == 0;
  }

  lemma OnePeriod(d: int, T: nat)
    requires 0 < d <= T
    ensures Times(d, T) == 1
  {
    assert Times(d - T, T) == 0;
  }

  lemma Exceeded(g: Ledger, ms: seq<Move>)
    requires Sound(g) && Follows(g, ms)
    requires Moved(g, ms).used - g.used > g.s.C * Times(Moved(g, ms).now - g.now, g.s.T) + (Moved(g, ms).over - g.over)
    ensures !BoundedFromNow(g)
  {
    hide Follows, Moved, Times, Sound;
  }

  lemma OneMore(g: Ledger, m: Move)
    requires Sound(g) && !g.blocked && g.s.usage == 0 && m.Serve? && g.now <= m.at && g.end <= m.at
    requires g.s.q[0].t <= m.at
    requires m == Serve(m.at, m.at, 1, true, m.at + 1, m.at + 1)
    ensures Granted(g, m) && Sound(Move1(g, m))
    ensures Move1(g, m).used == g.used + 1 && Move1(g, m).over == g.over && Move1(g, m).now == m.at + 1
  {
    DueBounds(g, m);
    MoveSound(g, m);
    hide EndTimeslice, Positive, Sorted, Sum;
  }

  /** Using up a single replenishment at once moves it by a period. */
  lemma WholeHead(g: Ledger, m: Move)
    requires Sound(g) && m.Serve? && Granted(g, m) && |g.s.q| == 1 && m.d == g.s.q[0].b && m.runnable
    requires m.start == m.at && g.s.usage == 0
    ensures var s := g.s.(q := [Repl(g.s.q[0].t + g.s.T, m.d)]);
            Move1(g, m) == Ledger(s, m.n1, m.start + m.d, g.used + m.d, g.over, 0, false)
  {
    var r := Repl(g.s.q[0].t + g.s.T, m.d);
    DueBounds(g, m);
    MoveFields(g, m);
    BeyondServer(g.s, m.d, m.n0, m.n1);
    assert g.s.q[1..] == [] && Insert([], r) == [r];
    assert Exhaust([r], 0, g.s.T) == ([r], 0);
    hide EndTimeslice;
  }

  /** Such a state is reached from vcpu_init: woken at the start and picked
      only later, for a slice of no length. */
  lemma StarvedReached(C: nat, T: nat, t0: nat, n: nat)
    requires 0 < C < T && 0 < t0 < n
    ensures var ms := [Resume(t0, t0), Serve(n, n, 0, true, n, n)];
            && Follows(Start(C, T, t0), ms)
            && var g := Moved(Start(C, T, t0), ms);
               !g.blocked && g.s == Init(C, T, t0) && g.now == n && !BoundedFromNow(g)
  {
    var g0, m := Start(C, T, t0), Serve(n, n, 0, true, n, n);
    InitSound(C, T, t0);
    Woken(C, T, t0);
    MoveSound(g0, Resume(t0, t0));
    var g1 := Move1(g0, Resume(t0, t0));
    assert Granted(g1, m);
    MoveSound(g1, m);
    WithinSound(g1, m);
    var g2 := Move1(g1, m);
    assert g2.s == g1.s && g2.end == g2.now == n && !g2.blocked;
    CatchUp(g2);
    hide Inv, Move1, Sound, Granted, BoundedFromNow;
    FollowsTwo(g0, Resume(t0, t0), m);
  }

  // ----- how much a slice can overrun

  /** A slice overruns by no more than it exceeds the capacity read when it was
      picked, or, if that is later, by the time it took to read it. */
  lemma OverAtMost(g: Ledger, m: Move)
    requires Sound(g) && m.Serve? && Granted(g, m)
    ensures m.d - Due(g, m) <= Max(Max(0, m.d - Capacity(g.s, m.at)), m.at - m.start)
  {
    DueBounds(g, m);
  }
}
