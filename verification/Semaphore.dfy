/** kernel/smp/semaphore.c: counting semaphores. Each critical section is one
    step; a task on the wait queue runs again only after a signal. */
module Semaphore {

  const INT_MAX: int := 0x7fff_ffff
  const INT_MIN: int := -0x8000_0000

  /** 32-bit signed arithmetic, for sums that overflow at most once. */
  function Wrap(x: int): int {
    if x > INT_MAX then x - 0x1_0000_0000 else if x < INT_MIN then x + 0x1_0000_0000 else x
  }

  datatype Sem = Sem(s: int, max: int, waitqueue: seq<nat>)

  /** semaphore_signal; everyone on the queue is woken. */
  function Signal(m: Sem, k: int): Sem {
    var v := Wrap(m.s + k);
    m.(s := if v > m.max then m.max else v, waitqueue := [])
  }

  predicate Clipped(m: Sem, k: int) { Wrap(m.s + k) > m.max }

  predicate Grants(m: Sem, k: int) { m.s >= k }

  /** One turn of the loop in semaphore_wait. */
  function Wait(m: Sem, t: nat, k: int): Sem {
    if Grants(m, k) then m.(s := Wrap(m.s - k)) else m.(waitqueue := m.waitqueue + [t])
  }

  predicate InRange(m: Sem) { 0 <= m.s <= m.max <= INT_MAX }

  /** An amount, as the interface takes it. */
  type Amount = k: int | INT_MIN <= k <= INT_MAX

  /** A signal keeps the count in range iff the sum neither goes below 0 nor
      overflows. */
  lemma SignalInRange(m: Sem, k: Amount)
    requires InRange(m)
    ensures InRange(Signal(m, k)) <==> 0 <= m.s + k <= INT_MAX
  {
  }

  /** A wait keeps the count in range iff it does not give back more than the
      room below max. */
  lemma WaitInRange(m: Sem, t: nat, k: Amount)
    requires InRange(m)
    ensures InRange(Wait(m, t, k)) <==> k >= m.s - m.max
  {
  }

  // ----- the semaphore and the tasks using it

  datatype Task = Free | Trying(k: Amount) | Waiting(k: Amount)

  /** Units `posted` by signals, `taken` by waits and `lost` to the ceiling. */
  datatype System = System(sem: Sem, tasks: seq<Task>, posted: int, taken: int, lost: nat)

  datatype Event = Post(k: Amount) | Ask(t: nat, k: Amount) | Try(t: nat)

  function Wake(task: Task): Task {
    match task
    case Waiting(k) => Trying(k)
    case _ => task
  }

  function WakeAll(tasks: seq<Task>, queue: seq<nat>): (r: seq<Task>)
    ensures |r| == |tasks|
    ensures forall t: nat :: t < |tasks| ==> r[t] == if t in queue then Wake(tasks[t]) else tasks[t]
  {
    seq(|tasks|, t requires 0 <= t < |tasks| => if t in queue then Wake(tasks[t]) else tasks[t])
  }

  /** What a signal of k offers beyond the room below max. */
  function Excess(m: Sem, k: int): nat {
    if m.s + k > m.max then m.s + k - m.max else 0
  }

  predicate Tries(y: System, t: nat) { t < |y.tasks| && y.tasks[t].Trying? }

  function Step(y: System, e: Event): System {
    match e
    case Post(k) =>
      System(Signal(y.sem, k), WakeAll(y.tasks, y.sem.waitqueue), y.posted + k, y.taken, y.lost + Excess(y.sem, k))
    case Ask(t, k) =>
      if t < |y.tasks| && y.tasks[t].Free? then y.(tasks := y.tasks[t := Trying(k)]) else y
    case Try(t) =>
      if Tries(y, t) then
        var k := y.tasks[t].k;
        var m := Wait(y.sem, t, k);
        if Grants(y.sem, k) then y.(sem := m, tasks := y.tasks[t := Free], taken := y.taken + k)
        else y.(sem := m, tasks := y.tasks[t := Waiting(k)])
      else y
  }

  predicate Unique(q: seq<nat>) { forall a, b :: 0 <= a < b < |q| ==> q[a] != q[b] }

  /** The queue holds exactly the waiting tasks, once each. */
  ghost predicate Queued(y: System) {
    && Unique(y.sem.waitqueue)
    && (forall t: nat :: t in y.sem.waitqueue <==> t < |y.tasks| && y.tasks[t].Waiting?)
  }

  /** Every waiting task asked for more than s. */
  predicate NoneServable(tasks: seq<Task>, s: int) {
    forall t: nat :: t < |tasks| && tasks[t].Waiting? ==> tasks[t].k > s
  }

  ghost predicate Inv(y: System, init: int) {
    && InRange(y.sem) && Queued(y) && NoneServable(y.tasks, y.sem.s)
    && y.sem.s + y.taken + y.lost == init + y.posted
  }

  /** A signal whose sum neither goes below 0 nor overflows; a wait for a
      negative amount only when the raised count fits and serves no waiter. */
  predicate Allowed(y: System, e: Event) {
    match e
    case Post(k) => 0 <= y.sem.s + k <= INT_MAX
    case Ask(_, _) => true
    case Try(t) =>
      Tries(y, t) ==>
        var k := y.tasks[t].k;
        k >= 0 || (y.sem.s - k <= y.sem.max && NoneServable(y.tasks, y.sem.s - k))
  }

  lemma PostExact(y: System, init: int, k: Amount)
    requires Inv(y, init)
    ensures Inv(Step(y, Post(k)), init) <==> Allowed(y, Post(k))
    ensures Step(y, Post(k)).sem.waitqueue == []
  {
    var r := Step(y, Post(k));
    SignalInRange(y.sem, k);
    forall t: nat | t < |r.tasks|
      ensures !r.tasks[t].Waiting?
    {
      assert y.tasks[t].Waiting? ==> t in y.sem.waitqueue;
    }
  }

  lemma TryQueued(y: System, t: nat)
    requires Queued(y)
    ensures Queued(Step(y, Try(t)))
  {
    var r := Step(y, Try(t));
    if Tries(y, t) {
      var q := y.sem.waitqueue;
      assert t !in q;
      forall x: nat
        ensures x in r.sem.waitqueue <==> x < |r.tasks| && r.tasks[x].Waiting?
      {
        assert x in q <==> x < |y.tasks| && y.tasks[x].Waiting?;
      }
    }
  }

  lemma TryExact(y: System, init: int, t: nat)
    requires Inv(y, init)
    ensures Inv(Step(y, Try(t)), init) <==> Allowed(y, Try(t))
  {
    TryQueued(y, t);
    hide Queued;
    if Tries(y, t) {
      var k := y.tasks[t].k;
      WaitInRange(y.sem, t, k);
      var r := Step(y, Try(t));
      if k < 0 && InRange(r.sem) {
        assert r.sem.s == y.sem.s - k;
        assert NoneServable(r.tasks, r.sem.s) <==> NoneServable(y.tasks, r.sem.s) by {
          assert r.tasks == y.tasks[t := Free];
          assert forall x: nat :: x < |y.tasks| ==> (y.tasks[x].Waiting? <==> r.tasks[x].Waiting?);
          assert forall x: nat :: x < |y.tasks| && y.tasks[x].Waiting? ==> y.tasks[x] == r.tasks[x];
        }
      }
    }
  }

  lemma AskKeeps(y: System, init: int, t: nat, k: Amount)
    requires Inv(y, init)
    ensures Inv(Step(y, Ask(t, k)), init)
  {
    var r := Step(y, Ask(t, k));
    forall x: nat
      ensures x in r.sem.waitqueue <==> x < |r.tasks| && r.tasks[x].Waiting?
    {
      assert x in y.sem.waitqueue <==> x < |y.tasks| && y.tasks[x].Waiting?;
    }
  }

  /** One event keeps the invariant iff it is allowed. */
  lemma StepExact(y: System, init: int, e: Event)
    requires Inv(y, init)
    ensures Inv(Step(y, e), init) <==> Allowed(y, e)
    ensures Step(y, e).sem.max == y.sem.max
  {
    match e
    case Post(k) => PostExact(y, init, k);
    case Ask(t, k) => AskKeeps(y, init, t, k);
    case Try(t) => TryExact(y, init, t);
  }

  // ----- every run

  function Run(y: System, es: seq<Event>): System
    decreases |es|
  {
    if es == [] then y else Run(Step(y, es[0]), es[1..])
  }

  /** Each event is allowed in the state it meets. */
  predicate AllAllowed(y: System, es: seq<Event>)
    decreases |es|
  {
    es == [] || (Allowed(y, es[0]) && AllAllowed(Step(y, es[0]), es[1..]))
  }

  /** semaphore_init with n tasks that have not touched the semaphore. */
  function Start(max: int, init: int, n: nat): System {
    System(Sem(init, max, []), seq(n, _ => Free), 0, 0, 0)
  }

  /** The invariant holds after every prefix of a run iff every event was
      allowed when it came. */
  lemma {:induction false} RunExact(y: System, init: int, es: seq<Event>)
    requires Inv(y, init)
    ensures AllAllowed(y, es) <==> forall n :: 0 <= n <= |es| ==> Inv(Run(y, es[..n]), init)
    decreases |es|
  {
    if es == [] {
      assert es[..0] == [];
    } else {
      StepExact(y, init, es[0]);
      var z := Step(y, es[0]);
      forall n | 0 <= n < |es|
        ensures Run(y, es[..n + 1]) == Run(z, es[1..][..n])
      {
        assert es[..n + 1][0] == es[0] && es[..n + 1][1..] == es[1..][..n];
      }
      assert Run(y, es[..0]) == y;
      assert Run(y, es[..1]) == z by { assert es[1..][..0] == []; }
      RunSplit(y, z, init, es);
      if Inv(z, init) { RunExact(z, init, es[1..]); }
    }
  }

  lemma RunSplit(y: System, z: System, init: int, es: seq<Event>)
    requires es != [] && Inv(y, init) && Run(y, es[..0]) == y
    requires forall n :: 0 <= n < |es| ==> Run(y, es[..n + 1]) == Run(z, es[1..][..n])
    ensures (forall n :: 0 <= n <= |es| ==> Inv(Run(y, es[..n]), init))
            <==> (forall n :: 0 <= n <= |es[1..]| ==> Inv(Run(z, es[1..][..n]), init))
  {
    hide Inv, Run;
    if forall n :: 0 <= n <= |es[1..]| ==> Inv(Run(z, es[1..][..n]), init) {
      forall n | 0 <= n <= |es|
        ensures Inv(Run(y, es[..n]), init)
      {
        if n > 0 {
          assert Run(y, es[..(n - 1) + 1]) == Run(z, es[1..][..n - 1]);
          assert (n - 1) + 1 == n;
        }
      }
    }
    if forall n :: 0 <= n <= |es| ==> Inv(Run(y, es[..n]), init) {
      forall n | 0 <= n <= |es[1..]|
        ensures Inv(Run(z, es[1..][..n]), init)
      {
        assert Inv(Run(y, es[..n + 1]), init);
      }
    }
  }

  /** In every reachable state the count is in range, units are conserved, and
      every task on the wait queue asked for more than the count: no wakeup
      is ever lost. */
  lemma EveryRun(max: int, init: int, n: nat, es: seq<Event>)
    requires 0 <= init <= max <= INT_MAX && AllAllowed(Start(max, init, n), es)
    ensures var y := Run(Start(max, init, n), es);
            && 0 <= y.sem.s <= y.sem.max
            && y.sem.s == init + y.posted - y.taken - y.lost
            && (forall t: nat :: t in y.sem.waitqueue ==>
                  t < |y.tasks| && y.tasks[t].Waiting? && y.tasks[t].k > y.sem.s)
  {
    RunExact(Start(max, init, n), init, es);
    assert es[..|es|] == es;
  }

  // ----- waiting for a negative amount

  /** A wait for k keeps "every waiting task asked for more than the count" and
      the rest of the invariant in every state where they hold iff k is not
      negative: below 0 it raises the count and wakes no one. */
  lemma WaitSafeIff(max: int, k: Amount)
    requires 0 <= max <= INT_MAX
    ensures (forall y, init, t: nat :: Inv(y, init) && y.sem.max == max && Tries(y, t) && y.tasks[t].k == k
                                       ==> Inv(Step(y, Try(t)), init)) <==> k >= 0
  {
    forall y, init, t: nat | k >= 0 && Inv(y, init) && Tries(y, t) && y.tasks[t].k == k
      ensures Inv(Step(y, Try(t)), init)
    {
      TryExact(y, init, t);
    }
    if k < 0 { NegativeWaitLosesWakeup(max, k); }
  }

  /** The same for the waiters alone: only the smallest amount of all, whose
      subtraction wraps to a count below 0, serves nobody. */
  lemma WaitersSafeIff(max: int, k: Amount)
    requires 0 <= max <= INT_MAX
    ensures (forall y, init, t: nat :: Inv(y, init) && y.sem.max == max && Tries(y, t) && y.tasks[t].k == k
                                       ==> var r := Step(y, Try(t)); NoneServable(r.tasks, r.sem.s))
            <==> k >= 0 || k == INT_MIN
  {
    forall y, init, t: nat |
      (k >= 0 || k == INT_MIN) && Inv(y, init) && y.sem.max == max && Tries(y, t) && y.tasks[t].k == k
      ensures var r := Step(y, Try(t)); NoneServable(r.tasks, r.sem.s)
    {
      WaitersKept(y, init, t);
    }
    if k < 0 { NegativeWaitLosesWakeup(max, k); }
  }

  lemma WaitersKept(y: System, init: int, t: nat)
    requires Inv(y, init) && Tries(y, t) && (y.tasks[t].k >= 0 || y.tasks[t].k == INT_MIN)
    ensures var r := Step(y, Try(t)); NoneServable(r.tasks, r.sem.s)
  {
    var k, r := y.tasks[t].k, Step(y, Try(t));
    assert k >= 0 ==> r.sem.s <= y.sem.s;
  }

  /** One task waits for 1 on an empty semaphore and another asks for k. */
  function OneWaits(max: int, k: Amount): System {
    System(Sem(0, max, [0]), [Waiting(1), Trying(k)], 0, 0, 0)
  }

  lemma OneWaitsReached(max: int, k: Amount)
    requires 0 <= max <= INT_MAX
    ensures Run(Start(max, 0, 2), [Ask(0, 1), Try(0), Ask(1, k)]) == OneWaits(max, k)
  {
    var es := [Ask(0, 1), Try(0), Ask(1, k)];
    var y0 := Start(max, 0, 2);
    var y1 := Step(y0, es[0]);
    assert y1.tasks == [Trying(1), Free];
    var y2 := Step(y1, es[1]);
    assert y2.tasks == [Waiting(1), Free] && y2.sem.waitqueue == [0];
    assert Step(y2, es[2]).tasks == [Waiting(1), Trying(k)];
    assert es[1..] == [Try(0), Ask(1, k)] && es[1..][1..] == [Ask(1, k)] && es[1..][1..][1..] == [];
    assert Run(y2, [Ask(1, k)]) == Step(y2, Ask(1, k));
  }

  /** From this state, three calls after semaphore_init, the wait for k < 0
      leaves the waiter queued although the count covers what it asked for. */
  lemma NegativeWaitLosesWakeup(max: int, k: Amount)
    requires 0 <= max <= INT_MAX && k < 0
    ensures var y := OneWaits(max, k);
            var r := Step(y, Try(1));
            && Run(Start(max, 0, 2), [Ask(0, 1), Try(0), Ask(1, k)]) == y
            && Inv(y, 0) && Tries(y, 1) && y.tasks[1].k == k
            && 0 in r.sem.waitqueue && r.tasks[0] == Waiting(1)
            && (k > INT_MIN ==> !NoneServable(r.tasks, r.sem.s) && r.sem.s == -k)
            && !Inv(r, 0)
  {
    OneWaitsReached(max, k);
    hide Run, Start;
    var y := OneWaits(max, k);
    assert Queued(y) by { assert y.sem.waitqueue[0] == 0; }
    assert y.tasks[0] == Waiting(1);
    var r := Step(y, Try(1));
    assert r.tasks[0] == Waiting(1);
    assert 0 in r.sem.waitqueue by { assert r.sem.waitqueue[0] == 0; }
  }

  // ----- the object

  class Semaphore {
    var s: int
    var max: int
    var waitqueue: seq<nat>

    ghost function Abs(): Sem
      reads this
    { Sem(s, max, waitqueue) }

    constructor (max: int, init: int)
      ensures Abs() == Sem(init, max, [])
    {
      this.s, this.max, waitqueue := init, max, [];
    }

    /** Returns -1 when the count was clipped, and the tasks it woke. */
    method SignalBy(k: int) returns (status: int, woken: seq<nat>)
      modifies this
      ensures Abs() == Signal(old(Abs()), k)
      ensures status == (if Clipped(old(Abs()), k) then -1 else 0) && woken == old(waitqueue)
    {
      status := 0;
      s := Wrap(s + k);
      if s > max {
        s := max;
        status := -1;
      }
      woken := waitqueue;
      waitqueue := [];
    }

    /** One turn of the loop for task t: true when it returns to the caller. */
    method WaitFor(t: nat, k: int) returns (done: bool)
      modifies this
      ensures Abs() == Wait(old(Abs()), t, k) && done == Grants(old(Abs()), k)
    {
      if s >= k {
        s := Wrap(s - k);
        done := true;
      } else {
        waitqueue := waitqueue + [t];
        done := false;
      }
    }
  }
}
