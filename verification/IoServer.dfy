/** An I/O VCPU: a bandwidth-preserving server with utilisation Unum/Uden.
    Time consumed is charged in one go when it blocks or runs out of budget,
    and the charge pushes the eligibility time `e` on by usage * Uden / Unum
    (integer division); the period T is inherited from whoever is served. */
module IoServer {

  /** `rt`/`rb` are the time and amount of the single pending replenishment,
      rt == 0 meaning none. */
  datatype Io = Io(T: nat, b: nat, usage: nat, e: nat, rt: nat, rb: nat,
                   Unum: nat, Uden: nat, budgeted: bool)

  predicate Fraction(v: Io) {
    v.Unum > 0 && v.Uden > 0
  }

  /** What the hooks keep by themselves: a pending replenishment is not due
      after the eligibility time. */
  predicate Steady(v: Io) {
    Fraction(v) && v.T > 0 && (v.rt != 0 ==> v.rt <= v.e)
  }

  function Min(a: nat, b: nat): nat {
    if a <= b then a else b
  }

  function Update(v: Io, tcur: nat): Io {
    if v.rt != 0 && v.rt <= tcur then v.(b := v.rb, rt := 0) else v
  }

  /** The budget of one period. */
  function Share(T: nat, num: nat, den: nat): nat
    requires den > 0
  {
    T * num / den
  }

  /** How far `u` units of service push the eligibility time. */
  function Stretch(u: nat, num: nat, den: nat): nat
    requires num > 0
  {
    u * den / num
  }

  /** Charge the accumulated usage. */
  function Charge(v: Io, runnable: bool): Io
    requires Fraction(v)
  {
    var e := v.e + Stretch(v.usage, v.Unum, v.Uden);
    v.(e := e, rt := e, rb := if v.rt == 0 then Share(v.T, v.Unum, v.Uden) else v.rb,
       usage := 0, b := 0, budgeted := v.budgeted && runnable)
  }

  function EndTimeslice(v: Io, tdelta: nat, runnable: bool): Io
    requires Fraction(v)
  {
    var v' := v.(b := v.b - Min(v.b, tdelta), usage := v.usage + tdelta);
    if !runnable || v'.b == 0 then Charge(v', runnable) else v'
  }

  predicate Charges(v: Io, tdelta: nat, runnable: bool) {
    !runnable || v.b <= tdelta
  }

  function Unblock(v: Io, now: nat): Io
    requires Fraction(v)
  {
    var v' := if !v.budgeted && v.e < now then v.(e := now) else v;
    var v'' := if v'.rt == 0 then
                 if !v.budgeted then v'.(rt := v'.e, rb := Share(v.T, v.Unum, v.Uden)) else v'
               else v'.(rb := Share(v.T, v.Unum, v.Uden));
    v''.(budgeted := true)
  }

  /** The VCPU's fields, and the hooks that update them in place. */
  class IoVcpu {
    var T: nat
    var b: nat
    var usage: nat
    var e: nat
    var rt: nat
    var rb: nat
    var Unum: nat
    var Uden: nat
    var budgeted: bool
    var runnable: bool

    ghost function Model(): Io
      reads this
    { Io(T, b, usage, e, rt, rb, Unum, Uden, budgeted) }

    constructor (C: nat, T: nat, unit: nat)
      requires C > 0 && T > 0 && unit > 0
      ensures Model() == Io(T * unit, C * unit, 0, 0, 0, 0, C, T, false) && !runnable
    {
      this.T, b, usage := T * unit, C * unit, 0;
      e, rt, rb := 0, 0, 0;
      Unum, Uden, budgeted, runnable := C, T, false, false;
    }

    method UpdateReplenishments(tcur: nat)
      modifies `b, `rt
      ensures Model() == Update(old(Model()), tcur)
    {
      if rt != 0 && rt <= tcur {
        b := rb;
        rt := 0;
      }
    }

    method EndSlice(tdelta: nat)
      requires Fraction(Model())
      modifies `b, `usage, `e, `rt, `rb, `budgeted
      ensures Model() == EndTimeslice(old(Model()), tdelta, runnable)
    {
      hide Stretch, Share;
      var u := tdelta;
      if b < tdelta { u := b; }
      b := b - u;
      usage := usage + tdelta;
      if !runnable || b <= 0 {
        e := e + Stretch(usage, Unum, Uden);
        if rt == 0 {
          rt := e;
          rb := Share(T, Unum, Uden);
        } else {
          rt := e;
        }
        usage := 0;
        b := 0;
        if !runnable { budgeted := false; }
      }
    }

    method UnblockHook(now: nat)
      requires Fraction(Model())
      modifies `e, `rt, `rb, `budgeted
      ensures Model() == Unblock(old(Model()), now)
    {
      hide Share;
      if !budgeted && e < now { e := now; }
      var cmax := Share(T, Unum, Uden);
      if rt == 0 {
        if !budgeted {
          rt := e;
          rb := cmax;
        }
      } else {
        rb := cmax;
      }
      budgeted := true;
    }
  }

  // ----- runs

  /** An I/O VCPU with the clock, the time served and the charges so far. */
  datatype Ledger = Ledger(v: Io, now: nat, served: nat, charges: nat, blocked: bool)

  /** Refresh: the scheduler or a wakeup looks at the VCPU.  Serve: it is
      refreshed at `start`, picked because it has budget, and gives the
      processor back at `start + d`.  Resume: a job arrives while it is
      blocked.  Inherit: iovcpu_job_wakeup changes the period. */
  datatype Move =
    | Refresh(t: nat)
    | Serve(start: nat, d: nat, runnable: bool)
    | Resume(t: nat)
    | Inherit(T: nat)

  predicate Allowed(g: Ledger, m: Move) {
    match m
    case Refresh(t) => g.now <= t
    case Serve(start, _, _) => !g.blocked && g.now <= start && Update(g.v, start).b > 0
    case Resume(t) => g.blocked && g.now <= t && t > 0
    case Inherit(T) => true
  }

  function Step(g: Ledger, m: Move): Ledger
    requires Fraction(g.v) && Allowed(g, m)
  {
    match m
    case Refresh(t) => g.(v := Update(g.v, t), now := t)
    case Serve(start, d, runnable) =>
      var v := Update(g.v, start);
      Ledger(EndTimeslice(v, d, runnable), start + d, g.served + d,
             g.charges + (if Charges(v, d, runnable) then 1 else 0), !runnable)
    case Resume(t) => g.(v := Unblock(g.v, t), now := t, blocked := false)
    case Inherit(T) => g.(v := g.v.(T := T))
  }

  /** Service `s` is at most the fraction num/den of an elapsed time `e` plus
      one tick for each of `c` charges. */
  predicate Bounded(num: nat, den: nat, s: int, e: int, c: int) {
    den * s <= num * (e + c)
  }

  /** A pending replenishment is due at the eligibility time (or the
      eligibility time has passed), and no time is uncharged while one is
      pending; e0 is the eligibility time at the start of the run. */
  predicate Sound(g: Ledger, e0: nat) {
    && Fraction(g.v)
    && e0 <= g.v.e
    && (g.v.rt != 0 ==> g.v.rt == g.v.e || g.v.e <= g.now)
    && (g.v.rt != 0 ==> g.v.usage == 0 && (g.v.b == 0 || g.v.rt <= g.now))
    && (g.blocked ==> g.v.usage == 0 && !g.v.budgeted && (g.v.b == 0 || g.v.e <= g.now))
    && g.v.usage <= g.served
    && Bounded(g.v.Unum, g.v.Uden, g.served - g.v.usage, g.v.e - e0, g.charges)
  }

  /** The rounding lost by one charge is less than one clock tick. */
  lemma ChargeRounds(u: nat, num: nat, den: nat)
    requires num > 0
    ensures den * u <= num * (Stretch(u, num, den) + 1)
  {
    var x := u * den;
    assert x == num * (x / num) + x % num;
  }

  /** Eligibility moves on by the service over the utilisation, rounded down. */
  lemma StretchExact(u: nat, num: nat, den: nat)
    requires num > 0
    ensures num * Stretch(u, num, den) <= den * u < num * (Stretch(u, num, den) + 1)
  {
    var x := u * den;
    assert x == num * (x / num) + x % num;
  }

  /** The budget of a period is the utilisation's part of it, rounded down. */
  lemma ShareExact(T: nat, num: nat, den: nat)
    requires den > 0
    ensures den * Share(T, num, den) <= num * T < den * (Share(T, num, den) + 1)
  {
    var x := T * num;
    assert x == den * (x / den) + x % den;
  }

  lemma ShareMono(T: nat, T': nat, num: nat, den: nat)
    requires den > 0 && T <= T'
    ensures Share(T, num, den) <= Share(T', num, den)
  {
    ShareExact(T, num, den);
    ShareExact(T', num, den);
    hide Share;
    Scale(num, T, T');
    Unscale(den, Share(T, num, den), Share(T', num, den) + 1);
  }

  lemma Scale(m: nat, a: nat, b: nat)
    requires a <= b
    ensures m * a <= m * b
  {
  }

  lemma Unscale(m: nat, a: nat, b: nat)
    requires m * a < m * b
    ensures a < b
  {
  }

  /** No budget, granted or pending, exceeds that of the longest period. */
  predicate Capped(v: Io, Tmax: nat)
    requires Fraction(v)
  {
    v.T <= Tmax && v.b <= Share(Tmax, v.Unum, v.Uden) && v.rb <= Share(Tmax, v.Unum, v.Uden)
  }

  lemma StepCapped(g: Ledger, m: Move, Tmax: nat)
    requires Fraction(g.v) && Allowed(g, m) && Capped(g.v, Tmax) && (m.Inherit? ==> m.T <= Tmax)
    ensures Fraction(Step(g, m).v) && Capped(Step(g, m).v, Tmax)
  {
    ShareMono(g.v.T, Tmax, g.v.Unum, g.v.Uden);
    hide Share, Stretch;
  }

  lemma {:induction false} ChargeBound(num: nat, den: nat, s: nat, u: nat, e: nat, c: nat)
    requires num > 0 && Bounded(num, den, s, e, c)
    ensures Bounded(num, den, s + u, e + Stretch(u, num, den), c + 1)
  {
    ChargeRounds(u, num, den);
    hide Stretch;
    var k := Stretch(u, num, den);
    assert num * (e + c) + num * (k + 1) == num * (e + k + c + 1);
    assert den * s + den * u == den * (s + u);
  }

  lemma {:induction false} BoundedLater(num: nat, den: nat, s: nat, e: int, e': int, c: nat)
    requires Bounded(num, den, s, e, c) && e <= e'
    ensures Bounded(num, den, s, e', c)
  {
    assert num * (e + c) <= num * (e' + c);
  }

  lemma {:induction false} StepSound(g: Ledger, m: Move, e0: nat)
    requires Sound(g, e0) && Allowed(g, m)
    ensures Sound(Step(g, m), e0) && Step(g, m).now >= g.now
    ensures Step(g, m).v.Unum == g.v.Unum && Step(g, m).v.Uden == g.v.Uden
  {
    hide Stretch, Share, Bounded;
    var v, g' := g.v, Step(g, m);
    match m
    case Refresh(t) =>
    case Inherit(T) =>
    case Resume(t) =>
      BoundedLater(v.Unum, v.Uden, g.served - v.usage, v.e - e0, g'.v.e - e0, g.charges);
    case Serve(start, d, runnable) =>
      if Charges(Update(v, start), d, runnable) {
        ChargeBound(v.Unum, v.Uden, g.served - v.usage, v.usage + d, v.e - e0, g.charges);
      }
  }

  /** Budget is granted only at or after the eligibility time, and never while
      consumed time is still uncharged. */
  lemma GrantAfterEligibility(g: Ledger, e0: nat, t: nat)
    requires Sound(g, e0) && g.now <= t && Update(g.v, t) != g.v
    ensures g.v.e <= t && g.v.usage == 0
  {
  }

  /** As vcpu_init leaves it, whatever its period and budget. */
  predicate Unused(v: Io) {
    Fraction(v) && v == Io(v.T, v.b, 0, 0, 0, 0, v.Unum, v.Uden, false)
  }

  /** A VCPU fresh from boot, blocked with its initial budget, meets the
      assumption of a run from its first job on, with its eligibility time. */
  lemma FirstResume(v: Io, now: nat, t: nat)
    requires Unused(v) && now <= t && t > 0
    ensures var g := Ledger(v, now, 0, 0, true); Allowed(g, Resume(t)) && Sound(Step(g, Resume(t)), t)
  {
    hide Share;
  }

  /** The moves are allowed one after the other from g on. */
  ghost predicate Follows(g: Ledger, ms: seq<Move>)
    decreases |ms|
  {
    ms == [] || (Fraction(g.v) && Allowed(g, ms[0]) && Follows(Step(g, ms[0]), ms[1..]))
  }

  ghost function Moved(g: Ledger, ms: seq<Move>): Ledger
    requires Follows(g, ms)
    decreases |ms|
  {
    if ms == [] then g else Moved(Step(g, ms[0]), ms[1..])
  }

  lemma {:induction false} FollowsAppend(g: Ledger, ms: seq<Move>, ms': seq<Move>)
    requires Follows(g, ms) && Follows(Moved(g, ms), ms')
    ensures Follows(g, ms + ms') && Moved(g, ms + ms') == Moved(Moved(g, ms), ms')
    decreases |ms|
  {
    hide Step, Allowed;
    if ms == [] {
      assert ms + ms' == ms';
    } else {
      FollowsAppend(Step(g, ms[0]), ms[1..], ms');
      assert (ms + ms')[0] == ms[0] && (ms + ms')[1..] == ms[1..] + ms';
    }
  }

  lemma FollowsOne(g: Ledger, m: Move)
    requires Fraction(g.v) && Allowed(g, m)
    ensures Follows(g, [m]) && Moved(g, [m]) == Step(g, m)
  {
    assert [m][1..] == [];
    hide Step, Allowed;
    assert Follows(Step(g, m), []);
  }

  lemma {:induction false} SameFraction(g: Ledger, ms: seq<Move>)
    requires Follows(g, ms)
    ensures Moved(g, ms).v.Unum == g.v.Unum && Moved(g, ms).v.Uden == g.v.Uden
    decreases |ms|
  {
    if ms != [] {
      hide Share, Stretch;
      SameFraction(Step(g, ms[0]), ms[1..]);
    }
  }

  /** Moves other than slices. */
  ghost predicate Idle(ms: seq<Move>) { forall i :: 0 <= i < |ms| ==> !ms[i].Serve? }

  /** They use no time and charge nothing. */
  lemma {:induction false} IdleFree(g: Ledger, ms: seq<Move>)
    requires Follows(g, ms) && Idle(ms)
    ensures Moved(g, ms).served == g.served && Moved(g, ms).charges == g.charges
    decreases |ms|
  {
    if ms != [] {
      hide Unblock, Update;
      IdleFree(Step(g, ms[0]), ms[1..]);
    }
  }

  ghost predicate IsRun(gs: seq<Ledger>, ms: seq<Move>, e0: nat) {
    && |gs| == |ms| + 1
    && Sound(gs[0], e0)
    && forall i :: 0 <= i < |ms| ==>
         Fraction(gs[i].v) && Allowed(gs[i], ms[i]) && gs[i + 1] == Step(gs[i], ms[i])
  }

  lemma {:induction false} RunSound(gs: seq<Ledger>, ms: seq<Move>, e0: nat, k: nat)
    requires IsRun(gs, ms, e0) && k <= |ms|
    ensures Sound(gs[k], e0) && gs[0].now <= gs[k].now
    ensures gs[k].v.Unum == gs[0].v.Unum && gs[k].v.Uden == gs[0].v.Uden
    decreases k
  {
    hide Sound, Step, Allowed;
    if k > 0 {
      RunSound(gs, ms, e0, k - 1);
      assert Fraction(gs[k - 1].v) && Allowed(gs[k - 1], ms[k - 1]);
      StepSound(gs[k - 1], ms[k - 1], e0);
      assert gs[k - 1 + 1] == Step(gs[k - 1], ms[k - 1]);
    }
  }

  /** Over every run in which no period longer than Tmax is inherited, no budget
      exceeds the utilisation's part of Tmax. */
  lemma {:induction false} RunCapped(gs: seq<Ledger>, ms: seq<Move>, e0: nat, Tmax: nat, k: nat)
    requires IsRun(gs, ms, e0) && k <= |ms| && Capped(gs[0].v, Tmax)
    requires forall i :: 0 <= i < |ms| && ms[i].Inherit? ==> ms[i].T <= Tmax
    ensures Fraction(gs[k].v) && Capped(gs[k].v, Tmax)
    ensures gs[k].v.Uden * gs[k].v.b <= gs[k].v.Unum * Tmax
    decreases k
  {
    hide Share;
    if k > 0 {
      RunCapped(gs, ms, e0, Tmax, k - 1);
      StepCapped(gs[k - 1], ms[k - 1], Tmax);
      assert gs[k - 1 + 1] == Step(gs[k - 1], ms[k - 1]);
    }
    ShareBound(gs[k].v.b, Tmax, gs[k].v.Unum, gs[k].v.Uden);
  }

  lemma ShareBound(b: nat, T: nat, num: nat, den: nat)
    requires den > 0 && b <= Share(T, num, den)
    ensures den * b <= num * T
  {
    ShareExact(T, num, den);
    hide Share;
    assert den * b <= den * Share(T, num, den);
  }

  /** The bandwidth bound, over every run and whatever periods are inherited:
      charged time is at most the fraction Unum/Uden of the eligibility time
      elapsed, plus one tick per charge; and whenever budget is granted, all
      the time served so far is at most that fraction of the real time elapsed
      since e0, plus one tick per charge. */
  lemma {:induction false} BandwidthBound(gs: seq<Ledger>, ms: seq<Move>, e0: nat, k: nat, t: nat)
    requires IsRun(gs, ms, e0) && k <= |ms| && gs[k].now <= t
    ensures var g := gs[k];
            && g.v.usage <= g.served && e0 <= g.v.e
            && Bounded(g.v.Unum, g.v.Uden, g.served - g.v.usage, g.v.e - e0, g.charges)
            && (Update(g.v, t) != g.v ==>
                  e0 <= t && Bounded(g.v.Unum, g.v.Uden, g.served, t - e0, g.charges))
  {
    hide Bounded;
    RunSound(gs, ms, e0, k);
    var g := gs[k];
    if Update(g.v, t) != g.v {
      GrantAfterEligibility(g, e0, t);
      BoundedLater(g.v.Unum, g.v.Uden, g.served, g.v.e - e0, t - e0, g.charges);
    }
  }

  /** The tick per charge is needed: with utilisation 3/10 one unit of service
      pushes eligibility by 3, three tenths of which is less than one unit. */
  lemma RoundingExample()
    ensures var v := Io(100, 10, 0, 50, 0, 0, 3, 10, true);
            var w := EndTimeslice(v, 1, false);
            w.e == 53 && v.Uden * 1 > v.Unum * (w.e - v.e)
  {
  }
}
