/** The two kinds of VCPU behind one hook table, and the scheduler's timer
    arithmetic. */
module VcpuHooks {
  import SporadicServer
  import IoServer

  /** `b` is the budget field of a MAIN VCPU; an I/O VCPU carries its own. */
  datatype Server = Main(s: SporadicServer.Server, b: nat) | Io(io: IoServer.Io)

  ghost predicate Sound(sv: Server) {
    match sv
    case Main(s, _) => SporadicServer.Inv(s)
    case Io(io) => IoServer.Steady(io)
  }

  function Period(sv: Server): nat {
    match sv
    case Main(s, _) => s.T
    case Io(io) => io.T
  }

  function Budget(sv: Server): nat {
    match sv
    case Main(_, b) => b
    case Io(io) => io.b
  }

  /** update_replenishments; a MAIN VCPU reads the clock itself (`now`). */
  function Refresh(sv: Server, tcur: nat, now: nat): (r: Server)
    ensures Period(r) == Period(sv)
    ensures Sound(sv) ==> Sound(r)
  {
    match sv
    case Main(s, _) => Main(s, SporadicServer.Budget(s, now))
    case Io(io) => Io(IoServer.Update(io, tcur))
  }

  function EndSlice(sv: Server, tdelta: nat, runnable: bool, n0: nat, n1: nat, n2: nat): Server
    requires Sound(sv)
  {
    match sv
    case Main(s, _) =>
      var s' := SporadicServer.EndTimeslice(s, tdelta, runnable, n0, n1);
      Main(s', SporadicServer.Budget(s', n2))
    case Io(io) => Io(IoServer.EndTimeslice(io, tdelta, runnable))
  }

  function Unblock(sv: Server, n0: nat, n1: nat): Server
    requires Sound(sv)
  {
    match sv
    case Main(s, b) => Main(SporadicServer.UnblockCheck(s, n0, n1), b)
    case Io(io) => Io(IoServer.Unblock(io, n0))
  }

  lemma {:induction false} EndSliceSound(sv: Server, tdelta: nat, runnable: bool, n0: nat, n1: nat, n2: nat)
    requires Sound(sv)
    ensures var r := EndSlice(sv, tdelta, runnable, n0, n1, n2); Sound(r) && Period(r) == Period(sv)
  {
    match sv
    case Main(s, _) => SporadicServer.StepKeeps(s, SporadicServer.Slice(tdelta, runnable, n0, n1));
    case Io(io) =>
  }

  lemma {:induction false} UnblockSound(sv: Server, n0: nat, n1: nat)
    requires Sound(sv) && n1 > 0
    ensures Sound(Unblock(sv, n0, n1)) && Period(Unblock(sv, n0, n1)) == Period(sv)
  {
    match sv
    case Main(s, _) => SporadicServer.StepKeeps(s, SporadicServer.Unblock(n0, n1));
    case Io(io) =>
  }

  function NextEvent(sv: Server, now: nat): nat {
    match sv
    case Main(s, _) => SporadicServer.FirstAfter(s.q, now)
    case Io(io) => io.rt
  }

  // ----- the timer

  const TWO64: nat := 0x1_0000_0000_0000_0000

  /** Unsigned 64-bit subtraction. */
  function Wrap(d: int): nat {
    d % TWO64
  }

  /** The loop that shortens the delay `d` (0 for none yet) to each event. */
  function Shorten(d: nat, es: seq<nat>): nat
    decreases |es|
  {
    if es == [] then d
    else Shorten(if d == 0 || es[0] < d then es[0] else d, es[1..])
  }

  /** The delay is positive and not longer than the budget `d` or than the time
      to any reported event exactly when there is something to wait for and no
      event is due this very tick: a zero distance erases the delay found so
      far. */
  lemma {:induction false} ShortenIsLeast(d: nat, es: seq<nat>)
    ensures var r := Shorten(d, es);
            (r > 0 && (d > 0 ==> r <= d) && forall i :: 0 <= i < |es| ==> r <= es[i])
            <==> ((d > 0 || es != []) && forall i :: 0 <= i < |es| ==> es[i] != 0)
    decreases |es|
  {
    if es != [] {
      ShortenIsLeast(if d == 0 || es[0] < d then es[0] else d, es[1..]);
      assert forall i :: 1 <= i < |es| ==> es[i] == es[1..][i - 1];
    }
  }

  /** An event is due this very tick only on an I/O VCPU whose replenishment
      was not refreshed at `tcur`; MAIN VCPUs report strictly later times. */
  lemma EventDue(sv: Server, tcur: nat, now: nat)
    requires tcur <= now < TWO64 && NextEvent(sv, now) < TWO64 && NextEvent(sv, now) != 0
    ensures Wrap(NextEvent(sv, now) - tcur) == 0 <==> sv.Io? && sv.io.rt == tcur
    ensures sv == Refresh(sv, tcur, now) ==> Wrap(NextEvent(sv, now) - tcur) != 0
  {
    var e := NextEvent(sv, now);
    if e >= tcur { assert Wrap(e - tcur) == e - tcur; }
    else { assert Wrap(e - tcur) == e - tcur + TWO64; }
  }

  /** Timer ticks in a delay: 64-bit product, 32-bit result. */
  function Ticks(tdelta: nat, bus: nat, tsc: nat): nat
    requires tsc > 0
  {
    (tdelta * bus) % TWO64 / tsc % 0x1_0000_0000
  }

  /** The LAPIC count for a delay: at least one tick, at most one quantum. */
  function Count(tdelta: nat, bus: nat, tsc: nat, quantum: nat): (c: nat)
    requires tsc > 0 && quantum > 0
    ensures 1 <= c <= quantum
  {
    if tdelta == 0 then quantum
    else
      var c := Ticks(tdelta, bus, tsc);
      if c == 0 then 1 else if c > quantum then quantum else c
  }

  /** The programmed count never outlasts the delay, up to the one-tick minimum. */
  lemma {:induction false} CountNotLate(tdelta: nat, bus: nat, tsc: nat, quantum: nat)
    requires tsc > 0 && quantum > 0 && tdelta > 0
    ensures var c := Count(tdelta, bus, tsc, quantum); c == 1 || c * tsc <= tdelta * bus
  {
    TicksAtMost(tdelta, bus, tsc);
    hide Ticks;
    var c, k := Count(tdelta, bus, tsc, quantum), Ticks(tdelta, bus, tsc);
    if c > 1 { MulMono(c, k, tsc); }
  }

  /** Nor does it fall short by a whole tick, iff nothing overflows (the product
      64 bits, the count 32), or what is left of the count still covers the
      quantum, or there is no more than one tick to count. */
  lemma {:induction false} CountNotEarly(tdelta: nat, bus: nat, tsc: nat, quantum: nat)
    requires 0 < tsc < TWO64 && quantum > 0 && tdelta > 0
    ensures var x := tdelta * bus;
            var c := Count(tdelta, bus, tsc, quantum);
            c == quantum || (c + 1) * tsc > x
            <==>
            || (x < TWO64 && x / tsc < 0x1_0000_0000) || Ticks(tdelta, bus, tsc) >= quantum || quantum == 1
            || x / tsc <= 1
  {
    var x := tdelta * bus;
    var c, k := Count(tdelta, bus, tsc, quantum), Ticks(tdelta, bus, tsc);
    TicksExact(tdelta, bus, tsc);
    Covers(x, tsc, c);
    hide Ticks;
  }

  /** A delay of 2^32 + 5 ticks is counted as 5 of a quantum of 10. */
  lemma CountOverflows()
    ensures var d := 0x1_0000_0000 + 5;
            Count(d, 1, 1, 10) == 5 && 5 != 10 && (5 + 1) * 1 <= d * 1
  {
  }

  /** c ticks and one more outlast x iff c is at least the whole quotient. */
  lemma Covers(x: nat, m: nat, c: nat)
    requires m > 0
    ensures (c + 1) * m > x <==> c >= x / m
  {
    DivNext(x, m);
    DivMul(x, m);
    if c >= x / m {
      MulMono(x / m + 1, c + 1, m);
    } else {
      MulMono(c + 1, x / m, m);
    }
  }

  /** The ticks are the quotient iff neither operation overflows; else fewer. */
  lemma {:induction false} TicksExact(tdelta: nat, bus: nat, tsc: nat)
    requires 0 < tsc < TWO64
    ensures var x := tdelta * bus;
            && Ticks(tdelta, bus, tsc) <= x / tsc
            && (Ticks(tdelta, bus, tsc) == x / tsc <==> x < TWO64 && x / tsc < 0x1_0000_0000)
  {
    TicksOf(tdelta * bus, tdelta * bus % TWO64, tsc);
  }

  lemma {:induction false} TicksOf(x: nat, y: nat, tsc: nat)
    requires 0 < tsc < TWO64 && y == x % TWO64
    ensures var k := y / tsc % 0x1_0000_0000;
            k <= x / tsc && (k == x / tsc <==> x < TWO64 && x / tsc < 0x1_0000_0000)
  {
    var q := y / tsc;
    ModSmall(q, 0x1_0000_0000);
    if x < TWO64 {
      ModSmall(x, TWO64);
    } else {
      ModLess(x, TWO64);
      DivLess(y, x, tsc, TWO64);
    }
  }

  lemma ModSmall(a: nat, m: nat)
    requires m > 0
    ensures a % m <= a && (a % m == a <==> a < m)
  {
  }

  lemma ModLess(a: nat, m: nat)
    requires 0 < m <= a
    ensures a % m <= a - m
  {
    assert a == m * (a / m) + a % m;
    assert a / m >= 1;
    MulMono(1, a / m, m);
  }

  lemma DivLess(a: nat, b: nat, m: nat, d: nat)
    requires 0 < m < d && a <= b - d
    ensures a / m < b / m
  {
    DivMul(a, m);
    DivNext(b, m);
    if a / m >= b / m { MulMono(b / m + 1, a / m + 1, m); }
  }

  lemma DivNext(a: nat, m: nat)
    requires m > 0
    ensures (a / m + 1) * m > a
  {
    assert a == m * (a / m) + a % m;
  }

  lemma {:induction false} TicksAtMost(tdelta: nat, bus: nat, tsc: nat)
    requires tsc > 0
    ensures Ticks(tdelta, bus, tsc) * tsc <= tdelta * bus
  {
    var x := tdelta * bus;
    var q := x % TWO64 / tsc;
    ModAtMost(x, TWO64);
    ModAtMost(q, 0x1_0000_0000);
    DivMul(x % TWO64, tsc);
    MulMono(q % 0x1_0000_0000, q, tsc);
  }

  lemma ModAtMost(a: nat, m: nat)
    requires m > 0
    ensures a % m <= a
  {
  }

  lemma DivMul(a: nat, m: nat)
    requires m > 0
    ensures a / m * m <= a
  {
  }

  lemma MulMono(a: nat, b: nat, m: nat)
    requires a <= b
    ensures a * m <= b * m
  {
  }
}
