/** What one pass over the sleep queue should do, as functions on queues. */
module Sleep {

  /** Task x is due at `now`. */
  predicate IsDue(time: seq<nat>, now: nat, x: int) {
    0 <= x < |time| && time[x] <= now
  }

  predicate BoundTo(cpu: seq<int>, v: int, x: int) {
    0 <= x < |cpu| && cpu[x] == v
  }

  function Front(s: seq<int>): seq<int>
    requires s != []
  {
    s[..|s| - 1]
  }

  function Last(s: seq<int>): int
    requires s != []
  {
    s[|s| - 1]
  }

  /** The sleepers that are not due at `now`, in order. */
  function Asleep(s: seq<int>, time: seq<nat>, now: nat): seq<int> {
    if s == [] then []
    else Asleep(Front(s), time, now) + if IsDue(time, now, Last(s)) then [] else [Last(s)]
  }

  /** The sleepers that are due at `now`, in order. */
  function Due(s: seq<int>, time: seq<nat>, now: nat): seq<int> {
    if s == [] then []
    else Due(Front(s), time, now) + if IsDue(time, now, Last(s)) then [Last(s)] else []
  }

  /** Those of `s` bound to VCPU v, in order. */
  function Bound(s: seq<int>, cpu: seq<int>, v: int): seq<int> {
    if s == [] then []
    else Bound(Front(s), cpu, v) + if BoundTo(cpu, v, Last(s)) then [Last(s)] else []
  }

  /** Every sleeper either stays or is woken, and only once. */
  lemma {:induction false} Partition(s: seq<int>, time: seq<nat>, now: nat)
    ensures multiset(s) == multiset(Asleep(s, time, now)) + multiset(Due(s, time, now))
  {
    if s != [] {
      var f, x := Front(s), Last(s);
      var a, d := Asleep(f, time, now), Due(f, time, now);
      Partition(f, time, now);
      assert s == f + [x];
      PartSnoc(f, a, d, x);
      if IsDue(time, now, x) {
        assert Asleep(s, time, now) == a && Due(s, time, now) == d + [x];
      } else {
        assert Asleep(s, time, now) == a + [x] && Due(s, time, now) == d;
      }
    }
  }

  lemma PartSnoc(f: seq<int>, a: seq<int>, d: seq<int>, x: int)
    requires multiset(f) == multiset(a) + multiset(d)
    ensures multiset(f + [x]) == multiset(a + [x]) + multiset(d) == multiset(a) + multiset(d + [x])
  {
    Snoc(f, x);
    Snoc(a, x);
    Snoc(d, x);
  }

  lemma Snoc(s: seq<int>, x: int)
    ensures multiset(s + [x]) == multiset(s) + multiset{x}
  {
  }

  /** The tasks of s are bound to VCPUs below nv. */
  ghost predicate Housed(s: seq<int>, cpu: seq<int>, nv: nat) {
    forall j :: 0 <= j < |s| ==> 0 <= s[j] < |cpu| && 0 <= cpu[s[j]] < nv
  }

  lemma {:induction false} DueMember(s: seq<int>, time: seq<nat>, now: nat, x: int)
    requires x in Due(s, time, now)
    ensures x in s
  {
    if s != [] && x != Last(s) { DueMember(Front(s), time, now, x); }
  }

  lemma {:induction false} BoundElsewhere(s: seq<int>, x: int, cpu: seq<int>, v: int, c: int)
    requires 0 <= x < |cpu| && x !in s
    ensures Bound(s, cpu[x := c], v) == Bound(s, cpu, v)
  {
    if s != [] { BoundElsewhere(Front(s), x, cpu, v, c); }
  }

  /** The queues after the first i sleepers of `s` (the sleep queue `nv` of
      `qs0`) have been examined: those not due stay, in order; each due one has
      been bound and appended, in order, to the runqueue of its VCPU; nothing
      else moved.
      The time of a woken task is cleared. */
  ghost predicate Examined(qs0: seq<seq<int>>, qs: seq<seq<int>>, nv: nat, i: nat, cpu: seq<int>,
                           time0: seq<nat>, time: seq<nat>, now: nat)
  {
    && nv < |qs0| == |qs| && i <= |qs0[nv]| && |cpu| == |time0| == |time|
    && (forall j :: 0 <= j < |qs0[nv]| ==> 0 <= qs0[nv][j] < |time0|)
    && qs[nv] == Asleep(qs0[nv][..i], time0, now) + qs0[nv][i..]
    && (forall v :: 0 <= v < nv ==> qs[v] == qs0[v] + Bound(Due(qs0[nv][..i], time0, now), cpu, v))
    && Housed(Due(qs0[nv][..i], time0, now), cpu, nv)
    && (forall k :: nv < k < |qs| ==> qs[k] == qs0[k])
    && (forall y :: 0 <= y < |time| ==> time[y] == if y in Due(qs0[nv][..i], time0, now) then 0 else time0[y])
  }

  lemma ExaminedStart(qs0: seq<seq<int>>, nv: nat, cpu: seq<int>, time0: seq<nat>, now: nat)
    requires nv < |qs0| && |cpu| == |time0|
    requires forall j :: 0 <= j < |qs0[nv]| ==> 0 <= qs0[nv][j] < |time0|
    ensures Examined(qs0, qs0, nv, 0, cpu, time0, time0, now)
  {
    assert qs0[nv][..0] == [] && qs0[nv][0..] == qs0[nv];
  }

  /** A sleeper that stays. */
  lemma {:induction false} ExaminedKept(qs0: seq<seq<int>>, qs: seq<seq<int>>, nv: nat, i: nat, cpu: seq<int>,
                                        time0: seq<nat>, time: seq<nat>, now: nat)
    requires Examined(qs0, qs, nv, i, cpu, time0, time, now) && i < |qs0[nv]| && time0[qs0[nv][i]] > now
    ensures Examined(qs0, qs, nv, i + 1, cpu, time0, time, now)
    ensures Asleep(qs0[nv][..i + 1], time0, now) == Asleep(qs0[nv][..i], time0, now) + [qs0[nv][i]]
  {
    var s := qs0[nv];
    hide Asleep, Due, Bound;
    NextDue(s, i, time0, now);
    assert s[i..] == [s[i]] + s[i + 1..];
    assert Asleep(s[..i], time0, now) + s[i..] == Asleep(s[..i], time0, now) + [s[i]] + s[i + 1..];
  }

  /** A sleeper that is woken and appended to the runqueue of VCPU v. */
  lemma {:induction false} ExaminedWoken(qs0: seq<seq<int>>, qs: seq<seq<int>>, nv: nat, i: nat, cpu: seq<int>,
                                         time0: seq<nat>, time: seq<nat>, now: nat, v: nat, qs': seq<seq<int>>)
    requires Examined(qs0, qs, nv, i, cpu, time0, time, now) && i < |qs0[nv]| && time0[qs0[nv][i]] <= now && v < nv
    requires qs0[nv][i] !in qs0[nv][..i]
    requires qs' == qs[nv := Asleep(qs0[nv][..i], time0, now) + qs0[nv][i + 1..]][v := qs[v] + [qs0[nv][i]]]
    ensures var x := qs0[nv][i];
            Examined(qs0, qs', nv, i + 1, cpu[x := v], time0, time[x := 0], now)
    ensures Asleep(qs0[nv][..i + 1], time0, now) == Asleep(qs0[nv][..i], time0, now)
  {
    var s, x := qs0[nv], qs0[nv][i];
    var d := Due(s[..i], time0, now);
    hide Asleep, Due, Bound;
    NextDue(s, i, time0, now);
    if x in d { DueMember(s[..i], time0, now, x); }
    forall u | 0 <= u < nv ensures qs'[u] == qs0[u] + Bound(d + [x], cpu[x := v], u) {
      BoundNext(d, x, cpu, u, v);
    }
  }

  /** One more sleeper. */
  lemma {:induction false} NextDue(s: seq<int>, i: nat, time: seq<nat>, now: nat)
    requires i < |s|
    ensures IsDue(time, now, s[i]) ==>
              && Asleep(s[..i + 1], time, now) == Asleep(s[..i], time, now)
              && Due(s[..i + 1], time, now) == Due(s[..i], time, now) + [s[i]]
    ensures !IsDue(time, now, s[i]) ==>
              && Asleep(s[..i + 1], time, now) == Asleep(s[..i], time, now) + [s[i]]
              && Due(s[..i + 1], time, now) == Due(s[..i], time, now)
  {
    assert Front(s[..i + 1]) == s[..i] && Last(s[..i + 1]) == s[i];
    hide IsDue;
  }

  /** Binding one more task to v puts it behind the others there. */
  lemma {:induction false} BoundNext(d: seq<int>, x: int, cpu: seq<int>, u: int, v: int)
    requires 0 <= x < |cpu| && x !in d
    ensures Bound(d + [x], cpu[x := v], u) == Bound(d, cpu, u) + if u == v then [x] else []
  {
    assert Front(d + [x]) == d && Last(d + [x]) == x;
    BoundElsewhere(d, x, cpu, u, v);
  }

  /** A task is among those bound to its own VCPU and to no other. */
  lemma {:induction false} BoundMember(s: seq<int>, cpu: seq<int>, v: int, x: int)
    ensures x in Bound(s, cpu, v) <==> x in s && BoundTo(cpu, v, x)
  {
    if s != [] {
      assert s == Front(s) + [Last(s)];
      BoundMember(Front(s), cpu, v, x);
    }
  }

  lemma {:induction false} AsleepOrDue(s: seq<int>, time: seq<nat>, now: nat, x: int)
    ensures x in s <==> x in Asleep(s, time, now) || x in Due(s, time, now)
  {
    Partition(s, time, now);
    hide Asleep, Due;
    assert x in s <==> x in multiset(s);
    assert x in Asleep(s, time, now) <==> x in multiset(Asleep(s, time, now));
    assert x in Due(s, time, now) <==> x in multiset(Due(s, time, now));
  }
}
