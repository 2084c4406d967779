/** kernel/util/logger.c: the ring between logger_putc and logger_getc, with
    one producer and one consumer interleaved at every access to shared
    memory. */
module Logger {

  const SIZE: nat := 65536

  /** x & LOGGER_BUF_MOD_MASK */
  function Slot(x: nat): (r: nat)
    ensures r < SIZE
  { x % SIZE }

  // ----- the two threads

  /** Where logger_putc is: it has read head; it has found room; it has
      stored the character. */
  datatype Putter = Idle | GotHead(c: char, newhead: nat) | Room(c: char, newhead: nat) | Stored(c: char, newhead: nat)

  /** Where logger_getc is: it has read tail; it has found a character there;
      it has loaded it. */
  datatype Getter = Resting | GotTail(newtail: nat) | Some(newtail: nat) | Loaded(newtail: nat, c: char)

  datatype State = State(
    head: nat, tail: nat, buf: seq<char>, putter: Putter, getter: Getter,
    accepted: seq<char>, delivered: seq<char>, printed: seq<char>, dropped: bool)

  function Init(buf: seq<char>): State {
    State(0, SIZE - 1, buf, Idle, Resting, [], [], [], false)
  }

  datatype Event = Call(c: char) | Put | Get

  /** One shared access of the producer. */
  function PutStep(s: State): State
    requires |s.buf| == SIZE && s.head < SIZE
  {
    match s.putter
    case Idle => s
    case GotHead(c, n) =>
      if n == s.tail then s.(putter := Idle, dropped := true) else s.(putter := Room(c, n))
    case Room(c, n) => s.(buf := s.buf[s.head := c], putter := Stored(c, n))
    case Stored(c, n) => s.(head := n, putter := Idle, accepted := s.accepted + [c])
  }

  /** One shared access of the consumer; the thread prints what it gets unless
      it is NUL, which it takes for an empty ring. */
  function GetStep(s: State): State
    requires |s.buf| == SIZE
  {
    match s.getter
    case Resting => s.(getter := GotTail(Slot(s.tail + 1)))
    case GotTail(n) => if n == s.head then s.(getter := Resting) else s.(getter := Some(n))
    case Some(n) => s.(getter := Loaded(n, s.buf[Slot(n)]))
    case Loaded(n, c) =>
      s.(tail := n, getter := Resting, delivered := s.delivered + [c],
         printed := if c == '\0' then s.printed else s.printed + [c])
  }

  function Step(s: State, e: Event): State
    requires |s.buf| == SIZE && s.head < SIZE
  {
    match e
    case Call(c) => if s.putter.Idle? then s.(putter := GotHead(c, Slot(s.head + 1))) else s
    case Put => PutStep(s)
    case Get => GetStep(s)
  }

  // ----- the invariant

  /** Character k of the accepted sequence is still in its slot. */
  predicate Kept(s: State, k: nat) {
    k < |s.accepted| && |s.buf| == SIZE && s.buf[Slot(k)] == s.accepted[k]
  }

  predicate PutterOk(s: State) {
    var n, m := |s.accepted|, |s.delivered|;
    match s.putter
    case Idle => true
    case GotHead(_, h) => h == Slot(n + 1)
    case Room(_, h) => h == Slot(n + 1) && n + 3 <= m + SIZE
    case Stored(c, h) => h == Slot(n + 1) && n + 3 <= m + SIZE && |s.buf| == SIZE && s.buf[Slot(n)] == c
  }

  predicate GetterOk(s: State) {
    var n, m := |s.accepted|, |s.delivered|;
    match s.getter
    case Resting => true
    case GotTail(t) => t == Slot(m)
    case Some(t) => t == Slot(m) && m < n
    case Loaded(t, c) => t == Slot(m) && m < n && c == s.accepted[m]
  }

  function NonNul(s: seq<char>): seq<char> {
    if s == [] then [] else NonNul(s[..|s| - 1]) + (if s[|s| - 1] == '\0' then [] else [s[|s| - 1]])
  }

  predicate Inv(s: State) {
    && |s.buf| == SIZE
    && s.head == Slot(|s.accepted|) && s.tail == Slot(|s.delivered| + SIZE - 1)
    && |s.delivered| <= |s.accepted| && |s.accepted| + 2 <= |s.delivered| + SIZE
    && s.delivered <= s.accepted
    && (forall k: nat :: |s.delivered| <= k < |s.accepted| ==> Kept(s, k))
    && PutterOk(s) && GetterOk(s)
    && s.printed == NonNul(s.delivered)
  }

  lemma Apart(a: nat, b: nat)
    requires a < b < a + SIZE
    ensures Slot(a) != Slot(b)
  {
  }

  lemma Next(a: nat)
    ensures Slot(Slot(a) + 1) == Slot(a + 1)
  {
  }

  /** newhead meets tail exactly when SIZE - 2 characters are held. */
  lemma FullTest(n: nat, m: nat)
    requires m <= n && n + 2 <= m + SIZE
    ensures Slot(n + 1) == Slot(m + SIZE - 1) <==> n + 2 == m + SIZE
  {
    if n + 2 < m + SIZE {
      Apart(n + 1, m + SIZE - 1);
    }
  }

  /** newtail meets head exactly when nothing is held. */
  lemma EmptyTest(n: nat, m: nat)
    requires m <= n && n + 2 <= m + SIZE
    ensures Slot(m) == Slot(n) <==> m == n
  {
    if m < n {
      Apart(m, n);
    }
  }

  lemma WrapTail(m: nat)
    ensures Slot(Slot(m + SIZE - 1) + 1) == Slot(m) && Slot(m + 1 + SIZE - 1) == Slot(m)
  {
    Next(m + SIZE - 1);
    assert (m + SIZE) % SIZE == m % SIZE;
  }

  // ----- what each access does

  /** The store goes to a slot that no unread character occupies. */
  lemma StoreSafe(s: State, k: nat)
    requires Inv(s) && s.putter.Room? && |s.delivered| <= k < |s.accepted|
    ensures s.head != Slot(k)
  {
    Apart(k, |s.accepted|);
  }

  /** The load comes from a slot that holds the next unread character. */
  lemma LoadSafe(s: State)
    requires Inv(s) && s.getter.Some?
    ensures |s.delivered| < |s.accepted| && s.buf[Slot(s.getter.newtail)] == s.accepted[|s.delivered|]
  {
    assert Kept(s, |s.delivered|);
  }

  /** A character is dropped exactly when SIZE - 2 are held. */
  lemma DropWhenFull(s: State)
    requires Inv(s) && s.putter.GotHead?
    ensures PutStep(s).putter.Idle? <==> |s.accepted| - |s.delivered| == SIZE - 2
  {
    FullTest(|s.accepted|, |s.delivered|);
  }

  lemma PutKeeps(s: State)
    requires Inv(s)
    ensures Inv(PutStep(s))
  {
    var t := PutStep(s);
    var n, m := |s.accepted|, |s.delivered|;
    match s.putter
    case Idle =>
    case GotHead(c, h) =>
      FullTest(n, m);
      assert forall k: nat :: Kept(s, k) ==> Kept(t, k);
    case Room(c, h) =>
      forall k: nat | m <= k < n
        ensures Kept(t, k)
      {
        assert Kept(s, k);
        StoreSafe(s, k);
      }
      if s.getter.Loaded? {
        assert Kept(s, m);
      }
    case Stored(c, h) =>
      forall k: nat | m <= k < n + 1
        ensures Kept(t, k)
      {
        assert k < n ==> Kept(s, k);
      }
  }

  lemma DeliverKeeps(s: State)
    requires Inv(s) && s.getter.Loaded?
    ensures Inv(GetStep(s))
  {
    var t, c := GetStep(s), s.getter.c;
    var m := |s.delivered|;
    WrapTail(m);
    hide Slot;
    assert forall k: nat :: Kept(s, k) ==> Kept(t, k);
    assert t.delivered[..m] == s.delivered;
    assert s.accepted[..m + 1] == s.delivered + [c];
  }

  lemma GetKeeps(s: State)
    requires Inv(s)
    ensures Inv(GetStep(s))
  {
    var t := GetStep(s);
    var n, m := |s.accepted|, |s.delivered|;
    WrapTail(m);
    hide Slot;
    assert forall k: nat :: Kept(s, k) ==> Kept(t, k);
    match s.getter
    case Resting =>
    case GotTail(_) => EmptyTest(n, m);
    case Some(_) => LoadSafe(s);
    case Loaded(_, _) => DeliverKeeps(s);
  }

  lemma StepKeeps(s: State, e: Event)
    requires Inv(s)
    ensures Inv(Step(s, e))
  {
    match e
    case Call(c) =>
      Next(|s.accepted|);
      assert forall k: nat :: Kept(s, k) ==> Kept(Step(s, e), k);
    case Put => PutKeeps(s);
    case Get => GetKeeps(s);
  }

  // ----- every interleaving

  function Run(s: State, es: seq<Event>): (r: State)
    requires Inv(s)
    ensures Inv(r)
    decreases |es|
  {
    if es == [] then s else StepKeeps(s, es[0]); Run(Step(s, es[0]), es[1..])
  }

  lemma InitOk(buf: seq<char>)
    requires |buf| == SIZE
    ensures Inv(Init(buf))
  {
  }

  /** Whatever the interleaving, what getc has returned is a prefix of what
      putc has accepted, the thread has printed it without the NULs, at most
      SIZE - 2 characters are held, and each held one is in its slot. */
  lemma EveryRun(buf: seq<char>, es: seq<Event>)
    requires |buf| == SIZE
    ensures Inv(Init(buf))
    ensures var s := Run(Init(buf), es);
            && s.delivered <= s.accepted && s.printed == NonNul(s.delivered)
            && |s.accepted| - |s.delivered| <= SIZE - 2
            && forall k: nat :: |s.delivered| <= k < |s.accepted| ==> s.buf[Slot(k)] == s.accepted[k]
  {
    InitOk(buf);
    var s := Run(Init(buf), es);
    forall k: nat | |s.delivered| <= k < |s.accepted|
      ensures s.buf[Slot(k)] == s.accepted[k]
    {
      assert Kept(s, k);
    }
  }

  // ----- the ring as the kernel holds it

  class Ring {
    var head: nat
    var tail: nat
    const buf: array<char>
    var dropped: bool
    var putter: Putter
    var getter: Getter
    ghost var accepted: seq<char>
    ghost var delivered: seq<char>
    ghost var printed: seq<char>

    ghost function Abs(): State
      reads this, buf
    {
      State(head, tail, buf[..], putter, getter, accepted, delivered, printed, dropped)
    }

    ghost predicate Valid()
      reads this, buf
    { buf.Length == SIZE && Inv(Abs()) }

    constructor ()
      ensures Valid() && fresh(buf) && Abs() == Init(buf[..])
    {
      head, tail, dropped := 0, SIZE - 1, false;
      putter, getter, accepted, delivered, printed := Idle, Resting, [], [], [];
      buf := new char[SIZE];
      new;
      InitOk(buf[..]);
    }

    /** The next shared access of logger_putc. */
    method Putc()
      requires Valid()
      modifies this, buf
      ensures Valid() && Abs() == PutStep(old(Abs()))
    {
      PutKeeps(Abs());
      hide Inv;
      match putter
      case Idle =>
      case GotHead(c, newhead) =>
        if newhead == tail {
          dropped := true;
          putter := Idle;
        } else {
          putter := Room(c, newhead);
        }
      case Room(c, newhead) =>
        Bounds(Abs());
        buf[head] := c;
        putter := Stored(c, newhead);
      case Stored(c, newhead) =>
        head := newhead;
        accepted := accepted + [c];
        putter := Idle;
    }

    /** The next shared access of logger_getc. */
    method Getc()
      requires Valid()
      modifies this
      ensures Valid() && Abs() == GetStep(old(Abs()))
    {
      GetKeeps(Abs());
      hide Inv;
      match getter
      case Resting => getter := GotTail(Slot(tail + 1));
      case GotTail(newtail) =>
        getter := if newtail == head then Resting else Some(newtail);
      case Some(newtail) => getter := Loaded(newtail, buf[Slot(newtail)]);
      case Loaded(newtail, c) =>
        tail := newtail;
        delivered := delivered + [c];
        printed := if c == '\0' then printed else printed + [c];
        getter := Resting;
    }

    /** A call of logger_putc: it reads head. */
    method Begin(c: char)
      requires Valid() && putter.Idle?
      modifies this`putter
      ensures Valid() && Abs() == Step(old(Abs()), Call(c))
    {
      StepKeeps(Abs(), Call(c));
      hide Inv;
      putter := GotHead(c, Slot(head + 1));
    }
  }

  lemma Bounds(s: State)
    requires Inv(s)
    ensures |s.buf| == SIZE && s.head < SIZE
  {
  }
}
