/** kernel/module/loader.c: which kernel modules get initialized, in what
    order, and how a dependency string names them. */
module ModuleLoader {

  /** A dependency string, with the three bytes that happen to lie before it:
      the test for a trailing "___" looks at them when the first name is short. */
  datatype Dep = Dep(b3: char, b2: char, b1: char, names: string)

  /** init is the outcome its init function has whenever it is called. */
  datatype Module = Module(name: string, deps: seq<Dep>, init: bool)

  // ----- dependency strings

  /** names[i..j] is one of the |-separated names. */
  predicate Part(names: string, i: nat, j: nat) {
    && names != "" && i <= j <= |names|
    && (i == 0 || names[i - 1] == '|')
    && (j == |names| || names[j] == '|')
    && (forall k :: i <= k < j ==> names[k] != '|')
  }

  /** The character at offset k from the start of the string. */
  function At(d: Dep, k: int): char
    requires -3 <= k < |d.names|
  {
    if k == -3 then d.b3 else if k == -2 then d.b2 else if k == -1 then d.b1 else d.names[k]
  }

  predicate Subtree(d: Dep, j: nat)
    requires j <= |d.names|
  {
    At(d, j - 1) == '_' && At(d, j - 2) == '_' && At(d, j - 3) == '_'
  }

  predicate EndsBlank(s: string) {
    |s| >= 3 && s[|s| - 1] == '_' && s[|s| - 2] == '_' && s[|s| - 3] == '_'
  }

  /** The bytes before the string that the test reaches are all '_'. */
  predicate BlankBefore(d: Dep, j: nat) {
    d.b1 == '_' && (j <= 1 ==> d.b2 == '_') && (j == 0 ==> d.b3 == '_')
  }

  /** The subtree test is decided by the name alone, except for a first name
      of fewer than three characters, all '_': then memory before the string
      decides. */
  lemma SubtreeExact(d: Dep, i: nat, j: nat)
    requires Part(d.names, i, j)
    ensures Subtree(d, j) <==>
            || EndsBlank(d.names[i..j])
            || (i == 0 && j < 3 && BlankBefore(d, j) && forall k :: 0 <= k < j ==> d.names[k] == '_')
  {
    var s := d.names[i..j];
    if |s| >= 3 {
      assert s[|s| - 1] == At(d, j - 1) && s[|s| - 2] == At(d, j - 2) && s[|s| - 3] == At(d, j - 3);
    } else if i > 0 {
      assert At(d, i - 1) == '|';
    } else {
      assert forall k :: 0 <= k < j ==> d.names[k] == At(d, k);
    }
  }

  // ----- strncmp

  /** strncmp(a, b, n) == 0 on the characters before the terminators. */
  predicate SameUpTo(a: string, b: string, n: nat) {
    n == 0 || (if a == "" || b == "" then a == b else a[0] == b[0] && SameUpTo(a[1..], b[1..], n - 1))
  }

  lemma {:induction false} SameIsPrefix(a: string, b: string, n: nat)
    requires n <= |b|
    ensures SameUpTo(a, b, n) <==> b[..n] <= a
  {
    if n != 0 && a != "" {
      SameIsPrefix(a[1..], b[1..], n - 1);
      assert b[..n] == [b[0]] + b[1..][..n - 1];
      assert a == [a[0]] + a[1..];
      if b[..n] <= a {
        assert b[..n][1..] <= a[1..];
      }
    }
  }

  /** Module m answers the name names[i..j]: it lies in the named subtree, or
      it is the first module of that name. */
  predicate Matches(mods: seq<Module>, d: Dep, i: nat, j: nat, m: nat)
    requires i <= j <= |d.names| && m < |mods|
  {
    if Subtree(d, j) then d.names[i..j] <= mods[m].name else d.names[i..j] == mods[m].name
  }

  predicate Answers(mods: seq<Module>, d: Dep, i: nat, j: nat, m: nat) {
    && i <= j <= |d.names| && m < |mods| && Matches(mods, d, i, j, m)
    && (Subtree(d, j) || forall k :: 0 <= k < m ==> !Matches(mods, d, i, j, k))
  }

  ghost predicate Wanted(mods: seq<Module>, d: Dep, m: nat) {
    exists i: nat, j: nat :: Part(d.names, i, j) && Answers(mods, d, i, j, m)
  }

  // ----- which modules can be loaded

  /** rank shows that the dependencies have no cycle. */
  ghost predicate Acyclic(mods: seq<Module>, rank: seq<nat>) {
    && |rank| == |mods|
    && (forall n: nat, k: nat, m: nat :: n < |mods| && k < |mods[n].deps| && Wanted(mods, mods[n].deps[k], m) ==>
          m < |mods| && rank[m] < rank[n])
  }

  ghost predicate Loadable(mods: seq<Module>, rank: seq<nat>, n: nat)
    requires Acyclic(mods, rank)
    decreases if n < |rank| then rank[n] else 0, 1
  {
    && n < |mods| && mods[n].init
    && forall k: nat :: k < |mods[n].deps| ==> Answerable(mods, rank, n, k)
  }

  /** Some loadable module answers dependency k of module n. */
  ghost predicate Answerable(mods: seq<Module>, rank: seq<nat>, n: nat, k: nat)
    requires Acyclic(mods, rank) && n < |mods| && k < |mods[n].deps|
    decreases rank[n], 0
  {
    exists m: nat :: Wanted(mods, mods[n].deps[k], m) && Loadable(mods, rank, m)
  }

  /** Modules up after these calls of init. */
  function Up(mods: seq<Module>, calls: seq<nat>): set<nat> {
    if calls == [] then {}
    else
      var n := calls[|calls| - 1];
      Up(mods, calls[..|calls| - 1]) + (if n < |mods| && mods[n].init then {n} else {})
  }

  ghost predicate Met(mods: seq<Module>, d: Dep, s: set<nat>) {
    exists m: nat :: m in s && Wanted(mods, d, m)
  }

  /** Every dependency of n is answered by a module of s. */
  ghost predicate Satisfied(mods: seq<Module>, n: nat, s: set<nat>) {
    n < |mods| && forall k: nat :: k < |mods[n].deps| ==> Met(mods, mods[n].deps[k], s)
  }

  /** At every call of init the module was not up yet and its dependencies
      were satisfied by modules already up. */
  ghost predicate Proper(mods: seq<Module>, calls: seq<nat>) {
    calls == [] ||
    var front, n := calls[..|calls| - 1], calls[|calls| - 1];
    Proper(mods, front) && n !in Up(mods, front) && Satisfied(mods, n, Up(mods, front))
  }

  lemma {:induction false} UpGrows(mods: seq<Module>, c: seq<nat>, calls: seq<nat>)
    requires c <= calls
    ensures Up(mods, c) <= Up(mods, calls)
    decreases |calls|
  {
    if |c| < |calls| {
      UpGrows(mods, c, calls[..|calls| - 1]);
    } else {
      assert c == calls;
    }
  }

  lemma {:induction false} UpIs(mods: seq<Module>, calls: seq<nat>, n: nat)
    ensures n in Up(mods, calls) <==> n in calls && n < |mods| && mods[n].init
  {
    if calls != [] {
      var front := calls[..|calls| - 1];
      UpIs(mods, front, n);
      assert calls == front + [calls[|calls| - 1]];
    }
  }

  lemma {:induction false} UpLoadable(mods: seq<Module>, rank: seq<nat>, calls: seq<nat>, n: nat)
    requires Acyclic(mods, rank) && Proper(mods, calls) && n in Up(mods, calls)
    ensures Loadable(mods, rank, n)
    decreases |calls|
  {
    var front, last := calls[..|calls| - 1], calls[|calls| - 1];
    if n in Up(mods, front) {
      UpLoadable(mods, rank, front, n);
    } else {
      forall k: nat | k < |mods[n].deps|
        ensures Answerable(mods, rank, n, k)
      {
        assert Met(mods, mods[n].deps[k], Up(mods, front));
        var m: nat :| m in Up(mods, front) && Wanted(mods, mods[n].deps[k], m);
        UpLoadable(mods, rank, front, m);
      }
    }
  }

  /** A module that is up stays satisfied as more come up. */
  lemma {:induction false} UpSatisfied(mods: seq<Module>, calls: seq<nat>, n: nat)
    requires Proper(mods, calls) && n in Up(mods, calls)
    ensures Satisfied(mods, n, Up(mods, calls))
    decreases |calls|
  {
    var front := calls[..|calls| - 1];
    UpGrows(mods, front, calls);
    if n in Up(mods, front) {
      UpSatisfied(mods, front, n);
    }
  }

  /** init is never called again after it succeeded. */
  lemma {:induction false} NeverAgain(mods: seq<Module>, calls: seq<nat>, a: nat, b: nat)
    requires Proper(mods, calls) && a < b < |calls| && calls[a] == calls[b]
    ensures calls[a] < |mods| && !mods[calls[a]].init
    decreases |calls|
  {
    var front := calls[..|calls| - 1];
    if b == |calls| - 1 {
      UpIs(mods, front, calls[b]);
      assert front[a] == calls[b];
    } else {
      NeverAgain(mods, front, a, b);
    }
  }

  /** The calls of init made since c0 are all of modules ranked below r. */
  predicate Below(mods: seq<Module>, rank: seq<nat>, c0: seq<nat>, c1: seq<nat>, r: nat) {
    && c0 <= c1 && |rank| == |mods|
    && forall k :: |c0| <= k < |c1| ==> c1[k] < |mods| && rank[c1[k]] < r
  }

  lemma StillDown(mods: seq<Module>, rank: seq<nat>, c0: seq<nat>, c1: seq<nat>, n: nat)
    requires n < |mods| && |rank| == |mods| && Below(mods, rank, c0, c1, rank[n]) && n !in Up(mods, c0)
    ensures n !in Up(mods, c1)
  {
    UpIs(mods, c0, n);
    UpIs(mods, c1, n);
  }

  ghost predicate AllMet(mods: seq<Module>, rank: seq<nat>, calls: seq<nat>, n: nat, upTo: nat)
    requires Acyclic(mods, rank) && n < |mods| && upTo <= |mods[n].deps|
  {
    forall k: nat :: k < upTo ==> Met(mods, mods[n].deps[k], Up(mods, calls)) && Answerable(mods, rank, n, k)
  }

  lemma MetGrows(mods: seq<Module>, d: Dep, s: set<nat>, t: set<nat>)
    requires s <= t && Met(mods, d, s)
    ensures Met(mods, d, t)
  {
    var m: nat :| m in s && Wanted(mods, d, m);
    assert m in t;
  }

  lemma OneMoreMet(mods: seq<Module>, rank: seq<nat>, c0: seq<nat>, c1: seq<nat>, n: nat, k: nat)
    requires Acyclic(mods, rank) && n < |mods| && k < |mods[n].deps| && c0 <= c1 && AllMet(mods, rank, c0, n, k)
    requires Met(mods, mods[n].deps[k], Up(mods, c1)) && Answerable(mods, rank, n, k)
    ensures AllMet(mods, rank, c1, n, k + 1)
  {
    hide Up, Wanted, Answerable, Acyclic, Met;
    UpGrows(mods, c0, c1);
    forall i: nat | i < k
      ensures Met(mods, mods[n].deps[i], Up(mods, c1))
    {
      MetGrows(mods, mods[n].deps[i], Up(mods, c0), Up(mods, c1));
    }
  }

  lemma DownIfUnloadable(mods: seq<Module>, rank: seq<nat>, calls: seq<nat>, n: nat)
    requires Acyclic(mods, rank) && Proper(mods, calls) && !Loadable(mods, rank, n)
    ensures n !in Up(mods, calls)
  {
    if n in Up(mods, calls) {
      UpLoadable(mods, rank, calls, n);
    }
  }

  /** A call of init when all dependencies are met. */
  lemma Called(mods: seq<Module>, rank: seq<nat>, c0: seq<nat>, c1: seq<nat>, n: nat)
    requires Acyclic(mods, rank) && n < |mods| && Proper(mods, c1) && n !in Up(mods, c0)
    requires Below(mods, rank, c0, c1, rank[n]) && AllMet(mods, rank, c1, n, |mods[n].deps|)
    ensures Proper(mods, c1 + [n]) && Below(mods, rank, c0, c1 + [n], rank[n] + 1)
    ensures Up(mods, c1 + [n]) == if mods[n].init then Up(mods, c1) + {n} else Up(mods, c1)
    ensures mods[n].init <==> Loadable(mods, rank, n)
    ensures mods[n].init <==> n in Up(mods, c1 + [n])
  {
    StillDown(mods, rank, c0, c1, n);
    assert (c1 + [n])[..|c1 + [n]| - 1] == c1;
  }

  lemma BelowJoin(mods: seq<Module>, rank: seq<nat>, c0: seq<nat>, c1: seq<nat>, c2: seq<nat>, q: nat, r: nat)
    requires Below(mods, rank, c0, c1, r) && Below(mods, rank, c1, c2, q) && q <= r
    ensures Below(mods, rank, c0, c2, r)
  {
  }

  // ----- the answers to one name

  /** All answers to names[i..j] among the first m modules were tried, and
      success says whether one of them was loadable. */
  ghost predicate Tried(mods: seq<Module>, rank: seq<nat>, calls: seq<nat>, d: Dep, i: nat, j: nat, m: nat,
                        success: bool)
    requires Acyclic(mods, rank)
  {
    && (forall x: nat :: x < m && Answers(mods, d, i, j, x) && Loadable(mods, rank, x) ==>
          success && x in Up(mods, calls))
    && (success ==> exists x: nat :: x in Up(mods, calls) && Answers(mods, d, i, j, x))
  }

  lemma TriedOne(mods: seq<Module>, rank: seq<nat>, c0: seq<nat>, c1: seq<nat>, d: Dep, i: nat, j: nat, m: nat,
                 success: bool, ok: bool)
    requires Acyclic(mods, rank) && c0 <= c1 && Tried(mods, rank, c0, d, i, j, m, success)
    requires Answers(mods, d, i, j, m) && (ok <==> Loadable(mods, rank, m)) && (ok <==> m in Up(mods, c1))
    ensures Tried(mods, rank, c1, d, i, j, m + 1, success || ok)
  {
    hide Answers, Up, Loadable;
    UpGrows(mods, c0, c1);
  }

  /** A name that is not a subtree has one answer. */
  lemma TriedOnly(mods: seq<Module>, rank: seq<nat>, c: seq<nat>, d: Dep, i: nat, j: nat, m: nat, success: bool)
    requires Acyclic(mods, rank) && Tried(mods, rank, c, d, i, j, m + 1, success)
    requires Answers(mods, d, i, j, m) && !Subtree(d, j)
    ensures Tried(mods, rank, c, d, i, j, |mods|, success)
  {
    hide Loadable, Up, Matches, Subtree;
    forall x: nat | Answers(mods, d, i, j, x)
      ensures x == m
    {
    }
  }

  lemma MatchIs(mods: seq<Module>, d: Dep, i: nat, j: nat, m: nat)
    requires i <= j <= |d.names| && m < |mods|
    ensures Matches(mods, d, i, j, m)
       <==> (Subtree(d, j) || |mods[m].name| == j - i) && SameUpTo(mods[m].name, d.names[i..], j - i)
  {
    hide Subtree, SameUpTo;
    var name := mods[m].name;
    SameIsPrefix(name, d.names[i..], j - i);
    assert d.names[i..][..j - i] == d.names[i..j];
  }

  lemma AnswerRank(mods: seq<Module>, rank: seq<nat>, n: nat, k: nat, i: nat, j: nat, m: nat)
    requires Acyclic(mods, rank) && n < |mods| && k < |mods[n].deps|
    requires Part(mods[n].deps[k].names, i, j) && Answers(mods, mods[n].deps[k], i, j, m)
    ensures m < |mods| && rank[m] < rank[n]
  {
    assert Wanted(mods, mods[n].deps[k], m);
  }

  // ----- the names of one dependency

  /** Every name that starts before position i was tried. */
  ghost predicate Covered(mods: seq<Module>, rank: seq<nat>, calls: seq<nat>, d: Dep, i: nat, success: bool)
    requires Acyclic(mods, rank)
  {
    && (forall a: nat, b: nat :: Part(d.names, a, b) && a < i ==> Answered(mods, rank, calls, d, a, b, success))
    && (success ==> Met(mods, d, Up(mods, calls)))
  }

  ghost predicate Answered(mods: seq<Module>, rank: seq<nat>, calls: seq<nat>, d: Dep, i: nat, j: nat, success: bool)
    requires Acyclic(mods, rank)
  {
    forall x: nat :: Answers(mods, d, i, j, x) && Loadable(mods, rank, x) ==> success && x in Up(mods, calls)
  }

  lemma CoveredOne(mods: seq<Module>, rank: seq<nat>, c0: seq<nat>, c1: seq<nat>, d: Dep, i: nat, j: nat,
                   success: bool, found: bool)
    requires Acyclic(mods, rank) && c0 <= c1 && Covered(mods, rank, c0, d, i, success)
    requires Part(d.names, i, j) && Tried(mods, rank, c1, d, i, j, |mods|, found)
    ensures Covered(mods, rank, c1, d, j + 1, success || found)
  {
    hide Loadable, Up;
    UpGrows(mods, c0, c1);
    forall a: nat, b: nat | Part(d.names, a, b) && a < j + 1
      ensures Answered(mods, rank, c1, d, a, b, success || found)
    {
      if a < i {
        assert Answered(mods, rank, c0, d, a, b, success);
      } else {
        SamePart(d.names, i, j, a, b);
      }
    }
    if found {
      var x: nat :| x in Up(mods, c1) && Answers(mods, d, i, j, x);
      assert Wanted(mods, d, x);
    } else if success {
      var x: nat :| x in Up(mods, c0) && Wanted(mods, d, x);
    }
  }

  lemma SamePart(names: string, i: nat, j: nat, a: nat, b: nat)
    requires Part(names, i, j) && Part(names, a, b) && i <= a <= j
    ensures a == i && b == j
  {
  }

  lemma CoveredAll(mods: seq<Module>, rank: seq<nat>, c: seq<nat>, n: nat, k: nat, success: bool)
    requires Acyclic(mods, rank) && n < |mods| && k < |mods[n].deps| && Proper(mods, c)
    requires Covered(mods, rank, c, mods[n].deps[k], |mods[n].deps[k].names| + 1, success)
    ensures success <==> Answerable(mods, rank, n, k)
    ensures success <==> Met(mods, mods[n].deps[k], Up(mods, c))
    ensures AllTried(mods, rank, c, mods[n].deps[k])
  {
    var d := mods[n].deps[k];
    hide Up, Proper;
    if Met(mods, d, Up(mods, c)) {
      var m: nat :| m in Up(mods, c) && Wanted(mods, d, m);
      UpLoadable(mods, rank, c, m);
    }
    forall m: nat | Wanted(mods, d, m) && Loadable(mods, rank, m)
      ensures success && m in Up(mods, c)
    {
      var i: nat, j: nat :| Part(d.names, i, j) && Answers(mods, d, i, j, m);
      assert Answered(mods, rank, c, d, i, j, success);
    }
  }

  /** Every loadable module that the dependency names is up. */
  ghost predicate AllTried(mods: seq<Module>, rank: seq<nat>, calls: seq<nat>, d: Dep)
    requires Acyclic(mods, rank)
  {
    forall m: nat :: Wanted(mods, d, m) && Loadable(mods, rank, m) ==> m in Up(mods, calls)
  }

  // ----- the code

  class Loader {
    const mods: seq<Module>
    ghost const rank: seq<nat>
    const loaded: array<bool>
    ghost var calls: seq<nat>

    ghost predicate Valid()
      reads this, loaded
    {
      && Acyclic(mods, rank) && |rank| == |mods| && loaded.Length == |mods|
      && Proper(mods, calls)
      && (forall n: nat :: n < |mods| ==> (loaded[n] <==> n in Up(mods, calls)))
    }

    constructor (mods: seq<Module>, ghost rank: seq<nat>)
      requires Acyclic(mods, rank)
      ensures Valid() && fresh(loaded) && this.mods == mods && this.rank == rank && calls == []
    {
      this.mods, this.rank, calls := mods, rank, [];
      loaded := new bool[|mods|](_ => false);
    }

    /** module_load_i */
    method LoadIndex(modi: int) returns (ok: bool)
      requires Valid() && modi < |mods|
      modifies this`calls, loaded
      ensures Valid() && Below(mods, rank, old(calls), calls, if modi < 0 then 0 else rank[modi] + 1)
      ensures ok <==> 0 <= modi && Loadable(mods, rank, modi)
      ensures ok <==> modi in Up(mods, calls)
      decreases if modi < 0 then 0 else rank[modi], 3
    {
      hide Loadable, Answerable, Proper, Up, Met, Acyclic;
      if modi < 0 { return false; }
      if loaded[modi] {
        UpLoadable(mods, rank, calls, modi);
        return true;
      }
      var depi := 0;
      while depi < |mods[modi].deps|
        invariant depi <= |mods[modi].deps| && Valid() && Below(mods, rank, old(calls), calls, rank[modi])
        invariant AllMet(mods, rank, calls, modi, depi)
      {
        ghost var c := calls;
        var found := LoadDisj(modi, depi);
        if !found {
          BelowJoin(mods, rank, old(calls), c, calls, rank[modi], rank[modi] + 1);
          Unanswered(mods, rank, modi, depi);
          DownIfUnloadable(mods, rank, calls, modi);
          return false;
        }
        BelowJoin(mods, rank, old(calls), c, calls, rank[modi], rank[modi]);
        OneMoreMet(mods, rank, c, calls, modi, depi);
        depi := depi + 1;
      }
      Called(mods, rank, old(calls), calls, modi);
      calls := calls + [modi];
      if mods[modi].init {
        loaded[modi] := true;
      }
      return mods[modi].init;
    }

    /** module_load_disj on dependency k of module n */
    method LoadDisj(n: nat, k: nat) returns (success: bool)
      requires Valid() && n < |mods| && k < |mods[n].deps|
      modifies this`calls, loaded
      ensures Valid() && Below(mods, rank, old(calls), calls, rank[n])
      ensures success <==> Answerable(mods, rank, n, k)
      ensures success <==> Met(mods, mods[n].deps[k], Up(mods, calls))
      ensures AllTried(mods, rank, calls, mods[n].deps[k])
      decreases rank[n], 2
    {
      hide Loadable, Answerable, Proper, Up, Met, Acyclic, Part;
      success := false;
      var names := mods[n].deps[k].names;
      var i, j := 0, 0;
      CoveredNone(mods, rank, calls, mods[n].deps[k]);
      while j < |names|
        invariant j <= |names| && Valid() && Below(mods, rank, old(calls), calls, rank[n])
        invariant (i == 0 && j == 0) || (i == j + 1 && (j < |names| ==> names[j] == '|'))
        invariant Covered(mods, rank, calls, mods[n].deps[k], i, success)
        decreases |names| + 1 - i
      {
        j := i;
        while j < |names| && names[j] != '|'
          invariant i <= j <= |names|
          invariant forall x :: i <= x < j ==> names[x] != '|'
        {
          j := j + 1;
        }
        PartFound(names, i, j);
        ghost var c := calls;
        var found := LoadName(n, k, mods[n].deps[k], i, j);
        BelowJoin(mods, rank, old(calls), c, calls, rank[n], rank[n]);
        CoveredOne(mods, rank, c, calls, mods[n].deps[k], i, j, success, found);
        success := success || found;
        i := j + 1;
      }
      if i == 0 {
        CoveredEmpty(mods, rank, calls, mods[n].deps[k], success);
      }
      CoveredAll(mods, rank, calls, n, k, success);
    }

    /** module_load_name */
    method LoadName(ghost n: nat, ghost k: nat, d: Dep, i: nat, j: nat) returns (success: bool)
      requires Valid() && n < |mods| && k < |mods[n].deps| && d == mods[n].deps[k] && Part(d.names, i, j)
      modifies this`calls, loaded
      ensures Valid() && Below(mods, rank, old(calls), calls, rank[n])
      ensures Tried(mods, rank, calls, d, i, j, |mods|, success)
      decreases rank[n], 1
    {
      hide Loadable, Proper, Up, Acyclic, Matches, Subtree, Tried, SameUpTo;
      success := false;
      var subtree := Subtree(d, j);
      var m := 0;
      TriedNone(mods, rank, calls, d, i, j);
      while m < |mods|
        invariant m <= |mods| && Valid() && Below(mods, rank, old(calls), calls, rank[n])
        invariant Tried(mods, rank, calls, d, i, j, m, success)
        invariant !subtree ==> !success && forall x: nat :: x < m ==> !Matches(mods, d, i, j, x)
      {
        MatchIs(mods, d, i, j, m);
        if (subtree || |mods[m].name| == j - i) && SameUpTo(mods[m].name, d.names[i..], j - i) {
          assert Answers(mods, d, i, j, m);
          AnswerRank(mods, rank, n, k, i, j, m);
          ghost var c := calls;
          var ok := LoadIndex(m);
          BelowJoin(mods, rank, old(calls), c, calls, rank[m] + 1, rank[n]);
          TriedOne(mods, rank, c, calls, d, i, j, m, success, ok);
          success := success || ok;
          if !subtree {
            TriedOnly(mods, rank, calls, d, i, j, m, success);
            return;
          }
        } else {
          TriedSkip(mods, rank, calls, d, i, j, m, success);
        }
        m := m + 1;
      }
    }

    /** The loading loop of module_load_all. */
    method LoadAll()
      requires Valid()
      modifies this`calls, loaded
      ensures Valid() && old(calls) <= calls
      ensures forall n: nat :: n < |mods| ==> (loaded[n] <==> Loadable(mods, rank, n))
    {
      hide Loadable, Proper, Up, Acyclic;
      var i := 0;
      while i < |mods|
        invariant i <= |mods| && Valid() && old(calls) <= calls
        invariant forall n: nat :: n < i ==> (n in Up(mods, calls) <==> Loadable(mods, rank, n))
      {
        ghost var c := calls;
        var _ := LoadIndex(i);
        UpGrows(mods, c, calls);
        forall n: nat | n < i
          ensures n in Up(mods, calls) <==> Loadable(mods, rank, n)
        {
          if n in Up(mods, calls) {
            UpLoadable(mods, rank, calls, n);
          }
        }
        i := i + 1;
      }
    }
  }

  lemma PartFound(names: string, i: nat, j: nat)
    requires names != "" && i <= j <= |names| && (i == 0 || names[i - 1] == '|') && (j < |names| ==> names[j] == '|')
    requires forall x :: i <= x < j ==> names[x] != '|'
    ensures Part(names, i, j)
  {
  }

  lemma CoveredNone(mods: seq<Module>, rank: seq<nat>, c: seq<nat>, d: Dep)
    requires Acyclic(mods, rank)
    ensures Covered(mods, rank, c, d, 0, false)
  {
  }

  lemma CoveredEmpty(mods: seq<Module>, rank: seq<nat>, c: seq<nat>, d: Dep, success: bool)
    requires Acyclic(mods, rank) && d.names == "" && Covered(mods, rank, c, d, 0, success)
    ensures Covered(mods, rank, c, d, 1, success)
  {
  }

  lemma TriedNone(mods: seq<Module>, rank: seq<nat>, c: seq<nat>, d: Dep, i: nat, j: nat)
    requires Acyclic(mods, rank)
    ensures Tried(mods, rank, c, d, i, j, 0, false)
  {
  }

  lemma TriedSkip(mods: seq<Module>, rank: seq<nat>, c: seq<nat>, d: Dep, i: nat, j: nat, m: nat, success: bool)
    requires Acyclic(mods, rank) && Tried(mods, rank, c, d, i, j, m, success) && !Answers(mods, d, i, j, m)
    ensures Tried(mods, rank, c, d, i, j, m + 1, success)
  {
  }

  lemma Unanswered(mods: seq<Module>, rank: seq<nat>, n: nat, k: nat)
    requires Acyclic(mods, rank) && n < |mods| && k < |mods[n].deps| && !Answerable(mods, rank, n, k)
    ensures !Loadable(mods, rank, n)
  {
  }

  // ----- the order of the module list does not matter

  predicate DistinctNames(mods: seq<Module>) {
    forall a, b :: 0 <= a < b < |mods| ==> mods[a].name != mods[b].name
  }

  /** With distinct names the first module of a name is the only one. */
  lemma AnswersAre(mods: seq<Module>, d: Dep, i: nat, j: nat, m: nat)
    requires DistinctNames(mods) && i <= j <= |d.names| && m < |mods|
    ensures Answers(mods, d, i, j, m) <==> Matches(mods, d, i, j, m)
  {
  }

  ghost predicate Within(mods: seq<Module>, mods': seq<Module>) {
    forall n: nat :: n < |mods| ==> mods[n] in mods'
  }

  lemma WantedMoves(mods: seq<Module>, mods': seq<Module>, d: Dep, m: nat, m': nat)
    requires DistinctNames(mods) && DistinctNames(mods') && m < |mods| && m' < |mods'| && mods[m] == mods'[m']
    requires Wanted(mods, d, m)
    ensures Wanted(mods', d, m')
  {
    var i: nat, j: nat :| Part(d.names, i, j) && Answers(mods, d, i, j, m);
    AnswersAre(mods, d, i, j, m);
    AnswersAre(mods', d, i, j, m');
  }

  /** A module is loadable in one listing iff it is in any other listing of
      the same modules. */
  lemma {:induction false} OrderIrrelevant(mods: seq<Module>, rank: seq<nat>, mods': seq<Module>, rank': seq<nat>,
                                           n: nat, n': nat)
    requires Acyclic(mods, rank) && Acyclic(mods', rank') && DistinctNames(mods) && DistinctNames(mods')
    requires Within(mods, mods') && Within(mods', mods)
    requires n < |mods| && n' < |mods'| && mods[n] == mods'[n']
    ensures Loadable(mods, rank, n) <==> Loadable(mods', rank', n')
    decreases rank[n]
  {
    forall k: nat | k < |mods[n].deps|
      ensures Answerable(mods, rank, n, k) <==> Answerable(mods', rank', n', k)
    {
      var d := mods[n].deps[k];
      if Answerable(mods, rank, n, k) {
        var m: nat :| Wanted(mods, d, m) && Loadable(mods, rank, m);
        var m': nat :| m' < |mods'| && mods'[m'] == mods[m];
        WantedMoves(mods, mods', d, m, m');
        OrderIrrelevant(mods, rank, mods', rank', m, m');
      }
      if Answerable(mods', rank', n', k) {
        var m': nat :| Wanted(mods', d, m') && Loadable(mods', rank', m');
        var m: nat :| m < |mods| && mods[m] == mods'[m'];
        WantedMoves(mods', mods, d, m', m);
        OrderIrrelevant(mods, rank, mods', rank', m, m');
      }
    }
  }

  /** Memory before the string decides: with "___" there, "|x" asks for every
      module; with a letter there, it asks only for x and the nameless. */
  lemma StrayPrefix(mods: seq<Module>, m: nat)
    requires m < |mods|
    ensures Wanted(mods, Dep('_', '_', '_', "|x"), m)
    ensures Wanted(mods, Dep('a', '_', '_', "|x"), m) ==> mods[m].name in {"", "x"}
  {
    var d := Dep('_', '_', '_', "|x");
    assert Part(d.names, 0, 0) && d.names[0..0] <= mods[m].name && Answers(mods, d, 0, 0, m);
    var e := Dep('a', '_', '_', "|x");
    if Wanted(mods, e, m) {
      var i: nat, j: nat :| Part(e.names, i, j) && Answers(mods, e, i, j, m);
      assert e.names[0] == '|' && e.names[1] == 'x';
      SubtreeExact(e, i, j);
      assert (i == 0 && j == 0) || (i == 1 && j == 2);
      assert e.names[0..0] == "" && e.names[1..2] == "x";
    }
  }
}
