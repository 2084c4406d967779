/** Singly linked lists threaded through an array of links.  The kernel keeps
    its replenishments, task queues, VCPU queues and free-memory records this
    way; an element is its index and `nil` plays NULL. */
module Links {

  /** Following `next` from `h` visits exactly `s` and stops at `nil`. */
  ghost predicate List(next: seq<int>, h: int, s: seq<int>, nil: int)
    decreases |s|
  {
    if s == [] then h == nil
    else h == s[0] && h != nil && 0 <= h < |next| && List(next, next[h], s[1..], nil)
  }

  ghost predicate Distinct(s: seq<int>) {
    forall i, j :: 0 <= i < j < |s| ==> s[i] != s[j]
  }

  lemma {:induction false} Members(next: seq<int>, h: int, s: seq<int>, nil: int, x: int)
    requires List(next, h, s, nil) && x in s
    ensures x != nil && 0 <= x < |next|
    decreases |s|
  {
    if x != s[0] { Members(next, next[h], s[1..], nil, x); }
  }

  lemma {:induction false} Suffix(next: seq<int>, h: int, s: seq<int>, nil: int, i: nat)
    requires List(next, h, s, nil) && i <= |s|
    ensures List(next, if i < |s| then s[i] else nil, s[i..], nil)
    decreases i
  {
    if i > 0 {
      Suffix(next, next[h], s[1..], nil, i - 1);
      assert s[1..][i - 1..] == s[i..];
    } else {
      assert s[0..] == s;
    }
  }

  lemma {:induction false} NextAt(next: seq<int>, h: int, s: seq<int>, nil: int, i: nat)
    requires List(next, h, s, nil) && i < |s|
    ensures s[i] != nil && 0 <= s[i] < |next|
    ensures next[s[i]] == if i + 1 < |s| then s[i + 1] else nil
  {
    Suffix(next, h, s, nil, i);
    assert s[i..][1..] == s[i + 1..];
  }

  lemma {:induction false} Unique(next: seq<int>, h: int, s: seq<int>, s': seq<int>, nil: int)
    requires List(next, h, s, nil) && List(next, h, s', nil)
    ensures s == s'
    decreases |s|
  {
    if s != [] {
      Unique(next, next[h], s[1..], s'[1..], nil);
      assert s == [s[0]] + s[1..] && s' == [s'[0]] + s'[1..];
    }
  }

  /** A list that ends cannot visit an element twice. */
  lemma {:induction false} Acyclic(next: seq<int>, h: int, s: seq<int>, nil: int)
    requires List(next, h, s, nil)
    ensures Distinct(s)
  {
    forall i, j | 0 <= i < j < |s| ensures s[i] != s[j] {
      if s[i] == s[j] {
        Suffix(next, h, s, nil, i);
        Suffix(next, h, s, nil, j);
        Unique(next, s[i], s[i..], s[j..], nil);
        assert false;
      }
    }
  }

  lemma {:induction false} Frame(next: seq<int>, next': seq<int>, h: int, s: seq<int>, nil: int)
    requires List(next, h, s, nil) && |next'| == |next|
    requires forall x :: x in s && 0 <= x < |next| ==> next'[x] == next[x]
    ensures List(next', h, s, nil)
    decreases |s|
  {
    if s != [] { Frame(next, next', next[h], s[1..], nil); }
  }

  /** Keep the elements `a`, redirect the link of the last one to another list. */
  lemma {:induction false} Splice(next: seq<int>, next': seq<int>, h: int, a: seq<int>, b: seq<int>,
                                  g: int, c: seq<int>, nil: int)
    requires List(next, h, a + b, nil) && a != [] && |next'| == |next|
    requires forall i :: 0 <= i < |a| - 1 && 0 <= a[i] < |next| ==> next'[a[i]] == next[a[i]]
    requires 0 <= a[|a| - 1] < |next| ==> next'[a[|a| - 1]] == g
    requires List(next', g, c, nil)
    ensures List(next', h, a + c, nil)
    decreases |a|
  {
    assert (a + b)[1..] == a[1..] + b && (a + c)[1..] == a[1..] + c;
    if |a| == 1 {
      assert a + c == [a[0]] + c;
      assert a[1..] + c == c;
    } else {
      Splice(next, next', next[h], a[1..], b, g, c, nil);
    }
  }

  /** Append `x` behind the last element `a[|a|-1]`. */
  lemma {:induction false} Append(next: seq<int>, h: int, a: seq<int>, x: int, nil: int)
    requires List(next, h, a, nil) && a != [] && x !in a && x != nil && 0 <= x < |next|
    ensures 0 <= a[|a| - 1] < |next|
    ensures List(next[a[|a| - 1] := x][x := nil], h, a + [x], nil)
  {
    var last := a[|a| - 1];
    Members(next, h, a, nil, last);
    var next' := next[last := x][x := nil];
    Acyclic(next, h, a, nil);
    assert a + [] == a;
    Splice(next, next', h, a, [], x, [x], nil);
  }

  /** Unlink element `p > 0` by redirecting its predecessor. */
  lemma {:induction false} Unlink(next: seq<int>, h: int, s: seq<int>, p: nat, nil: int)
    requires List(next, h, s, nil) && 0 < p < |s|
    ensures 0 <= s[p - 1] < |next| && 0 <= s[p] < |next|
    ensures List(next[s[p - 1] := next[s[p]]], h, s[..p] + s[p + 1..], nil)
  {
    NextAt(next, h, s, nil, p - 1);
    NextAt(next, h, s, nil, p);
    Acyclic(next, h, s, nil);
    Suffix(next, h, s, nil, p + 1);
    var next' := next[s[p - 1] := next[s[p]]];
    Frame(next, next', next[s[p]], s[p + 1..], nil);
    assert s[..p] + s[p..] == s;
    Splice(next, next', h, s[..p], s[p..], next[s[p]], s[p + 1..], nil);
  }

  /** Link a new element `r`, whose own link is already set, in front of `s[p]`. */
  lemma {:induction false} Link(next: seq<int>, h: int, s: seq<int>, p: nat, r: int, nil: int)
    requires List(next, h, s, nil) && 0 < p <= |s| && r !in s && r != nil && 0 <= r < |next|
    requires next[r] == if p < |s| then s[p] else nil
    ensures 0 <= s[p - 1] < |next|
    ensures List(next[s[p - 1] := r], h, s[..p] + [r] + s[p..], nil)
  {
    NextAt(next, h, s, nil, p - 1);
    Acyclic(next, h, s, nil);
    Suffix(next, h, s, nil, p);
    var next' := next[s[p - 1] := r];
    Frame(next, next', next[r], s[p..], nil);
    assert ([r] + s[p..])[1..] == s[p..];
    assert s[..p] + s[p..] == s;
    Splice(next, next', h, s[..p], s[p..], r, [r] + s[p..], nil);
    assert s[..p] + ([r] + s[p..]) == s[..p] + [r] + s[p..];
  }
}
