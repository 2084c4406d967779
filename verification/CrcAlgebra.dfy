/** Laws of CRC-32 over whole messages (kernel/util/crc32.c, its tutorial and
    its unit test; kernel/util/bitrev.c). */
module CrcAlgebra {
  import opened CrcBits
  import opened CrcTables
  import opened Crc32

  // ----- splitting

  /** The CRC of a message can be computed in pieces. */
  lemma {:induction false} Split(big: bool, crc: bv32, m: seq<bv8>, n: seq<bv8>)
    ensures Crc(big, crc, m + n) == Crc(big, Crc(big, crc, m), n)
  {
    hide UpdateLe, UpdateBe;
    if n == [] {
      assert m + n == m;
    } else {
      var r := n[..|n| - 1];
      Split(big, crc, m, r);
      assert (m + n)[..|m + n| - 1] == m + r;
    }
  }

  // ----- the residue of a message followed by its CRC

  /** store_le and store_be. */
  function Store(big: bool, x: bv32): (r: seq<bv8>)
    ensures |r| == 4
  {
    if big then
      [((x >> 24) & 255) as bv8, ((x >> 16) & 255) as bv8, ((x >> 8) & 255) as bv8, (x & 255) as bv8]
    else
      [(x & 255) as bv8, ((x >> 8) & 255) as bv8, ((x >> 16) & 255) as bv8, ((x >> 24) & 255) as bv8]
  }

  lemma StoredLe(x: bv32)
    ensures Word((x & 255) as bv8, ((x >> 8) & 255) as bv8, ((x >> 16) & 255) as bv8, ((x >> 24) & 255) as bv8) == x
  {
  }

  lemma StoredBe(x: bv32)
    ensures Swap(x)
            == Word(((x >> 24) & 255) as bv8, ((x >> 16) & 255) as bv8, ((x >> 8) & 255) as bv8, (x & 255) as bv8)
  {
  }

  lemma Stored(big: bool, x: bv32)
    ensures var b := Store(big, x); Word(b[0], b[1], b[2], b[3]) == Held(big, x)
  {
    hide Word, Swap;
    StoredLe(x);
    StoredBe(x);
  }

  lemma StepOfZero(big: bool)
    ensures Step(big, 0) == 0
  {
    hide Step;
    StepZeros(big, 0);
  }

  lemma FedWord(big: bool, s: bv32, b: seq<bv8>)
    requires |b| == 4
    ensures Fed(big, s, b) == Step(big, Step(big, Step(big, Step(big, Xor(s, Word(b[0], b[1], b[2], b[3]))))))
  {
    hide Step, Word, Xor, Fed;
    FedNone(big, s, []);
    FedFour(big, s, [], b[0], b[1], b[2], b[3]);
    assert [] + [b[0], b[1], b[2], b[3]] == b;
  }

  /** Feeding the register its own bytes clears it. */
  lemma FedItself(big: bool, s: bv32, b: seq<bv8>)
    requires |b| == 4 && Word(b[0], b[1], b[2], b[3]) == s
    ensures Fed(big, s, b) == 0
  {
    hide Step, Word, Xor, Fed;
    FedWord(big, s, b);
    XorSelf(s);
    StepOfZero(big);
  }

  lemma HeldZero(big: bool, c: bv32)
    ensures Held(big, c) == 0 <==> c == 0
  {
  }

  /** The remainder computed over the message and its stored CRC is 0. */
  lemma Residue(big: bool, crc: bv32, m: seq<bv8>)
    ensures Crc(big, crc, m + Store(big, Crc(big, crc, m))) == 0
  {
    hide Crc, Fed, Held, Word, Store;
    var c := Crc(big, crc, m);
    var b := Store(big, c);
    Stored(big, c);
    Split(big, crc, m, b);
    FedItself(big, Held(big, c), b);
    FedIsCrc(big, c, b);
    HeldZero(big, Crc(big, c, b));
  }

  // ----- linearity

  function XorBytes(m: seq<bv8>, n: seq<bv8>): (r: seq<bv8>)
    requires |m| == |n|
    ensures |r| == |m|
  {
    if m == [] then [] else XorBytes(m[..|m| - 1], n[..|n| - 1]) + [m[|m| - 1] ^ n[|n| - 1]]
  }

  lemma WidenXor(a: bv8, b: bv8)
    ensures (a ^ b) as bv32 == Xor(a as bv32, b as bv32)
  {
  }

  lemma FeedLinear(big: bool, s: bv32, t: bv32, a: bv8, b: bv8)
    ensures Feed(big, Xor(s, t), a ^ b) == Xor(Feed(big, s, a), Feed(big, t, b))
  {
    WidenXor(a, b);
    hide Step, Xor;
    Regroup(s, t, a as bv32, b as bv32);
    StepXor(big, Xor(s, a as bv32), Xor(t, b as bv32));
  }

  lemma {:induction false} FedLinear(big: bool, s: bv32, t: bv32, m: seq<bv8>, n: seq<bv8>)
    requires |m| == |n|
    ensures Fed(big, Xor(s, t), XorBytes(m, n)) == Xor(Fed(big, s, m), Fed(big, t, n))
  {
    hide Feed, Xor;
    if m != [] {
      var m', n' := m[..|m| - 1], n[..|n| - 1];
      FedLinear(big, s, t, m', n');
      var x := XorBytes(m', n');
      FedOne(big, Xor(s, t), x, m[|m| - 1] ^ n[|n| - 1]);
      FeedLinear(big, Fed(big, s, m'), Fed(big, t, n'), m[|m| - 1], n[|n| - 1]);
    }
  }

  lemma HeldXor(big: bool, x: bv32, y: bv32)
    ensures Held(big, Xor(x, y)) == Xor(Held(big, x), Held(big, y))
  {
    hide Xor, Swap;
    SwapXor(x, y);
  }

  lemma HeldSame(big: bool, x: bv32, y: bv32)
    requires Held(big, x) == Held(big, y)
    ensures x == y
  {
    hide Swap;
    SwapTwice(x);
    SwapTwice(y);
  }

  /** Exclusive-or of seeds and of equally long messages is exclusive-or of
      the CRCs. */
  lemma Linear(big: bool, c: bv32, d: bv32, m: seq<bv8>, n: seq<bv8>)
    requires |m| == |n|
    ensures Crc(big, Xor(c, d), XorBytes(m, n)) == Xor(Crc(big, c, m), Crc(big, d, n))
  {
    hide Crc, Fed, Held, Xor, XorBytes;
    FedIsCrc(big, Xor(c, d), XorBytes(m, n));
    FedIsCrc(big, c, m);
    FedIsCrc(big, d, n);
    HeldXor(big, c, d);
    FedLinear(big, Held(big, c), Held(big, d), m, n);
    HeldXor(big, Crc(big, c, m), Crc(big, d, n));
    HeldSame(big, Crc(big, Xor(c, d), XorBytes(m, n)), Xor(Crc(big, c, m), Crc(big, d, n)));
  }

  // ----- error detection

  lemma BitLeOnto(c: bv32)
    ensures BitLe(c) == 0 <==> c == 0
  {
  }

  /** A step never loses a difference: only the zero register steps to zero. */
  lemma StepLeZero(c: bv32)
    ensures StepLe(c) == 0 <==> c == 0
  {
    hide BitLe;
    var c1 := BitLe(c); BitLeOnto(c);
    var c2 := BitLe(c1); BitLeOnto(c1);
    var c3 := BitLe(c2); BitLeOnto(c2);
    var c4 := BitLe(c3); BitLeOnto(c3);
    var c5 := BitLe(c4); BitLeOnto(c4);
    var c6 := BitLe(c5); BitLeOnto(c5);
    var c7 := BitLe(c6); BitLeOnto(c6);
    BitLeOnto(c7);
  }

  lemma ReverseZero(c: bv32)
    ensures Reverse32(c) == 0 <==> c == 0
  {
  }

  lemma StepZero(big: bool, s: bv32)
    ensures Step(big, s) == 0 <==> s == 0
  {
    hide StepLe, StepBe, Swap, Reverse32;
    StepLeZero(s);
    var c := Swap(s);
    HeldZero(true, s);
    HeldZero(true, StepBe(c));
    ReverseStep(c);
    StepLeZero(Reverse32(c));
    ReverseZero(c);
    ReverseZero(StepBe(c));
  }

  function Zeros(n: nat): (r: seq<bv8>)
    ensures |r| == n
  {
    if n == 0 then [] else Zeros(n - 1) + [0]
  }

  lemma {:induction false} FedZeros(big: bool, s: bv32, n: nat)
    ensures Fed(big, s, Zeros(n)) == 0 <==> s == 0
  {
    hide Step, Xor;
    if n != 0 {
      FedZeros(big, s, n - 1);
      FedOne(big, s, Zeros(n - 1), 0);
      var t := Fed(big, s, Zeros(n - 1));
      XorSelf(t);
      StepZero(big, t);
    }
  }

  lemma WordZero(b0: bv8, b1: bv8, b2: bv8, b3: bv8)
    ensures Word(b0, b1, b2, b3) == 0 <==> b0 == 0 && b1 == 0 && b2 == 0 && b3 == 0
  {
  }

  lemma FourStepsZero(big: bool, w: bv32)
    ensures Step(big, Step(big, Step(big, Step(big, w)))) == 0 <==> w == 0
  {
    hide Step;
    StepZero(big, w);
    StepZero(big, Step(big, w));
    StepZero(big, Step(big, Step(big, w)));
    StepZero(big, Step(big, Step(big, Step(big, w))));
  }

  lemma FedBurst(big: bool, b: seq<bv8>)
    requires |b| == 4
    ensures Fed(big, 0, b) == 0 <==> b == [0, 0, 0, 0]
  {
    hide Step, Word, Xor, Fed;
    var w := Word(b[0], b[1], b[2], b[3]);
    FedWord(big, 0, b);
    XorSelf(w);
    FourStepsZero(big, w);
    WordZero(b[0], b[1], b[2], b[3]);
    FourBytes(b);
  }

  lemma FourBytes(b: seq<bv8>)
    requires |b| == 4
    ensures b == [0, 0, 0, 0] <==> b[0] == 0 && b[1] == 0 && b[2] == 0 && b[3] == 0
  {
  }

  lemma {:induction false} XorSame(m: seq<bv8>)
    ensures XorBytes(m, m) == Zeros(|m|)
  {
    if m != [] {
      XorSame(m[..|m| - 1]);
      assert m[|m| - 1] ^ m[|m| - 1] == 0;
    }
  }

  lemma {:induction false} XorJoin(m: seq<bv8>, n: seq<bv8>, p: seq<bv8>, q: seq<bv8>)
    requires |m| == |n| && |p| == |q|
    ensures XorBytes(m + p, n + q) == XorBytes(m, n) + XorBytes(p, q)
  {
    if p == [] {
      assert m + p == m && n + q == n;
    } else {
      var p', q' := p[..|p| - 1], q[..|q| - 1];
      XorJoin(m, n, p', q');
      assert (m + p)[..|m + p| - 1] == m + p' && (n + q)[..|n + q| - 1] == n + q';
    }
  }

  lemma {:induction false} XorEqual(m: seq<bv8>, n: seq<bv8>)
    requires |m| == |n|
    ensures XorBytes(m, n) == Zeros(|m|) <==> m == n
  {
    if m != [] {
      var k := |m| - 1;
      XorEqual(m[..k], n[..k]);
      XorBit(m[k], n[k]);
      assert m == m[..k] + [m[k]] && n == n[..k] + [n[k]];
      assert XorBytes(m, n)[..k] == XorBytes(m[..k], n[..k]) && Zeros(|m|)[..k] == Zeros(k);
      assert XorBytes(m, n)[k] == m[k] ^ n[k] && Zeros(|m|)[k] == 0;
    }
  }

  lemma XorBit(a: bv8, b: bv8)
    ensures a ^ b == 0 <==> a == b
  {
  }

  lemma XorBack(x: bv32, y: bv32)
    ensures Xor(Xor(x, y), y) == x
  {
  }

  lemma XorNone(x: bv32, y: bv32)
    ensures Xor(x, y) == 0 <==> x == y
  {
    hide Xor;
    XorBack(x, y);
    XorSelf(y);
  }

  /** Two messages that differ in the bytes b have the same CRC iff feeding the
      difference alone clears the register. */
  lemma DifferenceFed(big: bool, crc: bv32, pre: seq<bv8>, b: seq<bv8>, b': seq<bv8>, post: seq<bv8>)
    requires |b| == |b'|
    ensures Crc(big, crc, pre + b + post) == Crc(big, crc, pre + b' + post) <==> Fed(big, 0, XorBytes(b, b')) == 0
  {
    hide Crc, Fed, Zeros, XorBytes, Xor, Held;
    var m, n := pre + b + post, pre + b' + post;
    var d := XorBytes(b, b');
    Difference(pre, b, b', post);
    XorSelf(crc);
    Linear(big, crc, crc, m, n);
    var z := XorBytes(m, n);
    FedSplit(big, 0, Zeros(|pre|) + d, Zeros(|post|));
    FedSplit(big, 0, Zeros(|pre|), d);
    FedZeros(big, 0, |pre|);
    FedZeros(big, Fed(big, 0, d), |post|);
    FedIsCrc(big, 0, z);
    HeldZero(big, 0);
    HeldZero(big, Crc(big, 0, z));
    XorNone(Crc(big, crc, m), Crc(big, crc, n));
  }

  /** Up to four bytes leave the register clear only if they are all 0. */
  lemma FedFew(big: bool, b: seq<bv8>)
    requires |b| <= 4
    ensures Fed(big, 0, b) == 0 <==> b == Zeros(|b|)
  {
    var n := 4 - |b|;
    hide Fed, Zeros;
    FedSplit(big, 0, b, Zeros(n));
    FedZeros(big, Fed(big, 0, b), n);
    FedBurst(big, b + Zeros(n));
    PadZero(b, n);
  }

  lemma PadZero(b: seq<bv8>, n: nat)
    requires |b| + n == 4
    ensures b + Zeros(n) == [0, 0, 0, 0] <==> b == Zeros(|b|)
  {
    var p, z := b + Zeros(n), Zeros(|b|);
    ZerosAt(|b|);
    ZerosAt(n);
    hide Zeros;
    if p == [0, 0, 0, 0] {
      forall k | 0 <= k < |b| ensures b[k] == z[k] { assert b[k] == p[k]; }
    }
    if b == z {
      assert p[0] == 0 && p[1] == 0 && p[2] == 0 && p[3] == 0;
    }
  }

  lemma {:induction false} ZerosAt(n: nat)
    ensures forall k :: 0 <= k < n ==> Zeros(n)[k] == 0
  {
    if n > 0 { ZerosAt(n - 1); }
  }

  /** Corrupting up to four consecutive bytes of a message, in any way, always
      changes its CRC. */
  lemma BurstDetected(big: bool, crc: bv32, pre: seq<bv8>, b: seq<bv8>, b': seq<bv8>, post: seq<bv8>)
    requires |b| == |b'| <= 4
    ensures Crc(big, crc, pre + b + post) == Crc(big, crc, pre + b' + post) <==> b == b'
  {
    hide Crc, Fed, Zeros, XorBytes;
    DifferenceFed(big, crc, pre, b, b', post);
    FedFew(big, XorBytes(b, b'));
    XorEqual(b, b');
  }

  lemma Difference(pre: seq<bv8>, b: seq<bv8>, b': seq<bv8>, post: seq<bv8>)
    requires |b| == |b'|
    ensures |pre + b + post| == |pre + b' + post|
    ensures XorBytes(pre + b + post, pre + b' + post) == Zeros(|pre|) + XorBytes(b, b') + Zeros(|post|)
  {
    hide Zeros, XorBytes;
    XorJoin(pre + b, pre + b', post, post);
    XorJoin(pre, pre, b, b');
    XorSame(pre);
    XorSame(post);
  }

  // ----- bit reversal

  function Reversed(m: seq<bv8>): (r: seq<bv8>)
    ensures |r| == |m|
  {
    if m == [] then [] else Reversed(m[..|m| - 1]) + [ReverseOf(m[|m| - 1])]
  }

  function ReverseOf(b: bv8): bv8 { (Reverse8(b as bv32) & 255) as bv8 }

  lemma ReverseOfWide(b: bv8)
    ensures ReverseOf(b) as bv32 == Reverse8(b as bv32)
  {
  }

  lemma ReverseUpdate(crc: bv32, b: bv8)
    ensures UpdateLe(Reverse32(crc), ReverseOf(b)) == Reverse32(UpdateBe(crc, b))
  {
    ByteFits(b);
    ReverseOfWide(b);
    hide StepLe, StepBe, Xor, Reverse32, Reverse8, ReverseOf;
    ReverseByte(b as bv32);
    ReverseXor(crc, (b as bv32) << 24);
    ReverseStep(Xor(crc, (b as bv32) << 24));
  }

  /** The big-endian CRC is the bit reversal of the little-endian CRC of the
      bytewise reversed message from the reversed seed. */
  lemma {:induction false} ReversedCrc(crc: bv32, m: seq<bv8>)
    ensures CrcBe(crc, m) == Reverse32(CrcLe(Reverse32(crc), Reversed(m)))
  {
    hide Reverse32, UpdateLe, UpdateBe, ReverseOf;
    if m == [] {
      ReverseTwice(crc);
    } else {
      var r := m[..|m| - 1];
      ReversedCrc(crc, r);
      var c := CrcLe(Reverse32(crc), Reversed(r));
      assert Reversed(m)[..|m| - 1] == Reversed(r);
      ReverseTwice(c);
      ReverseUpdate(CrcBe(crc, r), m[|m| - 1]);
      ReverseTwice(CrcBe(crc, m));
    }
  }

  // ----- bitrev.c

  function Pack(high: bv32, low: bv32, half: bool): bv32 {
    if half then (high << 8) | low else (high << 16) | low
  }

  function BitRev8(x: bv32): bv32
    requires x < 256
  { TableRev(x) }

  function BitRev16(x: bv32): bv32
    requires x < 0x10000
  {
    ByteBounds(x);
    Pack(BitRev8(x & 0xff), BitRev8(x >> 8), true)
  }

  function BitRev32(x: bv32): bv32 {
    HalfBounds(x);
    Pack(BitRev16(x & 0xffff), BitRev16(x >> 16), false)
  }

  lemma ByteBounds(x: bv32)
    requires x < 0x10000
    ensures x & 0xff < 256 && x >> 8 < 256
  {
  }

  lemma HalfBounds(x: bv32)
    ensures x & 0xffff < 0x10000 && x >> 16 < 0x10000
  {
  }

  function Reverse16(x: bv32): bv32 { Pack(Reverse8(x & 0xff), Reverse8(x >> 8), true) }

  lemma ReverseHalves(x: bv32)
    ensures Reverse32(x) == Pack(Reverse16(x & 0xffff), Reverse16(x >> 16), false)
  {
  }

  lemma BitRev16Reverses(x: bv32)
    requires x < 0x10000
    ensures BitRev16(x) == Reverse16(x)
  {
    ByteBounds(x);
    hide Reverse8, TableRev, Pack;
    TableRevIsReversal(x & 0xff);
    TableRevIsReversal(x >> 8);
  }

  /** bitrev32 by table is the reversal of all 32 bits. */
  lemma BitRev32Reverses(x: bv32)
    ensures BitRev32(x) == Reverse32(x)
  {
    HalfBounds(x);
    hide Reverse16, Reverse32, BitRev16, Pack;
    ReverseHalves(x);
    BitRev16Reverses(x & 0xffff);
    BitRev16Reverses(x >> 16);
  }

  lemma BitRev32Twice(x: bv32)
    ensures BitRev32(BitRev32(x)) == x
  {
    BitRev32Reverses(x);
    BitRev32Reverses(BitRev32(x));
    hide BitRev32, Reverse32;
    ReverseTwice(x);
  }

  const ONES: bv32 := 0xffffffff

  lemma ReversedOnes()
    ensures Reverse32(ONES) == ONES
  {
  }

  /** The ether_crc macro of crc32.h: reversing the little-endian CRC of an
      address gives the big-endian CRC of the bytewise reversed address. */
  lemma EtherCrc(m: seq<bv8>)
    ensures BitRev32(CrcLe(ONES, Reversed(m))) == CrcBe(ONES, m)
  {
    hide BitRev32, Reverse32, CrcLe, CrcBe, Reversed;
    BitRev32Reverses(CrcLe(ONES, Reversed(m)));
    ReversedOnes();
    ReversedCrc(ONES, m);
  }
}
