/** CRC-32 bit by bit, in both bit orders, with the Ethernet polynomial of
    section 3.2.9 of IEEE Std 802.3-2008, and the algebra of eight bit steps.
    The machine operators have names so that proofs about whole words can use
    their laws without looking at the bits. */
module CrcBits {

  const POLY_LE: bv32 := 0xedb88320
  const POLY_BE: bv32 := 0x04c11db7

  function Xor(a: bv32, b: bv32): bv32 { a ^ b }

  function Down(c: bv32): bv32 { c >> 1 }

  function Up(c: bv32): bv32 { c << 1 }

  function Down8(c: bv32): bv32 { c >> 8 }

  function Up8(c: bv32): bv32 { c << 8 }

  // ----- one bit, one byte

  function FeedLe(c: bv32): bv32 { if c & 1 == 1 then POLY_LE else 0 }

  function FeedBe(c: bv32): bv32 { if c & 0x80000000 == 0x80000000 then POLY_BE else 0 }

  function BitLe(c: bv32): bv32 { Xor(Down(c), FeedLe(c)) }

  function BitBe(c: bv32): bv32 { Xor(Up(c), FeedBe(c)) }

  function StepLe(c: bv32): bv32 {
    BitLe(BitLe(BitLe(BitLe(BitLe(BitLe(BitLe(BitLe(c))))))))
  }

  function StepBe(c: bv32): bv32 {
    BitBe(BitBe(BitBe(BitBe(BitBe(BitBe(BitBe(BitBe(c))))))))
  }

  // ----- exclusive or

  lemma XorComm(a: bv32, b: bv32)
    ensures Xor(a, b) == Xor(b, a)
  {
  }

  lemma XorAssoc(a: bv32, b: bv32, c: bv32)
    ensures Xor(Xor(a, b), c) == Xor(a, Xor(b, c))
  {
  }

  lemma XorSelf(a: bv32)
    ensures Xor(a, a) == 0 && Xor(a, 0) == a && Xor(0, a) == a
  {
  }

  lemma Regroup(p: bv32, q: bv32, r: bv32, s: bv32)
    ensures Xor(Xor(p, q), Xor(r, s)) == Xor(Xor(p, r), Xor(q, s))
  {
    hide Xor;
    XorAssoc(p, q, Xor(r, s));
    XorAssoc(q, r, s);
    XorComm(q, r);
    XorAssoc(r, q, s);
    XorAssoc(p, r, Xor(q, s));
  }

  // ----- linearity

  lemma DownXor(a: bv32, b: bv32)
    ensures Down(Xor(a, b)) == Xor(Down(a), Down(b))
  {
  }

  lemma UpXor(a: bv32, b: bv32)
    ensures Up(Xor(a, b)) == Xor(Up(a), Up(b))
  {
  }

  lemma FeedLeXor(a: bv32, b: bv32)
    ensures FeedLe(Xor(a, b)) == Xor(FeedLe(a), FeedLe(b))
  {
    var c := a ^ b;
    assert (c & 1) == (a & 1) ^ (b & 1);
    assert a & 1 == 0 || a & 1 == 1;
    assert b & 1 == 0 || b & 1 == 1;
  }

  lemma FeedBeXor(a: bv32, b: bv32)
    ensures FeedBe(Xor(a, b)) == Xor(FeedBe(a), FeedBe(b))
  {
    var c := a ^ b;
    assert (c & 0x80000000) == (a & 0x80000000) ^ (b & 0x80000000);
    assert a & 0x80000000 == 0 || a & 0x80000000 == 0x80000000;
    assert b & 0x80000000 == 0 || b & 0x80000000 == 0x80000000;
  }

  lemma BitLeXor(a: bv32, b: bv32)
    ensures BitLe(Xor(a, b)) == Xor(BitLe(a), BitLe(b))
  {
    hide FeedLe, Xor, Down;
    DownXor(a, b);
    FeedLeXor(a, b);
    Regroup(Down(a), Down(b), FeedLe(a), FeedLe(b));
  }

  lemma BitBeXor(a: bv32, b: bv32)
    ensures BitBe(Xor(a, b)) == Xor(BitBe(a), BitBe(b))
  {
    hide FeedBe, Xor, Up;
    UpXor(a, b);
    FeedBeXor(a, b);
    Regroup(Up(a), Up(b), FeedBe(a), FeedBe(b));
  }

  lemma StepLeXor(a: bv32, b: bv32)
    ensures StepLe(Xor(a, b)) == Xor(StepLe(a), StepLe(b))
  {
    hide BitLe, Xor;
    var a1, b1 := BitLe(a), BitLe(b);
    BitLeXor(a, b);
    var a2, b2 := BitLe(a1), BitLe(b1);
    BitLeXor(a1, b1);
    var a3, b3 := BitLe(a2), BitLe(b2);
    BitLeXor(a2, b2);
    var a4, b4 := BitLe(a3), BitLe(b3);
    BitLeXor(a3, b3);
    var a5, b5 := BitLe(a4), BitLe(b4);
    BitLeXor(a4, b4);
    var a6, b6 := BitLe(a5), BitLe(b5);
    BitLeXor(a5, b5);
    var a7, b7 := BitLe(a6), BitLe(b6);
    BitLeXor(a6, b6);
    BitLeXor(a7, b7);
  }

  lemma StepBeXor(a: bv32, b: bv32)
    ensures StepBe(Xor(a, b)) == Xor(StepBe(a), StepBe(b))
  {
    hide BitBe, Xor;
    var a1, b1 := BitBe(a), BitBe(b);
    BitBeXor(a, b);
    var a2, b2 := BitBe(a1), BitBe(b1);
    BitBeXor(a1, b1);
    var a3, b3 := BitBe(a2), BitBe(b2);
    BitBeXor(a2, b2);
    var a4, b4 := BitBe(a3), BitBe(b3);
    BitBeXor(a3, b3);
    var a5, b5 := BitBe(a4), BitBe(b4);
    BitBeXor(a4, b4);
    var a6, b6 := BitBe(a5), BitBe(b5);
    BitBeXor(a5, b5);
    var a7, b7 := BitBe(a6), BitBe(b6);
    BitBeXor(a6, b6);
    BitBeXor(a7, b7);
  }

  // ----- bits that have not yet reached the end just shift

  predicate Off(z: bv32, m: bv32) { z & m == 0 }

  lemma BitLeShift(z: bv32, m: bv32)
    requires Off(z, m) && m & 1 == 1
    ensures BitLe(z) == Down(z) && Off(Down(z), m >> 1)
  {
    assert z & 1 == 0;
  }

  lemma DownEight(z: bv32)
    ensures Down(Down(Down(Down(Down(Down(Down(Down(z)))))))) == Down8(z)
  {
  }

  lemma StepLeShift(z: bv32)
    requires Off(z, 255)
    ensures StepLe(z) == Down8(z)
  {
    hide BitLe, Down, Down8, Off;
    DownEight(z);
    BitLeShift(z, 255);
    var z1 := Down(z); BitLeShift(z1, 0x7f);
    var z2 := Down(z1); BitLeShift(z2, 0x3f);
    var z3 := Down(z2); BitLeShift(z3, 0x1f);
    var z4 := Down(z3); BitLeShift(z4, 0xf);
    var z5 := Down(z4); BitLeShift(z5, 0x7);
    var z6 := Down(z5); BitLeShift(z6, 0x3);
    var z7 := Down(z6); BitLeShift(z7, 0x1);
  }

  lemma BitBeShift(z: bv32, m: bv32)
    requires Off(z, m) && m & 0x80000000 == 0x80000000
    ensures BitBe(z) == Up(z) && Off(Up(z), m << 1)
  {
    assert z & 0x80000000 == 0;
  }

  lemma UpEight(z: bv32)
    ensures Up(Up(Up(Up(Up(Up(Up(Up(z)))))))) == Up8(z)
  {
  }

  lemma StepBeShift(z: bv32)
    requires Off(z, 0xff000000)
    ensures StepBe(z) == Up8(z)
  {
    hide BitBe, Up, Up8, Off;
    UpEight(z);
    BitBeShift(z, 0xff000000);
    var z1 := Up(z); BitBeShift(z1, 0xfe000000);
    var z2 := Up(z1); BitBeShift(z2, 0xfc000000);
    var z3 := Up(z2); BitBeShift(z3, 0xf8000000);
    var z4 := Up(z3); BitBeShift(z4, 0xf0000000);
    var z5 := Up(z4); BitBeShift(z5, 0xe0000000);
    var z6 := Up(z5); BitBeShift(z6, 0xc0000000);
    var z7 := Up(z6); BitBeShift(z7, 0x80000000);
  }

  lemma SplitLow(c: bv32)
    ensures Xor(c & 255, c & 0xffffff00) == c && Off(c & 0xffffff00, 255)
    ensures Down8(c & 0xffffff00) == Down8(c)
  {
  }

  lemma SplitHigh(c: bv32)
    ensures Xor(c & 0xff000000, c & 0xffffff) == c && Off(c & 0xffffff, 0xff000000)
    ensures Up8(c & 0xffffff) == Up8(c)
  {
  }

  /** Eight steps: the byte on its way out is looked up, the rest moves. */
  lemma StepLeSplit(c: bv32)
    ensures StepLe(c) == Xor(StepLe(c & 255), Down8(c))
  {
    hide StepLe, Xor, Down8, Off;
    SplitLow(c);
    StepLeXor(c & 255, c & 0xffffff00);
    StepLeShift(c & 0xffffff00);
  }

  lemma StepBeSplit(c: bv32)
    ensures StepBe(c) == Xor(StepBe(c & 0xff000000), Up8(c))
  {
    hide StepBe, Xor, Up8, Off;
    SplitHigh(c);
    StepBeXor(c & 0xff000000, c & 0xffffff);
    StepBeShift(c & 0xffffff);
  }

  // ----- bit reversal relates the two orders

  /** Bit k goes to bit 31 - k. */
  function Reverse32(x: bv32): bv32 {
    var a := ((x & 0x55555555) << 1) | ((x >> 1) & 0x55555555);
    var b := ((a & 0x33333333) << 2) | ((a >> 2) & 0x33333333);
    var c := ((b & 0x0f0f0f0f) << 4) | ((b >> 4) & 0x0f0f0f0f);
    var d := ((c & 0x00ff00ff) << 8) | ((c >> 8) & 0x00ff00ff);
    (d << 16) | (d >> 16)
  }

  /** The same for the low eight bits alone. */
  function Reverse8(b: bv32): bv32 {
    ((b & 0x01) << 7) | ((b & 0x02) << 5) | ((b & 0x04) << 3) | ((b & 0x08) << 1)
    | ((b & 0x10) >> 1) | ((b & 0x20) >> 3) | ((b & 0x40) >> 5) | ((b & 0x80) >> 7)
  }

  lemma ReverseTwice(x: bv32)
    ensures Reverse32(Reverse32(x)) == x
  {
  }

  lemma ReverseXor(x: bv32, y: bv32)
    ensures Reverse32(Xor(x, y)) == Xor(Reverse32(x), Reverse32(y))
  {
  }

  /** A byte at the top in one order is the reversed byte at the bottom. */
  lemma ReverseByte(b: bv32)
    requires b < 256
    ensures Reverse32(b << 24) == Reverse8(b) && Reverse8(b) < 256
  {
  }

  lemma ReverseShift(c: bv32)
    ensures Reverse32(c << 1) == Reverse32(c) >> 1
  {
  }

  lemma ReverseUp(c: bv32)
    ensures Reverse32(Up(c)) == Down(Reverse32(c))
  {
    hide Reverse32;
    ReverseShift(c);
  }

  lemma ReverseTop(c: bv32)
    ensures (Reverse32(c) & 1 == 1) <==> (c & 0x80000000 == 0x80000000)
  {
  }

  lemma ReverseFeed(c: bv32)
    ensures Reverse32(FeedBe(c)) == FeedLe(Reverse32(c))
  {
    assert Reverse32(POLY_BE) == POLY_LE && Reverse32(0) == 0;
    hide Reverse32;
    ReverseTop(c);
  }

  lemma ReverseBit(c: bv32)
    ensures BitLe(Reverse32(c)) == Reverse32(BitBe(c))
  {
    hide Reverse32, FeedLe, FeedBe, Xor, Up, Down;
    ReverseUp(c);
    ReverseFeed(c);
    ReverseXor(Up(c), FeedBe(c));
  }

  lemma ReverseStep(c: bv32)
    ensures StepLe(Reverse32(c)) == Reverse32(StepBe(c))
  {
    hide BitLe, BitBe, Reverse32;
    var c1 := BitBe(c);
    ReverseBit(c);
    var c2 := BitBe(c1);
    ReverseBit(c1);
    var c3 := BitBe(c2);
    ReverseBit(c2);
    var c4 := BitBe(c3);
    ReverseBit(c3);
    var c5 := BitBe(c4);
    ReverseBit(c4);
    var c6 := BitBe(c5);
    ReverseBit(c5);
    var c7 := BitBe(c6);
    ReverseBit(c6);
    ReverseBit(c7);
  }

  // ----- byte order

  /** __cpu_to_be32 on a little-endian host. */
  function Swap(x: bv32): bv32 {
    (x << 24) | ((x & 0xff00) << 8) | ((x >> 8) & 0xff00) | (x >> 24)
  }

  lemma SwapTwice(x: bv32)
    ensures Swap(Swap(x)) == x
  {
  }

  lemma SwapXor(x: bv32, y: bv32)
    ensures Swap(Xor(x, y)) == Xor(Swap(x), Swap(y))
  {
  }

  lemma SwapUp(x: bv32)
    ensures Swap(x << 8) == Swap(x) >> 8
  {
  }

  lemma SwapUp8(x: bv32)
    ensures Swap(Up8(x)) == Down8(Swap(x))
  {
    hide Swap;
    SwapUp(x);
  }

  lemma SwapTop(x: bv32)
    ensures Swap(x) & 255 < 256 && (Swap(x) & 255) << 24 == x & 0xff000000
  {
  }

  lemma SwapByte(b: bv32)
    requires b < 256
    ensures Swap(b << 24) == b && Swap(b) == b << 24
  {
  }

  lemma SwapOff(z: bv32)
    requires Off(z, 255)
    ensures Off(Swap(z), 0xff000000)
  {
  }
}
