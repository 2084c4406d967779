/** Bit positions and bursts of errors: the reversals of kernel/util/bitrev.c
    move single bits, and CRC-32 detects every burst of up to 32 bits wherever
    it starts. */
module CrcBurst {
  import opened CrcBits
  import opened CrcTables
  import opened Crc32
  import opened CrcAlgebra

  // ----- bits

  function Bit(x: bv32, k: bv32): bv32
    requires k < 32
  { (x >> k) & 1 }

  /** Bit k goes to bit 31 - k. */
  lemma Reverse32At(x: bv32, k: bv32)
    requires k < 32
    ensures Bit(Reverse32(x), 31 - k) == Bit(x, k)
  {
  }

  /** Bit k of a half word goes to bit 15 - k, and nothing else is set. */
  lemma Reverse16At(x: bv32, k: bv32)
    requires k < 16 && x < 0x10000
    ensures Bit(Reverse16(x), 15 - k) == Bit(x, k) && Reverse16(x) < 0x10000
  {
  }

  // ----- bursts

  /** The s bits of a byte that are sent first: the lowest in the little-endian
      order, the highest in the big-endian one. */
  function First(big: bool, s: nat): bv8
    requires s < 8
  {
    if big then
      (if s == 0 then 0 else if s == 1 then 0x80 else if s == 2 then 0xc0 else if s == 3 then 0xe0
       else if s == 4 then 0xf0 else if s == 5 then 0xf8 else if s == 6 then 0xfc else 0xfe)
    else
      (if s == 0 then 0 else if s == 1 then 1 else if s == 2 then 3 else if s == 3 then 7
       else if s == 4 then 15 else if s == 5 then 31 else if s == 6 then 63 else 127)
  }

  /** The bits set in five bytes lie within the 32 sent from bit s on. */
  predicate Confined(big: bool, d: seq<bv8>, s: nat)
    requires |d| == 5 && s < 8
  {
    d[0] & First(big, s) == 0 && d[4] & First(big, s) == d[4]
  }

  predicate MaskLe(m: bv32) {
    m == 0 || m == 1 || m == 3 || m == 7 || m == 15 || m == 31 || m == 63 || m == 127
  }

  predicate MaskBe(m: bv32) {
    m == 0 || m == 0x80 || m == 0xc0 || m == 0xe0 || m == 0xf0 || m == 0xf8 || m == 0xfc || m == 0xfe
  }

  /** A byte without the first bits puts something into the top of the register
      beyond them. */
  lemma EscapesLe(x: bv32, m: bv32)
    requires x < 256 && MaskLe(m) && x & m == 0 && (StepLe(x) >> 24) & m == StepLe(x) >> 24
    ensures x == 0
  {
  }

  lemma EscapesBe(x: bv32, m: bv32)
    requires x < 256 && MaskBe(m) && x & m == 0 && StepBe(x << 24) & 255 & m == StepBe(x << 24) & 255
    ensures x == 0
  {
  }

  lemma TopByte(a: bv32, w: bv32, e: bv32)
    requires Xor(a, Down8(w)) == e << 24 && e < 256
    ensures a >> 24 == e
    ensures a == 0 ==> e == 0 && w == w & 255
  {
  }

  lemma SwapTopByte(y: bv32)
    ensures Swap(y) >> 24 == y & 255
  {
  }

  lemma TableOfZero(big: bool)
    ensures Table(big, 0) == 0
  {
    hide Table, Step, Xor;
    StepLookup(big, 0);
    StepOfZero(big);
    XorSelf(Table(big, 0));
    assert Down8(0) == 0;
  }

  predicate Mask(big: bool, m: bv32) { if big then MaskBe(m) else MaskLe(m) }

  lemma TableTop(big: bool, x: bv32)
    requires x < 256
    ensures Table(big, x) >> 24 == if big then StepBe(x << 24) & 255 else StepLe(x) >> 24
  {
    hide TableLe, TableBe, StepLe, StepBe, Swap;
    TableLeIsStep(x);
    TableBeIsStep(x);
    SwapTopByte(StepBe(x << 24));
  }

  lemma Escapes(big: bool, x: bv32, m: bv32)
    requires x < 256 && Mask(big, m) && x & m == 0 && (Table(big, x) >> 24) & m == Table(big, x) >> 24
    ensures x == 0
  {
    hide Table, StepLe, StepBe, MaskLe, MaskBe;
    TableTop(big, x);
    if big {
      EscapesBe(x, m);
    } else {
      EscapesLe(x, m);
    }
  }

  /** No register without the first bits in its low byte steps to one that has
      nothing but them in its top byte. */
  lemma StepEscapes(big: bool, w: bv32, e: bv32, m: bv32)
    requires Step(big, w) == e << 24 && e < 256 && Mask(big, m) && w & 255 & m == 0 && e & m == e
    ensures w == 0 && e == 0
  {
    StepLookup(big, w);
    hide Step, Table, Mask, Xor, Down8;
    var a := Table(big, w & 255);
    TopByte(a, w, e);
    Escapes(big, w & 255, m);
    TableOfZero(big);
  }

  lemma StepSame(big: bool, a: bv32, b: bv32)
    ensures Step(big, a) == Step(big, b) <==> a == b
  {
    hide Step, Xor;
    StepXor(big, a, b);
    XorNone(a, b);
    XorNone(Step(big, a), Step(big, b));
    StepZero(big, Xor(a, b));
  }

  lemma Lifted(e: bv32)
    requires e < 256
    ensures Off(e << 24, 255) && Off(e << 16, 255) && Off(e << 8, 255)
    ensures Down8(e << 24) == e << 16 && Down8(e << 16) == e << 8 && Down8(e << 8) == e
  {
  }

  /** A byte at the bottom of the register is where three steps take it from
      the top. */
  lemma ThreeSteps(big: bool, e: bv32)
    requires e < 256
    ensures Step(big, Step(big, Step(big, e << 24))) == e
  {
    hide Step, Off, Down8;
    Lifted(e);
    StepZeros(big, e << 24);
    StepZeros(big, e << 16);
    StepZeros(big, e << 8);
  }

  lemma FourStepsEscape(big: bool, w: bv32, e: bv32, m: bv32)
    requires e < 256 && Mask(big, m) && w & 255 & m == 0 && e & m == e
    ensures Step(big, Step(big, Step(big, Step(big, w)))) == e <==> w == 0 && e == 0
  {
    hide Step, Mask;
    ThreeSteps(big, e);
    StepOfZero(big);
    var z, s := e << 24, Step(big, w);
    StepSame(big, s, z);
    StepSame(big, Step(big, s), Step(big, z));
    StepSame(big, Step(big, Step(big, s)), Step(big, Step(big, z)));
    if s == z { StepEscapes(big, w, e, m); }
  }

  lemma LowByte(b0: bv8, b1: bv8, b2: bv8, b3: bv8)
    ensures Word(b0, b1, b2, b3) & 255 == b0 as bv32
  {
  }

  lemma MaskOf(big: bool, s: nat)
    requires s < 8
    ensures Mask(big, First(big, s) as bv32)
  {
  }

  lemma Widen(b: bv8, m: bv8)
    ensures (b & m) as bv32 == (b as bv32) & (m as bv32)
    ensures b as bv32 < 256 && (b as bv32 == 0 <==> b == 0)
  {
  }

  lemma FedFive(big: bool, d: seq<bv8>)
    requires |d| == 5
    ensures Fed(big, 0, d) == 0 <==>
            Step(big, Step(big, Step(big, Step(big, Word(d[0], d[1], d[2], d[3]))))) == d[4] as bv32
  {
    hide Step, Word, Xor, Fed;
    var q, w, e := d[..4], Word(d[0], d[1], d[2], d[3]), d[4] as bv32;
    assert d == q + [d[4]];
    FedOne(big, 0, q, d[4]);
    FedWord(big, 0, q);
    XorSelf(w);
    StepZero(big, Xor(Fed(big, 0, q), e));
    XorNone(Fed(big, 0, q), e);
  }

  lemma FedWithin(big: bool, d: seq<bv8>, s: nat)
    requires |d| == 5 && s < 8 && Confined(big, d, s)
    ensures Fed(big, 0, d) == 0 <==> d == Zeros(5)
  {
    hide Step, Word, Fed, First, Mask;
    var m := First(big, s);
    var w, e := Word(d[0], d[1], d[2], d[3]), d[4] as bv32;
    FedFive(big, d);
    MaskOf(big, s);
    LowByte(d[0], d[1], d[2], d[3]);
    Widen(d[0], m);
    Widen(d[4], m);
    FourStepsEscape(big, w, e, m as bv32);
    WordZero(d[0], d[1], d[2], d[3]);
    FiveZeros(d);
  }

  lemma FiveZeros(d: seq<bv8>)
    requires |d| == 5
    ensures d == Zeros(5) <==> d[0] == 0 && d[1] == 0 && d[2] == 0 && d[3] == 0 && d[4] == 0
  {
    assert Zeros(2) == [0, 0];
    assert Zeros(4) == [0, 0, 0, 0];
    assert Zeros(5) == [0, 0, 0, 0, 0];
  }

  /** Corrupting any of 32 consecutive bits of a message, starting at any bit of
      any byte, always changes its CRC. */
  lemma BurstAnywhere(big: bool, crc: bv32, pre: seq<bv8>, b: seq<bv8>, b': seq<bv8>, post: seq<bv8>, s: nat)
    requires |b| == 5 == |b'| && s < 8 && Confined(big, XorBytes(b, b'), s)
    ensures Crc(big, crc, pre + b + post) == Crc(big, crc, pre + b' + post) <==> b == b'
  {
    hide Crc, Fed, Zeros, XorBytes, Xor, Held, Confined;
    DifferenceFed(big, crc, pre, b, b', post);
    FedWithin(big, XorBytes(b, b'), s);
    XorEqual(b, b');
  }
}
