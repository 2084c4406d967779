/** kernel/util/crc32.c: the table-driven CRC-32 in both bit orders, on a
    little-endian host, against the bit-at-a-time definition. */
module Crc32 {
  import opened CrcBits
  import opened CrcTables

  // ----- the definition: one byte into the register, then eight bit steps

  function UpdateLe(crc: bv32, b: bv8): bv32 { StepLe(Xor(crc, b as bv32)) }

  function UpdateBe(crc: bv32, b: bv8): bv32 { StepBe(Xor(crc, (b as bv32) << 24)) }

  function CrcLe(crc: bv32, m: seq<bv8>): bv32 {
    if m == [] then crc else UpdateLe(CrcLe(crc, m[..|m| - 1]), m[|m| - 1])
  }

  function CrcBe(crc: bv32, m: seq<bv8>): bv32 {
    if m == [] then crc else UpdateBe(CrcBe(crc, m[..|m| - 1]), m[|m| - 1])
  }

  function Crc(big: bool, crc: bv32, m: seq<bv8>): bv32 {
    if big then CrcBe(crc, m) else CrcLe(crc, m)
  }

  // ----- the register as the code keeps it: swapped for the big-endian form

  function Held(big: bool, crc: bv32): bv32 { if big then Swap(crc) else crc }

  function Table(big: bool, x: bv32): bv32
    requires x < 256
  {
    if big then Swap(TableBe(x)) else TableLe(x)
  }

  /** Eight bit steps on the held register. */
  function Step(big: bool, s: bv32): bv32 {
    if big then Swap(StepBe(Swap(s))) else StepLe(s)
  }

  lemma StepXor(big: bool, a: bv32, b: bv32)
    ensures Step(big, Xor(a, b)) == Xor(Step(big, a), Step(big, b))
  {
    hide StepLe, StepBe, Swap, Xor;
    StepLeXor(a, b);
    SwapXor(a, b);
    StepBeXor(Swap(a), Swap(b));
    SwapXor(StepBe(Swap(a)), StepBe(Swap(b)));
  }

  lemma Masked(x: bv32)
    ensures x & 255 < 256
  {
  }

  lemma LookupLe(s: bv32)
    requires s & 255 < 256
    ensures StepLe(s) == Xor(TableLe(s & 255), Down8(s))
  {
    hide StepLe, Xor, TableLe, Down8;
    TableLeIsStep(s & 255);
    StepLeSplit(s);
  }

  lemma LookupBe(s: bv32)
    requires s & 255 < 256
    ensures Swap(StepBe(Swap(s))) == Xor(Swap(TableBe(s & 255)), Down8(s))
  {
    hide StepBe, Swap, Xor, TableBe, Up8, Down8;
    var c := Swap(s);
    SwapTwice(s);
    TableBeIsStep(s & 255);
    SwapTop(c);
    StepBeSplit(c);
    SwapXor(StepBe(c & 0xff000000), Up8(c));
    SwapUp8(c);
  }

  /** Table lookup on the byte leaving, exclusive-or the rest moved down. */
  lemma StepLookup(big: bool, s: bv32)
    ensures s & 255 < 256
    ensures Step(big, s) == Xor(Table(big, s & 255), Down8(s))
  {
    Masked(s);
    hide StepLe, StepBe, Swap, Xor, TableLe, TableBe, Down8;
    LookupLe(s);
    LookupBe(s);
  }

  lemma StepZeros(big: bool, z: bv32)
    requires Off(z, 255)
    ensures Step(big, z) == Down8(z)
  {
    StepLeShift(z);
    SwapOff(z);
    StepBeShift(Swap(z));
    SwapTwice(z);
    hide StepLe, StepBe, Swap, Up8, Down8;
    SwapUp8(Swap(z));
  }

  /** One byte in the code's own terms. */
  function Feed(big: bool, s: bv32, b: bv8): bv32 { Step(big, Xor(s, b as bv32)) }

  lemma ByteFits(b: bv8)
    ensures b as bv32 < 256
  {
  }

  lemma FeedUpdates(big: bool, crc: bv32, b: bv8)
    ensures Feed(big, Held(big, crc), b) == Held(big, if big then UpdateBe(crc, b) else UpdateLe(crc, b))
  {
    hide StepLe, StepBe, Swap, Xor;
    ByteFits(b);
    SwapByte(b as bv32);
    SwapXor(Swap(crc), b as bv32);
    SwapTwice(crc);
  }

  function Fed(big: bool, s: bv32, m: seq<bv8>): bv32 {
    if m == [] then s else Feed(big, Fed(big, s, m[..|m| - 1]), m[|m| - 1])
  }

  lemma {:induction false} FedIsCrc(big: bool, crc: bv32, m: seq<bv8>)
    ensures Fed(big, Held(big, crc), m) == Held(big, Crc(big, crc, m))
  {
    hide Feed, Held, UpdateLe, UpdateBe;
    if m != [] {
      var r := m[..|m| - 1];
      FedIsCrc(big, crc, r);
      FeedUpdates(big, Crc(big, crc, r), m[|m| - 1]);
    }
  }

  lemma FedOne(big: bool, s: bv32, m: seq<bv8>, b: bv8)
    ensures Fed(big, s, m + [b]) == Feed(big, Fed(big, s, m), b)
  {
    hide Feed;
    assert (m + [b])[..|m|] == m;
  }

  // ----- a word at a time

  /** The little-endian 32-bit load. */
  function Word(b0: bv8, b1: bv8, b2: bv8, b3: bv8): bv32 {
    (b0 as bv32) | ((b1 as bv32) << 8) | ((b2 as bv32) << 16) | ((b3 as bv32) << 24)
  }

  lemma Peel(s: bv32, w: bv32)
    ensures Xor(s, w) == Xor(Xor(s, w & 255), w & 0xffffff00)
    ensures Off(w & 0xffffff00, 255) && Down8(w & 0xffffff00) == Down8(w)
  {
  }

  /** Only the lowest byte of what is fed in has to be there now. */
  lemma StepPeel(big: bool, s: bv32, w: bv32)
    ensures Step(big, Xor(s, w)) == Xor(Step(big, Xor(s, w & 255)), Down8(w))
  {
    hide Step, Xor, Off, Down8;
    Peel(s, w);
    StepXor(big, Xor(s, w & 255), w & 0xffffff00);
    StepZeros(big, w & 0xffffff00);
  }

  lemma WordBytes(b0: bv8, b1: bv8, b2: bv8, b3: bv8)
    ensures var w := Word(b0, b1, b2, b3);
            && w & 255 == b0 as bv32 && Down8(w) & 255 == b1 as bv32
            && Down8(Down8(w)) & 255 == b2 as bv32 && Down8(Down8(Down8(w))) & 255 == b3 as bv32
            && Down8(Down8(Down8(Down8(w)))) == 0
  {
  }

  /** Four steps on the register with a whole word in it are four bytes fed
      one after the other. */
  lemma FourSteps(big: bool, s: bv32, b0: bv8, b1: bv8, b2: bv8, b3: bv8)
    ensures Step(big, Step(big, Step(big, Step(big, Xor(s, Word(b0, b1, b2, b3))))))
         == Feed(big, Feed(big, Feed(big, Feed(big, s, b0), b1), b2), b3)
  {
    WordBytes(b0, b1, b2, b3);
    hide Step, Xor, Down8, Word;
    var w := Word(b0, b1, b2, b3);
    var s1, w1 := Feed(big, s, b0), Down8(w);
    StepPeel(big, s, w);
    var s2, w2 := Feed(big, s1, b1), Down8(w1);
    StepPeel(big, s1, w1);
    var s3, w3 := Feed(big, s2, b2), Down8(w2);
    StepPeel(big, s2, w2);
    StepPeel(big, s3, w3);
    XorSelf(Feed(big, s3, b3));
  }

  lemma FedFour(big: bool, s: bv32, m: seq<bv8>, b0: bv8, b1: bv8, b2: bv8, b3: bv8)
    ensures Fed(big, s, m + [b0, b1, b2, b3])
         == Step(big, Step(big, Step(big, Step(big, Xor(Fed(big, s, m), Word(b0, b1, b2, b3))))))
  {
    hide Step, Xor, Word, Feed, Fed;
    FourSteps(big, Fed(big, s, m), b0, b1, b2, b3);
    var m1 := m + [b0];
    FedOne(big, s, m, b0);
    var m2 := m1 + [b1];
    FedOne(big, s, m1, b1);
    var m3 := m2 + [b2];
    FedOne(big, s, m2, b2);
    FedOne(big, s, m3, b3);
    assert m3 + [b3] == m + [b0, b1, b2, b3];
  }

  // ----- the code

  lemma LookedBits(crc: bv32, x: bv32)
    requires x < 256
    ensures Xor(crc, x) & 255 < 256 && Down8(Xor(crc, x)) == Down8(crc)
  {
  }

  /** The DO_CRC macro. */
  method DoCrc(big: bool, crc: bv32, x: bv32) returns (r: bv32)
    requires x < 256
    ensures r == Step(big, Xor(crc, x))
  {
    LookedBits(crc, x);
    hide Xor, Down8, Table, Step;
    r := Xor(Table(big, Xor(crc, x) & 255), Down8(crc));
    StepLookup(big, Xor(crc, x));
  }

  /** DO_CRC(0) four times. */
  method FourZeros(big: bool, crc: bv32) returns (r: bv32)
    ensures r == Step(big, Step(big, Step(big, Step(big, crc))))
  {
    hide Xor, Step;
    XorSelf(crc);
    r := DoCrc(big, crc, 0);
    XorSelf(r);
    r := DoCrc(big, r, 0);
    XorSelf(r);
    r := DoCrc(big, r, 0);
    XorSelf(r);
    r := DoCrc(big, r, 0);
  }

  /** Bytes one at a time from address b: all len of them, or only up to the
      next multiple of four. */
  method Bytes(big: bool, crc: bv32, mem: seq<bv8>, b: nat, len: nat, align: bool) returns (r: bv32, done: nat)
    requires b + len <= |mem|
    ensures done <= len && r == Fed(big, crc, mem[b..b + done])
    ensures done < len ==> align && (b + done) % 4 == 0
    ensures align && b % 4 == 0 ==> done == 0
  {
    hide Fed, Step;
    done := 0;
    r := crc;
    FedNone(big, crc, mem[b..b]);
    while done < len && !(align && (b + done) % 4 == 0)
      invariant done <= len && r == Fed(big, crc, mem[b..b + done])
      invariant align && b % 4 == 0 ==> done == 0
    {
      ByteFits(mem[b + done]);
      r := DoCrc(big, r, mem[b + done] as bv32);
      FedOne(big, crc, mem[b..b + done], mem[b + done]);
      assert mem[b..b + done] + [mem[b + done]] == mem[b..b + (done + 1)];
      done := done + 1;
    }
  }

  lemma FedNone(big: bool, s: bv32, m: seq<bv8>)
    requires |m| == 0
    ensures Fed(big, s, m) == s
  {
  }

  /** Whole words from an aligned address. */
  method Words(big: bool, crc: bv32, mem: seq<bv8>, b: nat, words: nat) returns (r: bv32)
    requires b % 4 == 0 && b + 4 * words <= |mem|
    ensures r == Fed(big, crc, mem[b..b + 4 * words])
  {
    hide Fed, Step, Xor, Word;
    var i := 0;
    r := crc;
    FedNone(big, crc, mem[b..b]);
    while i < words
      invariant i <= words && r == Fed(big, crc, mem[b..b + 4 * i])
    {
      var p := b + 4 * i;
      r := FourZeros(big, Xor(r, Word(mem[p], mem[p + 1], mem[p + 2], mem[p + 3])));
      FedFour(big, crc, mem[b..p], mem[p], mem[p + 1], mem[p + 2], mem[p + 3]);
      assert mem[b..p] + [mem[p], mem[p + 1], mem[p + 2], mem[p + 3]] == mem[b..p + 4];
      i := i + 1;
    }
  }

  lemma {:induction false} FedSplit(big: bool, s: bv32, m: seq<bv8>, n: seq<bv8>)
    ensures Fed(big, s, m + n) == Fed(big, Fed(big, s, m), n)
  {
    hide Feed;
    if n == [] {
      assert m + n == m;
    } else {
      var r := n[..|n| - 1];
      FedSplit(big, s, m, r);
      assert m + n == (m + r) + [n[|n| - 1]];
      FedOne(big, s, m + r, n[|n| - 1]);
    }
  }

  /** The common body of crc32_le and crc32_be: bytes up to a word boundary,
      then words, then the bytes left over. */
  method Run(big: bool, crc: bv32, mem: seq<bv8>, p: nat, len: nat) returns (r: bv32)
    requires p + len <= |mem|
    ensures r == Fed(big, crc, mem[p..p + len])
  {
    hide Fed;
    var n: nat;
    r, n := Bytes(big, crc, mem, p, len, true);
    var b, left := p + n, len - n;
    if left >= 4 {
      var words := left / 4;
      FedSplit(big, crc, mem[p..b], mem[b..b + 4 * words]);
      assert mem[p..b] + mem[b..b + 4 * words] == mem[p..b + 4 * words];
      r := Words(big, r, mem, b, words);
      b, left := b + 4 * words, left % 4;
    }
    FedSplit(big, crc, mem[p..b], mem[b..b + left]);
    assert mem[p..b] + mem[b..b + left] == mem[p..p + len];
    r, n := Bytes(big, r, mem, b, left, false);
  }

  method Crc32Le(crc: bv32, mem: seq<bv8>, p: nat, len: nat) returns (r: bv32)
    requires p + len <= |mem|
    ensures r == CrcLe(crc, mem[p..p + len])
  {
    hide Fed, CrcLe, CrcBe;
    FedIsCrc(false, crc, mem[p..p + len]);
    r := Run(false, crc, mem, p, len);
  }

  method Crc32Be(crc: bv32, mem: seq<bv8>, p: nat, len: nat) returns (r: bv32)
    requires p + len <= |mem|
    ensures r == CrcBe(crc, mem[p..p + len])
  {
    hide Fed, CrcLe, CrcBe, Swap;
    FedIsCrc(true, crc, mem[p..p + len]);
    r := Run(true, Swap(crc), mem, p, len);
    SwapTwice(CrcBe(crc, mem[p..p + len]));
    r := Swap(r);
  }

  // ----- the one-bit-at-a-time forms that the table replaces

  function BitsLe(c: bv32, n: nat): bv32 { if n == 0 then c else BitLe(BitsLe(c, n - 1)) }

  function BitsBe(c: bv32, n: nat): bv32 { if n == 0 then c else BitBe(BitsBe(c, n - 1)) }

  lemma NextBitLe(c: bv32, n: nat)
    ensures BitsLe(c, 0) == c && BitsLe(c, n + 1) == BitLe(BitsLe(c, n))
  {
    hide BitLe;
  }

  lemma NextBitBe(c: bv32, n: nat)
    ensures BitsBe(c, 0) == c && BitsBe(c, n + 1) == BitBe(BitsBe(c, n))
  {
    hide BitBe;
  }

  lemma EightBitsLe(c: bv32)
    ensures BitsLe(c, 8) == StepLe(c)
  {
    hide BitLe, BitsLe;
    NextBitLe(c, 0);
    NextBitLe(c, 1);
    NextBitLe(c, 2);
    NextBitLe(c, 3);
    NextBitLe(c, 4);
    NextBitLe(c, 5);
    NextBitLe(c, 6);
    NextBitLe(c, 7);
  }

  lemma EightBitsBe(c: bv32)
    ensures BitsBe(c, 8) == StepBe(c)
  {
    hide BitBe, BitsBe;
    NextBitBe(c, 0);
    NextBitBe(c, 1);
    NextBitBe(c, 2);
    NextBitBe(c, 3);
    NextBitBe(c, 4);
    NextBitBe(c, 5);
    NextBitBe(c, 6);
    NextBitBe(c, 7);
  }

  method BitwiseLe(seed: bv32, m: seq<bv8>) returns (crc: bv32)
    ensures crc == CrcLe(seed, m)
  {
    hide BitLe, StepLe, Xor;
    crc := seed;
    for k := 0 to |m|
      invariant crc == CrcLe(seed, m[..k])
    {
      crc := Xor(crc, m[k] as bv32);
      ghost var c := crc;
      for i := 0 to 8
        invariant crc == BitsLe(c, i)
      {
        crc := BitLe(crc);
      }
      EightBitsLe(c);
      assert m[..k + 1][..k] == m[..k];
    }
    assert m[..|m|] == m;
  }

  method BitwiseBe(seed: bv32, m: seq<bv8>) returns (crc: bv32)
    ensures crc == CrcBe(seed, m)
  {
    hide BitBe, StepBe, Xor;
    crc := seed;
    for k := 0 to |m|
      invariant crc == CrcBe(seed, m[..k])
    {
      crc := Xor(crc, (m[k] as bv32) << 24);
      ghost var c := crc;
      for i := 0 to 8
        invariant crc == BitsBe(c, i)
      {
        crc := BitBe(crc);
      }
      EightBitsBe(c);
      assert m[..k + 1][..k] == m[..k];
    }
    assert m[..|m|] == m;
  }
}
