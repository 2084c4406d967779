/** kernel/kdb/i386-stub.c: packets of the GDB remote serial protocol, and
    memory in hexadecimal. */
module GdbPacket {

  type Byte = x: int | 0 <= x < 256

  const BUFMAX: nat := 400
  const DOLLAR: Byte := 0x24
  const HASH: Byte := 0x23
  const PLUS: Byte := 0x2b
  const MINUS: Byte := 0x2d
  const COLON: Byte := 0x3a

  // ----- hexadecimal

  /** hex: the value of a digit, or -1. */
  function Hex(ch: Byte): int {
    if 0x61 <= ch <= 0x66 then ch - 0x61 + 10
    else if 0x30 <= ch <= 0x39 then ch - 0x30
    else if 0x41 <= ch <= 0x46 then ch - 0x41 + 10
    else -1
  }

  /** hexchars */
  function Digit(n: int): Byte
    requires 0 <= n < 16
  { if n < 10 then 0x30 + n else 0x61 + n - 10 }

  /** Two digits as an unsigned char; a character that is no digit counts as -1. */
  function Pair(a: Byte, b: Byte): Byte { (Hex(a) * 16 % 256 + Hex(b)) % 256 }

  lemma HexOfDigit(n: int)
    requires 0 <= n < 16
    ensures Hex(Digit(n)) == n && Digit(n) != DOLLAR
  {
  }

  lemma PairOfDigits(x: Byte)
    ensures Pair(Digit(x / 16), Digit(x % 16)) == x
    ensures Digit(x / 16) != DOLLAR && Digit(x % 16) != DOLLAR
  {
    hide Hex, Digit;
    HexOfDigit(x / 16);
    HexOfDigit(x % 16);
  }

  // ----- packets

  /** The checksum of a payload, as an unsigned char. */
  function Sum(p: seq<Byte>): Byte {
    if p == [] then 0 else (Sum(p[..|p| - 1]) + p[|p| - 1]) % 256
  }

  /** What putpacket sends. */
  function Packet(p: seq<Byte>): seq<Byte> {
    [DOLLAR] + p + [HASH, Digit(Sum(p) / 16), Digit(Sum(p) % 16)]
  }

  /** Nothing to return yet, with the input used up; or the string returned. */
  datatype Result = Starved | Got(text: seq<Byte>)

  /** What getpacket answers on the line, leaves unread, leaves in its buffer
      and returns. */
  datatype Outcome = Outcome(result: Result, sent: seq<Byte>, rest: seq<Byte>, buf: seq<Byte>)

  /** The C string in the buffer from offset k. */
  function Text(buf: seq<Byte>, k: nat): (r: seq<Byte>)
    decreases |buf| - k
  {
    if k >= |buf| || buf[k] == 0 then [] else [buf[k]] + Text(buf, k + 1)
  }

  /** A packet with the right checksum is in the buffer. */
  function Deliver(input: seq<Byte>, buf: seq<Byte>): Outcome
    requires |buf| == BUFMAX
  {
    if buf[2] == COLON then Outcome(Got(Text(buf, 3)), [PLUS, buf[0], buf[1]], input, buf)
    else Outcome(Got(Text(buf, 0)), [PLUS], input, buf)
  }

  function Prepend(sent: seq<Byte>, o: Outcome): Outcome { o.(sent := sent + o.sent) }

  /** Skipping to the start character. */
  function Scan(input: seq<Byte>, buf: seq<Byte>): Outcome
    requires |buf| == BUFMAX
    decreases |input|, 1
  {
    if input == [] then Outcome(Starved, [], [], buf)
    else if input[0] == DOLLAR then Body(input[1..], buf, 0, 0)
    else Scan(input[1..], buf)
  }

  /** Inside a packet: count characters so far, adding up to sum. */
  function Body(input: seq<Byte>, buf: seq<Byte>, count: nat, sum: Byte): Outcome
    requires |buf| == BUFMAX && count < BUFMAX
    decreases |input|, if count == BUFMAX - 1 then 2 else 0
  {
    if count == BUFMAX - 1 then Scan(input, buf[count := 0])
    else if input == [] then Outcome(Starved, [], [], buf)
    else if input[0] == DOLLAR then Body(input[1..], buf, 0, 0)
    else if input[0] == HASH then Check(input[1..], buf[count := 0], sum)
    else Body(input[1..], buf[count := input[0]], count + 1, (sum + input[0]) % 256)
  }

  function Check(input: seq<Byte>, buf: seq<Byte>, sum: Byte): Outcome
    requires |buf| == BUFMAX
    decreases |input|, 0
  {
    if |input| < 2 then Outcome(Starved, [], [], buf)
    else if Pair(input[0], input[1]) == sum then Deliver(input[2..], buf)
    else Prepend([MINUS], Scan(input[2..], buf))
  }

  // ----- round trip

  predicate Clean(p: seq<Byte>) { forall i :: 0 <= i < |p| ==> p[i] !in {0, DOLLAR, HASH} }

  lemma {:induction false} ScanNoise(noise: seq<Byte>, input: seq<Byte>, buf: seq<Byte>)
    requires |buf| == BUFMAX && DOLLAR !in noise
    ensures Scan(noise + input, buf) == Scan(input, buf)
  {
    if noise == [] {
      assert noise + input == input;
    } else {
      assert (noise + input)[1..] == noise[1..] + input;
      ScanNoise(noise[1..], input, buf);
    }
  }

  /** The buffer after p was stored from offset 0. */
  function Stored(buf: seq<Byte>, p: seq<Byte>): (r: seq<Byte>)
    requires |p| <= |buf|
    ensures |r| == |buf|
  { p + buf[|p|..] }

  lemma {:induction false} BodyReads(p: seq<Byte>, k: nat, input: seq<Byte>, buf: seq<Byte>)
    requires |buf| == BUFMAX && Clean(p) && k <= |p| < BUFMAX
    ensures Body(p[k..] + input, Stored(buf, p[..k]), k, Sum(p[..k])) == Body(input, Stored(buf, p), |p|, Sum(p))
    decreases |p| - k
  {
    if k == |p| {
      assert p[k..] + input == input && p[..k] == p;
    } else {
      var b := Stored(buf, p[..k]);
      var i := p[k..] + input;
      assert i[0] == p[k] && i[1..] == p[k + 1..] + input;
      assert p[..k + 1][..k] == p[..k];
      assert b[k := p[k]] == Stored(buf, p[..k + 1]);
      hide Sum, Stored, Check;
      SumNext(p, k);
      BodyReads(p, k + 1, input, buf);
    }
  }

  lemma SumNext(p: seq<Byte>, k: nat)
    requires k < |p|
    ensures Sum(p[..k + 1]) == (Sum(p[..k]) + p[k]) % 256
  {
    assert p[..k + 1][..k] == p[..k];
  }

  lemma {:induction false} TextIs(buf: seq<Byte>, k: nat, n: nat)
    requires k <= n < |buf| && buf[n] == 0 && forall i :: k <= i < n ==> buf[i] != 0
    ensures Text(buf, k) == buf[k..n]
    decreases n - k
  {
    if k < n {
      TextIs(buf, k + 1, n);
      assert buf[k..n] == [buf[k]] + buf[k + 1..n];
    }
  }

  /** A packet on the line is taken whole. */
  lemma PacketReads(p: seq<Byte>, rest: seq<Byte>, buf: seq<Byte>)
    requires |buf| == BUFMAX && Clean(p) && |p| <= BUFMAX - 2
    ensures Scan(Packet(p) + rest, buf) == Deliver(rest, Stored(buf, p)[|p| := 0])
  {
    var tail := [HASH, Digit(Sum(p) / 16), Digit(Sum(p) % 16)] + rest;
    assert Packet(p) + rest == [DOLLAR] + (p[0..] + tail);
    assert Stored(buf, p[..0]) == buf && p[..0] == [];
    BodyReads(p, 0, tail, buf);
    assert tail[1..][2..] == rest;
    PairOfDigits(Sum(p));
  }

  /** Third character a colon: a sequence number, or, for a payload of fewer
      than two characters, whatever an earlier packet left in the buffer. */
  predicate Numbered(p: seq<Byte>, buf: seq<Byte>)
    requires |buf| == BUFMAX
  {
    if |p| > 2 then p[2] == COLON else |p| < 2 && buf[2] == COLON
  }

  /** After noise without a start character, getpacket returns the payload
      that putpacket sent and acknowledges it, iff it does not take the
      payload for a numbered one. */
  lemma RoundTrip(noise: seq<Byte>, p: seq<Byte>, rest: seq<Byte>, buf: seq<Byte>)
    requires |buf| == BUFMAX && DOLLAR !in noise && Clean(p) && |p| <= BUFMAX - 2
    ensures var o := Scan(noise + Packet(p) + rest, buf);
            && o.rest == rest && [PLUS] <= o.sent && o.result.Got?
            && (!Numbered(p, buf) <==> o.sent == [PLUS])
            && (!Numbered(p, buf) ==> o.result == Got(p))
            && (Numbered(p, buf) && |p| > 2 ==> o.result == Got(p[3..]) && o.sent == [PLUS, p[0], p[1]])
  {
    assert noise + Packet(p) + rest == noise + (Packet(p) + rest);
    ScanNoise(noise, Packet(p) + rest, buf);
    PacketReads(p, rest, buf);
    var b := Stored(buf, p)[|p| := 0];
    TextIs(b, 0, |p|);
    assert b[0..|p|] == p;
    if |p| > 2 {
      TextIs(b, 3, |p|);
      assert b[3..|p|] == p[3..];
    }
  }

  /** Two packets in a row, the first numbered and the second shorter than two
      characters: the second call answers with a sequence number and returns
      the text of the first packet again. */
  lemma StaleColon(p: seq<Byte>, p': seq<Byte>, rest: seq<Byte>, buf: seq<Byte>)
    requires |buf| == BUFMAX && Clean(p) && Clean(p') && 2 < |p| <= BUFMAX - 2 && p[2] == COLON && |p'| < 2
    ensures var o := Scan(Packet(p) + (Packet(p') + rest), buf);
            && o.result == Got(p[3..]) && |o.buf| == BUFMAX
            && var o' := Scan(o.rest, o.buf);
            && o'.result == Got(p[3..]) && o'.rest == rest
            && o'.sent == [PLUS] + if p' == [] then [0, p[1]] else [p'[0], 0]
  {
    PacketReads(p, Packet(p') + rest, buf);
    var b := Stored(buf, p)[|p| := 0];
    TextIs(b, 3, |p|);
    assert b[3..|p|] == p[3..];
    PacketReads(p', rest, b);
    var b' := Stored(b, p')[|p'| := 0];
    assert forall i :: 2 <= i < BUFMAX ==> b'[i] == b[i];
    TextIs(b', 3, |p|);
    assert b'[3..|p|] == p[3..];
  }

  lemma {:induction false} BodyOverflows(p: seq<Byte>, k: nat, input: seq<Byte>, buf: seq<Byte>, sum: Byte)
    requires |buf| == BUFMAX && Clean(p) && k < BUFMAX && k <= |p| && BUFMAX - 1 <= |p|
    ensures exists b: seq<Byte> :: |b| == BUFMAX && Body(p[k..] + input, buf, k, sum) == Scan(input, b)
    decreases BUFMAX - k
  {
    if k == BUFMAX - 1 {
      NoDollar(p, k);
      ScanNoise(p[k..], input, buf[k := 0]);
    } else {
      var i := p[k..] + input;
      assert i[0] == p[k] && i[1..] == p[k + 1..] + input;
      BodyOverflows(p, k + 1, input, buf[k := p[k]], (sum + p[k]) % 256);
    }
  }

  lemma NoDollar(p: seq<Byte>, k: nat)
    requires Clean(p) && k <= |p|
    ensures DOLLAR !in p[k..]
  {
  }

  /** A payload of 399 characters or more is dropped without an answer. */
  lemma LongPacketIgnored(p: seq<Byte>, rest: seq<Byte>, buf: seq<Byte>)
    requires |buf| == BUFMAX && Clean(p) && |p| > BUFMAX - 2
    ensures exists b: seq<Byte> :: |b| == BUFMAX && Scan(Packet(p) + rest, buf) == Scan(rest, b)
  {
    var end := [HASH, Digit(Sum(p) / 16), Digit(Sum(p) % 16)];
    assert Packet(p) + rest == [DOLLAR] + (p[0..] + (end + rest));
    BodyOverflows(p, 0, end + rest, buf, 0);
    var b :| |b| == BUFMAX && Body(p[0..] + (end + rest), buf, 0, 0) == Scan(end + rest, b);
    PairOfDigits(Sum(p));
    ScanNoise(end, rest, b);
  }

  /** A packet whose two check characters do not decode to the checksum is
      refused and skipped. */
  lemma BadChecksum(p: seq<Byte>, x: Byte, y: Byte, rest: seq<Byte>, buf: seq<Byte>)
    requires |buf| == BUFMAX && Clean(p) && |p| <= BUFMAX - 2 && Pair(x, y) != Sum(p)
    ensures var o := Scan([DOLLAR] + p + [HASH, x, y] + rest, buf);
            o == Prepend([MINUS], Scan(rest, Stored(buf, p)[|p| := 0]))
  {
    var tail := [HASH, x, y] + rest;
    assert [DOLLAR] + p + [HASH, x, y] + rest == [DOLLAR] + (p[0..] + tail);
    assert Stored(buf, p[..0]) == buf && p[..0] == [];
    BodyReads(p, 0, tail, buf);
    assert tail[1..][2..] == rest;
  }

  // ----- the code

  /** The serial line: what has still to arrive, and what was sent. */
  class Stub {
    const buffer: array<Byte>
    var line: seq<Byte>
    var output: seq<Byte>

    ghost predicate Valid()
      reads this
    { buffer.Length == BUFMAX }

    constructor (line: seq<Byte>)
      ensures Valid() && fresh(buffer) && this.line == line && output == []
    {
      buffer := new Byte[BUFMAX];
      this.line, output := line, [];
    }

    /** What is left to do is o, after having sent the given characters. */
    ghost predicate Ahead(all: Outcome, before: seq<Byte>, o: Outcome)
      reads this
    { before <= output && all == Prepend(output[|before|..], o) }

    ghost predicate Finished(all: Outcome, before: seq<Byte>, r: Result)
      reads this, buffer
    { r == all.result && output == before + all.sent && line == all.rest && buffer[..] == all.buf }

    method GetPacket() returns (r: Result)
      requires Valid()
      modifies this, buffer
      ensures Valid() && Finished(Scan(old(line), old(buffer[..])), old(output), r)
    {
      ghost var all := Scan(line, buffer[..]);
      while line != []
        invariant Valid() && Ahead(all, old(output), Scan(line, buffer[..]))
        decreases |line|
      {
        if line[0] != DOLLAR {
          line := line[1..];
        } else {
          line := line[1..];
          ghost var left := |line|;
          var more, sum, count := ReadBody(all, old(output));
          if !more {
            return Starved;
          }
          buffer[count] := 0;
          if count < BUFMAX - 1 {
            if |line| < 2 {
              line := [];
              return Starved;
            }
            var x := Pair(line[0], line[1]);
            line := line[2..];
            if x == sum {
              r := Accept();
              return;
            }
            output := output + [MINUS];
          }
        }
      }
      return Starved;
    }

    /** The loop over the characters of a packet, starting again at each '$':
        stops after '#' or with the buffer full. */
    method ReadBody(ghost all: Outcome, ghost before: seq<Byte>) returns (more: bool, sum: Byte, count: nat)
      requires Valid() && Ahead(all, before, Body(line, buffer[..], 0, 0))
      modifies this`line, buffer
      ensures Valid() && count < BUFMAX && |line| <= |old(line)|
      ensures !more ==> Finished(all, before, Starved)
      ensures more && count == BUFMAX - 1 ==> Ahead(all, before, Scan(line, buffer[..][count := 0]))
      ensures more && count < BUFMAX - 1 ==> Ahead(all, before, Check(line, buffer[..][count := 0], sum))
    {
      hide Scan, Check;
      sum, count := 0, 0;
      while count < BUFMAX - 1
        invariant count < BUFMAX && Valid() && |line| <= |old(line)|
        invariant Ahead(all, before, Body(line, buffer[..], count, sum))
        decreases |line|
      {
        if line == [] {
          return false, sum, count;
        }
        var ch := line[0];
        line := line[1..];
        if ch == DOLLAR {
          sum, count := 0, 0;
        } else if ch == HASH {
          return true, sum, count;
        } else {
          sum := (sum + ch) % 256;
          buffer[count] := ch;
          count := count + 1;
        }
      }
      return true, sum, count;
    }

    method Accept() returns (r: Result)
      requires Valid()
      modifies this`output
      ensures r == Deliver(line, buffer[..]).result && output == old(output) + Deliver(line, buffer[..]).sent
    {
      output := output + [PLUS];
      if buffer[2] == COLON {
        output := output + [buffer[0]];
        output := output + [buffer[1]];
        return Got(Text(buffer[..], 3));
      }
      return Got(Text(buffer[..], 0));
    }

    /** putpacket: sends the packet again until a '+' comes back; false when the
        line ends first. */
    method PutPacket(p: seq<Byte>) returns (ok: bool)
      requires 0 !in p
      modifies this`line, this`output
      ensures ok <==> PLUS in old(line)
      ensures output == old(output) + Copies(Packet(p), Refusals(old(line)) + 1)
      ensures ok ==> line == old(line)[Refusals(old(line)) + 1..]
    {
      hide Packet, Copies, Refusals;
      ghost var n := 0;
      ghost var all := line;
      CopiesNone(Packet(p));
      while true
        invariant n <= |all| && line == all[n..] && PLUS !in all[..n]
        invariant output == old(output) + Copies(Packet(p), n)
        decreases |line|
      {
        SendOne(p);
        CopiesNext(Packet(p), n);
        assert old(output) + Copies(Packet(p), n) + Packet(p) == old(output) + Copies(Packet(p), n + 1);
        if line == [] {
          RefusalsAre(all, n);
          return false;
        }
        var ch := line[0];
        line := line[1..];
        if ch == PLUS {
          RefusalsAre(all, n);
          return true;
        }
        assert all[..n + 1] == all[..n] + [ch];
        n := n + 1;
      }
    }

    method SendOne(p: seq<Byte>)
      modifies this`output
      ensures output == old(output) + Packet(p)
    {
      output := output + [DOLLAR];
      var checksum: int, count := 0, 0;
      while count < |p|
        invariant count <= |p| && checksum == Sum(p[..count])
        invariant output == old(output) + [DOLLAR] + p[..count]
      {
        output := output + [p[count]];
        checksum := (checksum + p[count]) % 256;
        SumNext(p, count);
        count := count + 1;
      }
      assert p[..count] == p;
      output := output + [HASH];
      output := output + [Digit(checksum / 16)];
      output := output + [Digit(checksum % 16)];
      assert output == old(output) + Packet(p);
    }
  }

  /** Characters before the first '+'. */
  function Refusals(line: seq<Byte>): (n: nat)
    ensures n <= |line| && (n < |line| <==> PLUS in line)
  {
    if line == [] || line[0] == PLUS then 0 else 1 + Refusals(line[1..])
  }

  function Copies(p: seq<Byte>, n: nat): seq<Byte> { if n == 0 then [] else Copies(p, n - 1) + p }

  lemma CopiesNone(p: seq<Byte>)
    ensures Copies(p, 0) == []
  {
  }

  lemma CopiesNext(p: seq<Byte>, n: nat)
    ensures Copies(p, n + 1) == Copies(p, n) + p
  {
  }

  lemma {:induction false} RefusalsAre(line: seq<Byte>, n: nat)
    requires n <= |line| && PLUS !in line[..n] && (n < |line| ==> line[n] == PLUS)
    ensures Refusals(line) == n
  {
    if n > 0 {
      assert line[0] == line[..n][0];
      assert line[1..][..n - 1] == line[..n][1..];
      RefusalsAre(line[1..], n - 1);
    }
  }

  // ----- memory in hexadecimal

  /** Two digits for each byte. */
  function Encode(m: seq<Byte>): (r: seq<Byte>)
    ensures |r| == 2 * |m|
  {
    if m == [] then []
    else Encode(m[..|m| - 1]) + [Digit(m[|m| - 1] / 16), Digit(m[|m| - 1] % 16)]
  }

  lemma EncodeNone()
    ensures Encode([]) == []
  {
  }

  lemma EncodeNext(m: seq<Byte>, i: nat)
    requires i < |m|
    ensures Encode(m[..i + 1]) == Encode(m[..i]) + [Digit(m[i] / 16), Digit(m[i] % 16)]
  {
    assert m[..i + 1][..i] == m[..i];
  }

  function Decode(h: seq<Byte>, count: nat): (r: seq<Byte>)
    requires 2 * count <= |h|
    ensures |r| == count
  {
    if count == 0 then [] else Decode(h, count - 1) + [Pair(h[2 * count - 2], h[2 * count - 1])]
  }

  lemma DecodeNone(h: seq<Byte>)
    ensures Decode(h, 0) == []
  {
  }

  lemma DecodeNext(h: seq<Byte>, n: nat)
    requires 2 * n + 2 <= |h|
    ensures Decode(h, n + 1) == Decode(h, n) + [Pair(h[2 * n], h[2 * n + 1])]
  {
    hide Pair;
  }

  /** hex2mem undoes mem2hex, for any number of bytes and whatever follows. */
  lemma {:induction false} DecodeEncode(m: seq<Byte>, rest: seq<Byte>)
    ensures Decode(Encode(m) + rest, |m|) == m
  {
    if m != [] {
      var n, b := m[..|m| - 1], m[|m| - 1];
      var d := [Digit(b / 16), Digit(b % 16)];
      DecodeEncode(n, d + rest);
      assert Encode(m) + rest == Encode(n) + (d + rest);
      PairOfDigits(b);
      assert m == n + [b];
    }
  }

  /** How many of count bytes are dealt with, when a fault at byte `bad` is
      looked for. */
  function Reached(count: int, mayFault: bool, bad: nat): nat {
    var n: nat := if count < 0 then 0 else count;
    if mayFault && bad < n then bad else n
  }

  const UPPER_C: Byte := 0x43

  /** The loop of mem2hex; reports a fault. */
  method WriteDigits(mem: seq<Byte>, buf: array<Byte>, count: int, mayFault: bool, bad: nat)
    returns (end: nat, fault: bool)
    requires count <= |mem| && 2 * count <= buf.Length
    modifies buf
    ensures var n := Reached(count, mayFault, bad);
            && n <= |mem| && end == 2 * n <= buf.Length && (fault <==> n < count)
            && buf[..end] == Encode(mem[..n]) && buf[end..] == old(buf[end..])
  {
    hide Digit, Encode;
    end, fault := 0, false;
    EncodeNone();
    var i := 0;
    while i < count
      invariant 0 <= i <= Reached(count, mayFault, bad) && end == 2 * i
      invariant buf[..end] == Encode(mem[..i])
      invariant forall k :: end <= k < buf.Length ==> buf[k] == old(buf[k])
    {
      if mayFault && i == bad { return end, true; }
      ghost var done := buf[..end];
      var ch := mem[i];
      buf[end] := Digit(ch / 16);
      buf[end + 1] := Digit(ch % 16);
      EncodeNext(mem, i);
      end := end + 2;
      assert buf[..end] == done + [Digit(ch / 16), Digit(ch % 16)];
      i := i + 1;
    }
  }

  /** mem2hex: the address may be that of _start, which always reads as one
      breakpoint; a fault, if looked for, ends the text without a terminator
      and leaves the fault routine in place. */
  method MemToHex(start: bool, mem: seq<Byte>, buf: array<Byte>, count: int, mayFault: bool, bad: nat, armed: bool)
    returns (end: nat, armed': bool)
    requires count <= |mem| && 2 * count < buf.Length && 2 < buf.Length
    modifies buf
    ensures start ==> end == 2 && buf[..] == [UPPER_C, UPPER_C, 0] + old(buf[3..]) && armed' == armed
    ensures !start ==>
              var n := Reached(count, mayFault, bad);
              && n <= |mem| && end == 2 * n && buf[..end] == Encode(mem[..n])
              && (n >= count ==> buf[end] == 0 && buf[end + 1..] == old(buf[end + 1..]))
              && (n < count ==> buf[end..] == old(buf[end..]))
              && (armed' <==> if mayFault then n < count else armed)
  {
    hide Encode;
    armed' := armed;
    if start {
      buf[0], buf[1], buf[2] := UPPER_C, UPPER_C, 0;
      return 2, armed';
    }
    if mayFault { armed' := true; }
    var fault;
    end, fault := WriteDigits(mem, buf, count, mayFault, bad);
    if fault { return; }
    buf[end] := 0;
    if mayFault { armed' := false; }
  }

  /** The loop of hex2mem. */
  method ReadDigits(buf: seq<Byte>, mem: array<Byte>, count: int, mayFault: bool, bad: nat)
    returns (end: nat, fault: bool)
    requires 2 * count <= |buf| && count <= mem.Length
    modifies mem
    ensures var n := Reached(count, mayFault, bad);
            && n <= mem.Length && 2 * n <= |buf| && end == n && (fault <==> n < count)
            && mem[..n] == Decode(buf, n) && mem[n..] == old(mem[n..])
  {
    hide Pair, Decode;
    end, fault := 0, false;
    DecodeNone(buf);
    while end < count
      invariant end <= Reached(count, mayFault, bad) && mem[..end] == Decode(buf, end)
      invariant forall k :: end <= k < mem.Length ==> mem[k] == old(mem[k])
    {
      if mayFault && end == bad { return end, true; }
      ghost var done := mem[..end];
      mem[end] := Pair(buf[2 * end], buf[2 * end + 1]);
      DecodeNext(buf, end);
      assert mem[..end + 1] == done + [Pair(buf[2 * end], buf[2 * end + 1])];
      end := end + 1;
    }
  }

  /** hex2mem: nothing is written at _start; a fault, if looked for, stops just
      after the byte that could not be written. */
  method HexToMem(start: bool, buf: seq<Byte>, mem: array<Byte>, count: int, mayFault: bool, bad: nat, armed: bool)
    returns (end: nat, armed': bool)
    requires 2 * count <= |buf| && count <= mem.Length
    modifies mem
    ensures start ==> end == 1 && mem[..] == old(mem[..]) && armed' == armed
    ensures !start ==>
              var n := Reached(count, mayFault, bad);
              && n <= mem.Length && 2 * n <= |buf| && mem[..n] == Decode(buf, n) && mem[n..] == old(mem[n..])
              && end == (if n < count then n + 1 else n)
              && (armed' <==> if mayFault then n < count else armed)
  {
    hide Decode;
    armed' := armed;
    if start { return 1, armed'; }
    if mayFault { armed' := true; }
    var fault;
    end, fault := ReadDigits(buf, mem, count, mayFault, bad);
    if fault { return end + 1, armed'; }
    if mayFault { armed' := false; }
  }
}
