/**
 * The checksum that protects stored objects (server/encoding/encoding.go): a reflected CRC-32 with a
 * polynomial of its own, computed byte by byte through a table. Machine words are sequences of bits,
 * the least significant one first.
 */
module Crc {
  import opened Metatypes

  type Bits = seq<bool>

  function Zeros(n: nat): (r: Bits)
    ensures |r| == n && forall i :: 0 <= i < n ==> !r[i]
  {
    seq(n, _ => false)
  }

  function Ones(n: nat): (r: Bits)
    ensures |r| == n
  {
    seq(n, _ => true)
  }

  type Word = w: Bits | |w| == 32 witness Zeros(32)

  type Octet = o: Bits | |o| == 8 witness Zeros(8)

  // ---------------------------------------------------------------- numbers and bits

  function FromBits(bits: Bits): nat {
    if bits == [] then 0 else (if bits[0] then 1 else 0) + 2 * FromBits(bits[1..])
  }

  function ToBits(n: nat, width: nat): (r: Bits)
    ensures |r| == width
  {
    if width == 0 then [] else [n % 2 == 1] + ToBits(n / 2, width - 1)
  }

  lemma {:induction false} ToFromBits(bits: Bits)
    ensures ToBits(FromBits(bits), |bits|) == bits
  {
    if bits != [] {
      ToFromBits(bits[1..]);
    }
  }

  function Pow2(n: nat): nat { if n == 0 then 1 else 2 * Pow2(n - 1) }

  lemma {:induction false} FromToBits(n: nat, width: nat)
    requires n < Pow2(width)
    ensures FromBits(ToBits(n, width)) == n
  {
    if width > 0 {
      FromToBits(n / 2, width - 1);
    }
  }

  lemma {:induction false} FromBitsBound(bits: Bits)
    ensures FromBits(bits) < Pow2(|bits|)
  {
    if bits != [] {
      FromBitsBound(bits[1..]);
    }
  }

  lemma PowByte()
    ensures Pow2(8) == 256
  {
    assert Pow2(4) == 16;
  }

  function OctetOf(b: Byte): Octet { ToBits(b, 8) }

  function ByteOf(o: Octet): (b: Byte)
  {
    FromBitsBound(o);
    PowByte();
    FromBits(o)
  }

  lemma OctetRoundTrip(o: Octet, b: Byte)
    ensures OctetOf(ByteOf(o)) == o && ByteOf(OctetOf(b)) == b
  {
    ToFromBits(o);
    PowByte();
    FromToBits(b, 8);
  }

  // ---------------------------------------------------------------- one bit

  function Xor(a: Bits, b: Bits): (r: Bits)
    requires |a| == |b|
    ensures |r| == |a| && forall i :: 0 <= i < |a| ==> r[i] == (a[i] != b[i])
  {
    seq(|a|, i requires 0 <= i < |a| => a[i] != b[i])
  }

  lemma XorZero(a: Bits, b: Bits)
    requires |a| == |b|
    ensures Xor(a, b) == Zeros(|a|) <==> a == b
  {
    if Xor(a, b) == Zeros(|a|) {
      forall i | 0 <= i < |a|
        ensures a[i] == b[i]
      {
        assert !Xor(a, b)[i];
      }
    }
  }

  /** Shift right, and subtract the polynomial g if a bit falls out. */
  function BitStep(g: Word, c: Word): (r: Word)
    ensures forall i :: 0 <= i < 31 ==> r[i] == (c[i + 1] != (c[0] && g[i]))
    ensures r[31] == (c[0] && g[31])
  {
    var shifted := c[1..] + [false];
    if c[0] then Xor(shifted, g) else shifted
  }

  lemma BitStepLinear(g: Word, a: Word, b: Word)
    ensures BitStep(g, Xor(a, b)) == Xor(BitStep(g, a), BitStep(g, b))
  {
  }

  /** The polynomial's top bit tells whether a bit fell out, so a step can be undone. */
  lemma BitStepInjective(g: Word, a: Word, b: Word)
    requires g[31] && BitStep(g, a) == BitStep(g, b)
    ensures a == b
  {
    assert a[0] == BitStep(g, a)[31] && b[0] == BitStep(g, b)[31];
    forall i | 0 < i < 32
      ensures a[i] == b[i]
    {
      assert BitStep(g, a)[i - 1] == (a[i] != (a[0] && g[i - 1]));
      assert BitStep(g, b)[i - 1] == (b[i] != (b[0] && g[i - 1]));
    }
  }

  // ---------------------------------------------------------------- several bits

  function Steps(g: Word, c: Word, n: nat): Word
    decreases n
  {
    if n == 0 then c else Steps(g, BitStep(g, c), n - 1)
  }

  lemma {:induction false} StepsLinear(g: Word, a: Word, b: Word, n: nat)
    ensures Steps(g, Xor(a, b), n) == Xor(Steps(g, a, n), Steps(g, b, n))
    decreases n
  {
    if n > 0 {
      BitStepLinear(g, a, b);
      StepsLinear(g, BitStep(g, a), BitStep(g, b), n - 1);
    }
  }

  lemma {:induction false} StepsInjective(g: Word, a: Word, b: Word, n: nat)
    requires g[31] && Steps(g, a, n) == Steps(g, b, n)
    ensures a == b
    decreases n
  {
    if n > 0 {
      StepsInjective(g, BitStep(g, a), BitStep(g, b), n - 1);
      BitStepInjective(g, a, b);
    }
  }

  /** Steps on a word whose low bits are zero are a plain shift. */
  lemma {:induction false} StepsShift(g: Word, c: Word, n: nat)
    requires n <= 32 && forall i :: 0 <= i < n ==> !c[i]
    ensures Steps(g, c, n) == c[n..] + Zeros(n)
    decreases n
  {
    if n == 0 {
      assert c[0..] + Zeros(0) == c;
    } else {
      var d := BitStep(g, c);
      assert d == c[1..] + [false];
      StepsShift(g, d, n - 1);
      assert d[n - 1..] + Zeros(n - 1) == c[n..] + Zeros(n);
    }
  }

  // ---------------------------------------------------------------- the step for a byte

  /** The word w with n zeros shifted in at its low end. */
  function Lift(w: Word, n: nat): Word
    requires n <= 32
  {
    Zeros(n) + w[..32 - n]
  }

  ghost predicate LinearAt(f: Word -> Word, a: Word, b: Word) { f(Xor(a, b)) == Xor(f(a), f(b)) }

  ghost predicate InjectiveAt(f: Word -> Word, a: Word, b: Word) { f(a) == f(b) ==> a == b }

  ghost predicate ShiftsAt(f: Word -> Word, w: Word, n: nat)
    requires n <= 32
  {
    f(Lift(w, n)) == w[..32 - n] + Zeros(n)
  }

  /** What the proofs about whole messages need of the step for n bits. */
  ghost predicate Crcish(f: Word -> Word, n: nat) {
    && n <= 32
    && (forall a: Word, b: Word :: LinearAt(f, a, b))
    && (forall a: Word, b: Word :: InjectiveAt(f, a, b))
    && (forall w: Word :: ShiftsAt(f, w, n))
  }

  function Stepper(g: Word, n: nat): Word -> Word { (c: Word) => Steps(g, c, n) }

  lemma StepperIsCrcish(g: Word, n: nat)
    requires g[31] && n <= 32
    ensures Crcish(Stepper(g, n), n)
  {
    forall a: Word, b: Word
      ensures LinearAt(Stepper(g, n), a, b) && InjectiveAt(Stepper(g, n), a, b)
    {
      StepsLinear(g, a, b, n);
      if Steps(g, a, n) == Steps(g, b, n) {
        StepsInjective(g, a, b, n);
      }
    }
    forall w: Word
      ensures ShiftsAt(Stepper(g, n), w, n)
    {
      StepsShift(g, Lift(w, n), n);
      assert Lift(w, n)[n..] == w[..32 - n];
    }
  }

  function Pad(v: Octet): Word { v + Zeros(24) }

  function Step(f: Word -> Word, c: Word, v: Octet): Word { f(Xor(c, Pad(v))) }

  function ShiftByte(c: Word): Word { c[8..] + Zeros(8) }

  /** The table look-up does the same as the step on the whole word. */
  lemma TableStep(f: Word -> Word, c: Word, v: Octet)
    requires Crcish(f, 8)
    ensures Xor(f(Pad(Xor(c[..8], v))), ShiftByte(c)) == Step(f, c, v)
  {
    var low, w: Word := Pad(Xor(c[..8], v)), ShiftByte(c);
    assert Xor(c, Pad(v)) == Xor(low, Lift(w, 8));
    assert LinearAt(f, low, Lift(w, 8));
    assert ShiftsAt(f, w, 8);
    assert w[..24] + Zeros(8) == w;
  }

  // ---------------------------------------------------------------- whole messages

  function Run(f: Word -> Word, c: Word, message: seq<Octet>): Word
    decreases message
  {
    if message == [] then c else Run(f, Step(f, c, message[0]), message[1..])
  }

  function Octets(message: Bytes): (r: seq<Octet>)
    ensures |r| == |message| && forall i :: 0 <= i < |message| ==> r[i] == OctetOf(message[i])
  {
    seq(|message|, i requires 0 <= i < |message| => OctetOf(message[i]))
  }

  /** The checksum with a given step for bytes: the register starts with ones and is inverted at the end. */
  function Sum(f: Word -> Word, message: Bytes): Word { Xor(Run(f, Ones(32), Octets(message)), Ones(32)) }

  lemma {:induction false} RunConcat(f: Word -> Word, c: Word, a: seq<Octet>, b: seq<Octet>)
    ensures Run(f, c, a + b) == Run(f, Run(f, c, a), b)
    decreases a
  {
    if a == [] {
      assert a + b == b;
    } else {
      assert (a + b)[1..] == a[1..] + b;
      RunConcat(f, Step(f, c, a[0]), a[1..], b);
    }
  }

  lemma {:induction false} RunNext(f: Word -> Word, c: Word, message: seq<Octet>, i: nat)
    requires i < |message|
    ensures Run(f, c, message[i..]) == Run(f, Step(f, c, message[i]), message[i + 1..])
  {
    assert message[i..][0] == message[i] && message[i..][1..] == message[i + 1..];
  }

  /** The entries of the table: the step on a single byte. */
  ghost predicate IsTable(f: Word -> Word, table: seq<Word>) {
    |table| == 256 && forall b: Byte :: table[b] == f(Pad(OctetOf(b)))
  }

  lemma LookUp(f: Word -> Word, table: seq<Word>, c: Word, b: Byte)
    requires Crcish(f, 8) && IsTable(f, table)
    ensures Xor(table[ByteOf(Xor(c[..8], OctetOf(b)))], ShiftByte(c)) == Step(f, c, OctetOf(b))
  {
    var index: Octet := Xor(c[..8], OctetOf(b));
    OctetRoundTrip(index, 0);
    TableStep(f, c, OctetOf(b));
  }

  /** The loop over the bytes of the message. */
  method Update(ghost f: Word -> Word, table: seq<Word>, message: Bytes) returns (crc: Word)
    requires Crcish(f, 8) && IsTable(f, table)
    ensures crc == Sum(f, message)
  {
    crc := Ones(32);
    ghost var octets := Octets(message);
    assert octets[0..] == octets;
    for i := 0 to |message|
      invariant Run(f, crc, octets[i..]) == Run(f, Ones(32), octets)
    {
      LookUp(f, table, crc, message[i]);
      RunNext(f, crc, octets, i);
      crc := Xor(table[ByteOf(Xor(crc[..8], OctetOf(message[i])))], ShiftByte(crc));
    }
    crc := Xor(crc, Ones(32));
  }

  method TableEntry(g: Word, b: Byte, n: nat) returns (c: Word)
    ensures c == Stepper(g, n)(Pad(OctetOf(b)))
  {
    c := Pad(OctetOf(b));
    for j := 0 to n
      invariant Steps(g, c, n - j) == Stepper(g, n)(Pad(OctetOf(b)))
    {
      c := BitStep(g, c);
    }
  }

  method MakeTable(g: Word, n: nat) returns (table: seq<Word>)
    ensures IsTable(Stepper(g, n), table)
  {
    ghost var f := Stepper(g, n);
    table := [];
    for i: int := 0 to 256
      invariant |table| == i && forall b: Byte :: b < i ==> table[b] == f(Pad(OctetOf(b)))
    {
      var entry := TableEntry(g, i, n);
      table := table + [entry];
    }
  }

  // ---------------------------------------------------------------- errors and their traces

  function XorAll(a: seq<Octet>, b: seq<Octet>): (r: seq<Octet>)
    requires |a| == |b|
    ensures |r| == |a|
  {
    if a == [] then [] else [Xor(a[0], b[0])] + XorAll(a[1..], b[1..])
  }

  lemma StepLinear(f: Word -> Word, c: Word, d: Word, v: Octet, w: Octet)
    requires Crcish(f, 8)
    ensures Xor(Step(f, c, v), Step(f, d, w)) == Step(f, Xor(c, d), Xor(v, w))
  {
    var x, y := Xor(c, Pad(v)), Xor(d, Pad(w));
    assert Xor(x, y) == Xor(Xor(c, d), Pad(Xor(v, w)));
    assert LinearAt(f, x, y);
  }

  /** The difference of two runs is the run of the differences. */
  lemma {:induction false} RunLinear(f: Word -> Word, c: Word, d: Word, a: seq<Octet>, b: seq<Octet>)
    requires Crcish(f, 8) && |a| == |b|
    ensures Xor(Run(f, c, a), Run(f, d, b)) == Run(f, Xor(c, d), XorAll(a, b))
    decreases a
  {
    if a != [] {
      StepLinear(f, c, d, a[0], b[0]);
      RunLinear(f, Step(f, c, a[0]), Step(f, d, b[0]), a[1..], b[1..]);
      assert XorAll(a, b)[1..] == XorAll(a[1..], b[1..]);
    }
  }

  /** The bytes of an error of at most four bytes, as a word. */
  function Spread(e: seq<Octet>): Word
    requires |e| <= 4
  {
    if e == [] then Zeros(32) else e[0] + Spread(e[1..])[..24]
  }

  lemma {:induction false} SpreadTail(e: seq<Octet>, i: nat)
    requires |e| <= 4 && 8 * |e| <= i < 32
    ensures !Spread(e)[i]
  {
    if e != [] {
      SpreadTail(e[1..], i - 8);
    }
  }

  lemma StepUndo(f: Word -> Word, d: Word, v: Octet, w: Word)
    requires Crcish(f, 8) && Step(f, d, v) == w && forall i :: 24 <= i < 32 ==> !w[i]
    ensures d == v + w[..24]
  {
    assert ShiftsAt(f, w, 8);
    assert w[..24] + Zeros(8) == w;
    assert InjectiveAt(f, Xor(d, Pad(v)), Lift(w, 8));
    forall i | 0 <= i < 32
      ensures d[i] == (v + w[..24])[i]
    {
      assert Xor(d, Pad(v))[i] == (d[i] != Pad(v)[i]);
    }
  }

  /** If the trace of an error vanishes after it, the register held the error itself before it. */
  lemma {:induction false} Recover(f: Word -> Word, d: Word, e: seq<Octet>)
    requires Crcish(f, 8) && |e| <= 4 && Run(f, d, e) == Zeros(32)
    ensures d == Spread(e)
    decreases e
  {
    if e != [] {
      var rest := e[1..];
      Recover(f, Step(f, d, e[0]), rest);
      forall i | 24 <= i < 32
        ensures !Spread(rest)[i]
      {
        SpreadTail(rest, i);
      }
      StepUndo(f, d, e[0], Spread(rest));
    }
  }

  lemma {:induction false} SpreadZero(e: seq<Octet>, i: nat)
    requires |e| <= 4 && Spread(e) == Zeros(32) && i < |e|
    ensures e[i] == Zeros(8)
  {
    var s := Spread(e);
    assert s[..8] == e[0];
    if i > 0 {
      var rest := Spread(e[1..]);
      forall k | 0 <= k < 32
        ensures !rest[k]
      {
        if k < 24 {
          assert s[k + 8] == rest[k];
        } else {
          SpreadTail(e[1..], k);
        }
      }
      assert rest == Zeros(32);
      SpreadZero(e[1..], i - 1);
    }
  }

  lemma ZeroStep(f: Word -> Word, c: Word)
    requires Crcish(f, 8)
    ensures Step(f, c, Zeros(8)) == Zeros(32) <==> c == Zeros(32)
  {
    assert Xor(c, Pad(Zeros(8))) == c;
    assert ShiftsAt(f, Zeros(32), 8);
    assert Lift(Zeros(32), 8) == Zeros(32)[..24] + Zeros(8) == Zeros(32);
    assert InjectiveAt(f, c, Zeros(32));
  }

  /** Without an error in the data, an empty trace stays empty, and a trace never vanishes. */
  lemma {:induction false} TraceStays(f: Word -> Word, c: Word, e: seq<Octet>)
    requires Crcish(f, 8) && forall i :: 0 <= i < |e| ==> e[i] == Zeros(8)
    ensures Run(f, c, e) == Zeros(32) <==> c == Zeros(32)
    decreases e
  {
    if e != [] {
      ZeroStep(f, c);
      TraceStays(f, Step(f, c, e[0]), e[1..]);
    }
  }

  lemma {:induction false} XorAllAt(a: seq<Octet>, b: seq<Octet>, i: nat)
    requires |a| == |b| && i < |a|
    ensures XorAll(a, b)[i] == Xor(a[i], b[i])
    decreases a
  {
    if i > 0 {
      XorAllAt(a[1..], b[1..], i - 1);
    }
  }

  /** An error of at most four bytes whose trace vanishes is no error. */
  lemma {:induction false} BurstIsZero(f: Word -> Word, burst: seq<Octet>, i: nat)
    requires Crcish(f, 8) && |burst| <= 4 && Run(f, Zeros(32), burst) == Zeros(32) && i < |burst|
    ensures burst[i] == Zeros(8)
  {
    Recover(f, Zeros(32), burst);
    SpreadZero(burst, i);
  }

  /** A trace that starts empty and vanishes in the end belongs to no error. */
  lemma {:induction false} TraceNeedsError(
    f: Word -> Word, head: seq<Octet>, burst: seq<Octet>, tail: seq<Octet>, i: nat)
    requires Crcish(f, 8) && |burst| <= 4 && Run(f, Zeros(32), head + burst + tail) == Zeros(32)
    requires forall j :: 0 <= j < |head| ==> head[j] == Zeros(8)
    requires forall j :: 0 <= j < |tail| ==> tail[j] == Zeros(8)
    requires i < |burst|
    ensures burst[i] == Zeros(8)
  {
    RunConcat(f, Zeros(32), head + burst, tail);
    RunConcat(f, Zeros(32), head, burst);
    TraceStays(f, Zeros(32), head);
    TraceStays(f, Run(f, Zeros(32), burst), tail);
    BurstIsZero(f, burst, i);
  }

  /** b is a with some bytes changed, all of them among four consecutive ones from position p on. */
  ghost predicate Burst(a: Bytes, b: Bytes, p: nat) {
    && |a| == |b| && a != b && p <= |a|
    && forall i :: 0 <= i < |a| && (i < p || i >= p + 4) ==> a[i] == b[i]
  }

  /** Equal checksums leave no trace. */
  lemma EqualSums(f: Word -> Word, a: Bytes, b: Bytes)
    requires Crcish(f, 8) && |a| == |b| && Sum(f, a) == Sum(f, b)
    ensures Run(f, Zeros(32), XorAll(Octets(a), Octets(b))) == Zeros(32)
  {
    var x, y := Run(f, Ones(32), Octets(a)), Run(f, Ones(32), Octets(b));
    SameInverse(x, y);
    RunLinear(f, Ones(32), Ones(32), Octets(a), Octets(b));
    XorZero(x, y);
    XorZero(Ones(32), Ones(32));
  }

  lemma SameInverse(x: Word, y: Word)
    requires Xor(x, Ones(32)) == Xor(y, Ones(32))
    ensures x == y
  {
    forall i | 0 <= i < 32
      ensures x[i] == y[i]
    {
      assert Xor(x, Ones(32))[i] == Xor(y, Ones(32))[i];
    }
  }

  lemma OctetDiffers(a: Bytes, b: Bytes, i: nat)
    requires |a| == |b| && i < |a|
    ensures XorAll(Octets(a), Octets(b))[i] == Zeros(8) <==> a[i] == b[i]
  {
    XorAllAt(Octets(a), Octets(b), i);
    XorZero(OctetOf(a[i]), OctetOf(b[i]));
    OctetRoundTrip(Zeros(8), a[i]);
    OctetRoundTrip(Zeros(8), b[i]);
  }

  lemma ZeroOutside(a: Bytes, b: Bytes, lo: nat, hi: nat)
    requires |a| == |b| && lo <= hi <= |a| && forall j :: lo <= j < hi ==> a[j] == b[j]
    ensures var part := XorAll(Octets(a), Octets(b))[lo..hi]; forall j :: 0 <= j < |part| ==> part[j] == Zeros(8)
  {
    forall j | lo <= j < hi
      ensures XorAll(Octets(a), Octets(b))[j] == Zeros(8)
    {
      OctetDiffers(a, b, j);
    }
  }

  /** Without a trace, no byte of the burst has changed. */
  lemma NoTraceNoChange(f: Word -> Word, a: Bytes, b: Bytes, p: nat, q: nat, i: nat)
    requires Crcish(f, 8) && |a| == |b| && p <= i < q <= |a| && q <= p + 4
    requires Run(f, Zeros(32), XorAll(Octets(a), Octets(b))) == Zeros(32)
    requires forall j :: 0 <= j < |a| && (j < p || j >= q) ==> a[j] == b[j]
    ensures a[i] == b[i]
  {
    var e := XorAll(Octets(a), Octets(b));
    ZeroOutside(a, b, 0, p);
    ZeroOutside(a, b, q, |a|);
    assert e == e[0..p] + e[p..q] + e[q..|a|];
    TraceNeedsError(f, e[0..p], e[p..q], e[q..|a|], i - p);
    assert e[i] == e[p..q][i - p];
    OctetDiffers(a, b, i);
  }

  /** A burst of at most four bytes always changes the checksum. */
  lemma BurstChangesSum(f: Word -> Word, a: Bytes, b: Bytes, p: nat)
    requires Crcish(f, 8) && Burst(a, b, p)
    ensures Sum(f, a) != Sum(f, b)
  {
    if Sum(f, a) == Sum(f, b) {
      EqualSums(f, a, b);
      var q := if p + 4 < |a| then p + 4 else |a|;
      forall i | 0 <= i < |a|
        ensures a[i] == b[i]
      {
        if p <= i < q {
          NoTraceNoChange(f, a, b, p, q, i);
        }
      }
    }
  }
}
