/**
 * Checksums whose value is known: they pin the polynomial, the ones with which the register starts and the
 * inversion at the end (server/encoding/encoding.go).
 */
module CrcValues {
  import opened Metatypes
  import opened Crc
  import opened ObjectEncoding

  // ---------------------------------------------------------------- a message that clears the register

  /** Bytes that are already in the register are shifted out without a trace. */
  lemma {:induction false} SpreadCancels(f: Word -> Word, e: seq<Octet>)
    requires Crcish(f, 8) && |e| <= 4
    ensures Run(f, Spread(e), e) == Zeros(32)
    decreases e
  {
    if e != [] {
      var rest := Spread(e[1..]);
      forall i | 24 <= i < 32
        ensures !rest[i]
      {
        SpreadTail(e[1..], i);
      }
      assert Xor(Spread(e), Pad(e[0])) == Lift(rest, 8);
      assert ShiftsAt(f, rest, 8);
      assert rest[..24] + Zeros(8) == rest;
      SpreadCancels(f, e[1..]);
    }
  }

  lemma {:induction false} OneBits(n: nat, k: nat)
    requires n + 1 == Pow2(k)
    ensures ToBits(n, k) == Ones(k)
  {
    if k > 0 {
      OneBits(n / 2, k - 1);
    }
  }

  const CLEARING: Bytes := [255, 255, 255, 255]

  lemma ClearingIsOnes()
    ensures Spread(Octets(CLEARING)) == Ones(32)
  {
    var e := Octets(CLEARING);
    PowByte();
    OneBits(255, 8);
    assert Spread(e[4..]) == Zeros(32);
    assert e[3..][1..] == e[4..] && e[2..][1..] == e[3..] && e[1..][1..] == e[2..];
    assert Spread(e[3..]) == Ones(8) + Zeros(24);
    assert Spread(e[2..]) == Ones(16) + Zeros(16);
    assert Spread(e[1..]) == Ones(24) + Zeros(8);
  }

  lemma {:induction false} ClearedRun(f: Word -> Word, message: Bytes)
    requires Crcish(f, 8)
    ensures Sum(f, CLEARING + message) == Xor(Run(f, Zeros(32), Octets(message)), Ones(32))
  {
    ClearingIsOnes();
    SpreadCancels(f, Octets(CLEARING));
    assert Octets(CLEARING + message) == Octets(CLEARING) + Octets(message);
    RunConcat(f, Ones(32), Octets(CLEARING), Octets(message));
  }

  /** After four bytes of ones the register is empty, and the checksum is that of what follows, without a start. */
  lemma {:induction false} ClearedSum(message: Bytes)
    ensures Checksum(CLEARING + message) == Xor(Run(CrcStep(), Zeros(32), Octets(message)), Ones(32))
  {
    CrcStepIsCrcish();
    ClearedRun(CrcStep(), message);
  }

  // ---------------------------------------------------------------- the polynomial

  lemma {:induction false} StepsSplit(g: Word, c: Word, a: nat, b: nat)
    ensures Steps(g, c, a + b) == Steps(g, Steps(g, c, a), b)
    decreases a
  {
    if a > 0 {
      StepsSplit(g, BitStep(g, c), a - 1, b);
    }
  }

  lemma {:induction false} PowerBits(k: nat)
    ensures ToBits(Pow2(k), k + 1) == Zeros(k) + [true]
  {
    if k > 0 {
      PowerBits(k - 1);
    }
  }

  /** A single bit that falls out leaves the polynomial. */
  lemma {:induction false} BitLeavesPolynomial(g: Word, n: nat)
    requires n == 7
    ensures Steps(g, Pad(Zeros(n) + [true]), n + 1) == g
  {
    var c := Pad(Zeros(n) + [true]);
    StepsShift(g, c, n);
    var d: Word := c[n..] + Zeros(n);
    assert d == [true] + Zeros(31);
    StepsSplit(g, c, n, 1);
    assert Steps(g, BitStep(g, d), 0) == BitStep(g, d);
    assert BitStep(g, d) == g;
  }

  lemma {:induction false} Complement(n: nat, w: nat)
    requires n < Pow2(w)
    ensures FromBits(Xor(ToBits(n, w), Ones(w))) == Pow2(w) - 1 - n
  {
    if w > 0 {
      Complement(n / 2, w - 1);
      assert Xor(ToBits(n, w), Ones(w))[1..] == Xor(ToBits(n / 2, w - 1), Ones(w - 1));
    }
  }

  lemma WordSize()
    ensures Pow2(32) == 0x1_0000_0000
  {
    PowByte();
    PowUp(8);
    PowUp(16);
    PowUp(24);
  }

  lemma {:induction false} RunOfBit(g: Word, n: nat)
    requires n == 7
    ensures Run(Stepper(g, n + 1), Zeros(32), [Zeros(n) + [true]]) == g
  {
    var v: Octet := Zeros(n) + [true];
    assert Xor(Zeros(32), Pad(v)) == Pad(v);
    BitLeavesPolynomial(g, n);
    assert [v][1..] == [];
  }

  /** The register is cleared and inverted. */
  lemma {:induction false} CheckValueOfOnes()
    ensures FromBits(Checksum(CLEARING)) == 0xFFFF_FFFF
  {
    ClearedSum([]);
    assert CLEARING + [] == CLEARING;
    ZeroSum(32);
    WordSize();
  }

  lemma {:induction false} ZeroSum(w: nat)
    ensures FromBits(Xor(Zeros(w), Ones(w))) == Pow2(w) - 1
  {
    if w > 0 {
      ZeroSum(w - 1);
      assert Xor(Zeros(w), Ones(w))[1..] == Xor(Zeros(w - 1), Ones(w - 1));
    }
  }

  /** The register is cleared, and one bit goes through it: the checksum is the inverted polynomial. */
  lemma {:induction false} CheckValueOfBit()
    ensures FromBits(Checksum(CLEARING + [128])) == 0x2A7D_7D7E
  {
    BitSum(Polynomial(), 7);
    WordSize();
    Complement(0xD582_8281, 32);
  }

  lemma {:induction false} BitSum(g: Word, n: nat)
    requires n == 7 && g == Polynomial()
    ensures Checksum(CLEARING + [128]) == Xor(g, Ones(32))
  {
    assert Pow2(n) == 128;
    PowerBits(n);
    ClearedSum([128]);
    assert Octets([128]) == [OctetOf(128)];
    RunOfBit(g, n);
  }

  // ---------------------------------------------------------------- leading zeros count

  /** What is in the register before a message can be told after it. */
  lemma {:induction false} RunInjective(f: Word -> Word, c: Word, d: Word, message: seq<Octet>)
    requires Crcish(f, 8) && Run(f, c, message) == Run(f, d, message)
    ensures c == d
  {
    RunLinear(f, c, d, message, message);
    XorZero(Run(f, c, message), Run(f, d, message));
    forall i | 0 <= i < |message|
      ensures XorAll(message, message)[i] == Zeros(8)
    {
      XorAllAt(message, message, i);
      XorZero(message[i], message[i]);
    }
    TraceStays(f, Xor(c, d), XorAll(message, message));
    XorZero(c, d);
  }

  /** The six bits of the polynomial above its lowest one are zero. */
  ghost predicate Sparse(g: Word) { g[0] && forall i :: 0 < i < 7 ==> !g[i] }

  lemma {:induction false} LowZeros(n: nat, m: nat, w: nat, k: nat)
    requires k <= w && n == m * Pow2(k)
    ensures forall i :: 0 <= i < k ==> !ToBits(n, w)[i]
  {
    if k > 0 {
      assert n == 2 * (m * Pow2(k - 1));
      LowZeros(n / 2, m, w - 1, k - 1);
    }
  }

  lemma PolynomialIsSparse()
    ensures Sparse(Polynomial())
  {
    assert Pow2(6) == 64;
    LowZeros(0xD582_8281 / 2, 0x1AB_0505, 31, 6);
  }

  /** Two steps on a word whose lowest bits are ones leave two of them fewer. */
  lemma TwoSteps(g: Word, c: Word, k: nat)
    requires Sparse(g) && 2 <= k <= 8 && forall i :: 0 <= i < k ==> c[i]
    ensures forall i :: 0 <= i < k - 2 ==> BitStep(g, BitStep(g, c))[i]
    ensures !BitStep(g, c)[0] && !BitStep(g, BitStep(g, c))[31]
  {
  }

  /** Eight steps move a register that holds nothing but ones. */
  lemma {:induction false} OnesMove(g: Word, n: nat)
    requires Sparse(g) && n == 2
    ensures Steps(g, Ones(32), n + n + n + n) != Ones(32)
  {
    var c0: Word := Ones(32);
    var c2, c4 := Steps(g, c0, n), Steps(g, c0, n + n);
    var c6 := Steps(g, c0, n + n + n);
    StepsSplit(g, c0, n, n);
    StepsSplit(g, c0, n + n, n);
    StepsSplit(g, c0, n + n + n, n);
    assert forall c: Word :: Steps(g, c, n) == BitStep(g, BitStep(g, c));
    TwoSteps(g, c0, 8);
    TwoSteps(g, c2, 6);
    TwoSteps(g, c4, 4);
    TwoSteps(g, c6, 2);
  }

  lemma ZeroByte(f: Word -> Word)
    ensures Step(f, Ones(32), OctetOf(0)) == f(Ones(32))
  {
    PowByte();
    LowZeros(0, 0, 8, 8);
    assert Xor(Ones(32), Pad(OctetOf(0))) == Ones(32);
  }

  /** A step that moves a register of ones notices a leading zero byte. */
  lemma {:induction false} LeadingZeroMoves(f: Word -> Word, message: Bytes)
    requires Crcish(f, 8) && f(Ones(32)) != Ones(32)
    ensures Sum(f, [0] + message) != Sum(f, message)
  {
    var octets := Octets(message);
    assert Octets([0] + message)[1..] == octets;
    if Sum(f, [0] + message) == Sum(f, message) {
      SameInverse(Run(f, Ones(32), Octets([0] + message)), Run(f, Ones(32), octets));
      RunInjective(f, Step(f, Ones(32), OctetOf(0)), Ones(32), octets);
      ZeroByte(f);
    }
  }

  /**
   * A zero byte in front of an object changes its checksum, which a register that starts with zeros
   * would not notice.
   */
  lemma {:induction false} LeadingZeroCounts(message: Bytes)
    ensures Checksum([0] + message) != Checksum(message)
  {
    CrcStepIsCrcish();
    PolynomialIsSparse();
    OnesMove(Polynomial(), 2);
    LeadingZeroMoves(CrcStep(), message);
  }

  /** An object that has lost a leading zero byte is found to be damaged. */
  lemma LostZeroIsDetected(message: Bytes)
    requires message != []
    ensures Decoded(LittleEndian(Checksum([0] + message)) + message) == InvalidChecksum
  {
    var sum := LittleEndian(Checksum([0] + message));
    LeadingZeroCounts(message);
    LittleEndianRoundTrip(Checksum([0] + message));
    assert (sum + message)[..CHECKSUM_SIZE] == sum && (sum + message)[CHECKSUM_SIZE..] == message;
  }
}
