/** How the server stores an object: a checksum followed by the data (server/encoding/encoding.go). */
module ObjectEncoding {
  import opened Lists
  import opened Metatypes
  import opened Crc

  const CHECKSUM_SIZE: nat := 4

  // ---------------------------------------------------------------- the polynomial

  function Polynomial(): Word { ToBits(0xD582_8281, 32) }

  lemma {:induction false} TopBitOf(n: nat, width: nat)
    requires width >= 1 && n < Pow2(width)
    ensures ToBits(n, width)[width - 1] <==> n >= Pow2(width - 1)
  {
    if width > 1 {
      TopBitOf(n / 2, width - 1);
    }
  }

  lemma PowUp(n: nat)
    ensures Pow2(n + 8) == 256 * Pow2(n)
  {
    assert Pow2(n + 4) == 16 * Pow2(n) by {
      assert Pow2(n + 2) == 4 * Pow2(n);
    }
    assert Pow2(n + 6) == 4 * Pow2(n + 4);
  }

  lemma {:induction false} TopBitOfWord(n: nat, width: nat)
    requires 0x8000_0000 <= n < 0x1_0000_0000 && width == 32
    ensures ToBits(n, width)[31]
  {
    assert Pow2(7) == 128;
    PowUp(7);
    PowUp(15);
    PowUp(23);
    TopBitOf(n, width);
  }

  function CrcStep(): Word -> Word { Stepper(Polynomial(), 8) }

  lemma CrcStepIsCrcish()
    ensures Crcish(CrcStep(), 8)
  {
    TopBitOfWord(0xD582_8281, 32);
    StepperIsCrcish(Polynomial(), 8);
  }

  function Checksum(blob: Bytes): Word { Sum(CrcStep(), blob) }

  method ComputeChecksum(blob: Bytes) returns (crc: Word)
    ensures crc == Checksum(blob)
  {
    CrcStepIsCrcish();
    var table := MakeTable(Polynomial(), 8);
    crc := Update(CrcStep(), table, blob);
  }

  // ---------------------------------------------------------------- little endian words

  function LittleEndian(w: Word): (r: Bytes)
    ensures |r| == CHECKSUM_SIZE
  {
    [ByteOf(w[0..8]), ByteOf(w[8..16]), ByteOf(w[16..24]), ByteOf(w[24..32])]
  }

  function FromLittleEndian(b: Bytes): Word
    requires |b| == CHECKSUM_SIZE
  {
    OctetOf(b[0]) + OctetOf(b[1]) + OctetOf(b[2]) + OctetOf(b[3])
  }

  lemma LittleEndianRoundTrip(w: Word)
    ensures FromLittleEndian(LittleEndian(w)) == w
  {
    OctetRoundTrip(w[0..8], 0);
    OctetRoundTrip(w[8..16], 0);
    OctetRoundTrip(w[16..24], 0);
    OctetRoundTrip(w[24..32], 0);
    assert w[0..8] + w[8..16] + w[16..24] + w[24..32] == w;
  }

  lemma TwiceTimes(p: nat, x: nat)
    ensures (2 * p) * x == 2 * (p * x)
  {
  }

  lemma {:induction false} FromBitsConcat(a: Bits, b: Bits)
    ensures FromBits(a + b) == FromBits(a) + Pow2(|a|) * FromBits(b)
  {
    if a == [] {
      assert a + b == b;
    } else {
      assert (a + b)[1..] == a[1..] + b;
      FromBitsConcat(a[1..], b);
      TwiceTimes(Pow2(|a| - 1), FromBits(b));
    }
  }

  /** The four bytes are the digits of the number to base 256, the lowest first. */
  lemma {:induction false} LittleEndianValue(w: Word)
    ensures FromDigits(LittleEndian(w)) == FromBits(w)
  {
    PowByte();
    var b := LittleEndian(w);
    assert b[1..][1..] == b[2..] && b[2..][1..] == b[3..] && b[3..][1..] == [];
    assert FromDigits(b[3..]) == b[3];
    assert FromDigits(b[2..]) == b[2] + 256 * FromDigits(b[3..]);
    assert FromDigits(b[1..]) == b[1] + 256 * FromDigits(b[2..]);
    assert w == w[0..8] + (w[8..16] + (w[16..24] + w[24..32]));
    FromBitsConcat(w[16..24], w[24..32]);
    FromBitsConcat(w[8..16], w[16..24] + w[24..32]);
    FromBitsConcat(w[0..8], w[8..16] + (w[16..24] + w[24..32]));
  }

  // ---------------------------------------------------------------- encoding and decoding

  function Packaged(blob: Bytes): Bytes { LittleEndian(Checksum(blob)) + blob }

  /** Write the checksum of the blob over the first four bytes. */
  method PackageData(data: array<Byte>)
    requires data.Length >= CHECKSUM_SIZE
    modifies data
    ensures data[..] == Packaged(old(data[CHECKSUM_SIZE..]))
  {
    ghost var blob := data[CHECKSUM_SIZE..];
    var crc := ComputeChecksum(data[CHECKSUM_SIZE..]);
    var bytes := LittleEndian(crc);
    CopyAt(data, 0, bytes);
    assert data[..] == bytes + blob;
  }

  /** None stands for the error that there is nothing to encode. */
  method EncodeObject(blob: Bytes) returns (r: Option<Bytes>)
    ensures r == if blob == [] then None else Some(Packaged(blob))
  {
    if |blob| == 0 {
      return None;
    }
    var data := new Byte[CHECKSUM_SIZE + |blob|](_ => 0);
    CopyAt(data, CHECKSUM_SIZE, blob);
    assert data[CHECKSUM_SIZE..] == blob;
    PackageData(data);
    r := Some(data[..]);
  }

  datatype Decoding = Intact(blob: Bytes) | InvalidData | InvalidChecksum

  function Decoded(data: Bytes): Decoding {
    if |data| < CHECKSUM_SIZE + 1 then InvalidData
    else if Checksum(data[CHECKSUM_SIZE..]) != FromLittleEndian(data[..CHECKSUM_SIZE]) then InvalidChecksum
    else Intact(data[CHECKSUM_SIZE..])
  }

  method DecodeObject(data: Bytes) returns (r: Decoding)
    ensures r == Decoded(data)
  {
    if |data| < CHECKSUM_SIZE + 1 {
      return InvalidData;
    }
    var blob := data[CHECKSUM_SIZE..];
    var valid := ComputeChecksum(blob);
    if valid != FromLittleEndian(data[..CHECKSUM_SIZE]) {
      return InvalidChecksum;
    }
    r := Intact(blob);
  }

  /** ValidateData reports what is wrong, and None if nothing is. */
  method ValidateData(data: Bytes) returns (r: Option<Decoding>)
    ensures r == if Decoded(data).Intact? then None else Some(Decoded(data))
  {
    if |data| < CHECKSUM_SIZE + 1 {
      return Some(InvalidData);
    }
    var valid := ComputeChecksum(data[CHECKSUM_SIZE..]);
    r := if valid != FromLittleEndian(data[..CHECKSUM_SIZE]) then Some(InvalidChecksum) else None;
  }

  // ---------------------------------------------------------------- main results

  /** Decoding inverts encoding. */
  lemma DecodeInvertsEncode(blob: Bytes)
    requires blob != []
    ensures Decoded(Packaged(blob)) == Intact(blob)
  {
    var data := Packaged(blob);
    assert data[..CHECKSUM_SIZE] == LittleEndian(Checksum(blob)) && data[CHECKSUM_SIZE..] == blob;
    LittleEndianRoundTrip(Checksum(blob));
  }

  /** Decoding accepts exactly what encoding makes, and gives back what it was made of. */
  lemma {:induction false} DecodeExact(data: Bytes, blob: Bytes)
    ensures Decoded(data) == Intact(blob) <==> blob != [] && data == Packaged(blob)
    ensures Decoded(data) == InvalidData <==> |data| <= CHECKSUM_SIZE
  {
    if blob != [] {
      DecodeInvertsEncode(blob);
    }
    if Decoded(data) == Intact(blob) {
      LittleEndianInjective(data[..CHECKSUM_SIZE]);
      assert data == data[..CHECKSUM_SIZE] + data[CHECKSUM_SIZE..];
    }
  }

  /** Corruption within four consecutive bytes of the blob, wherever they are, is always detected. */
  lemma BurstIsDetected(blob: Bytes, damaged: Bytes, p: nat)
    requires Burst(blob, damaged, p)
    ensures Decoded(LittleEndian(Checksum(blob)) + damaged) == InvalidChecksum
  {
    CrcStepIsCrcish();
    BurstChangesSum(CrcStep(), blob, damaged, p);
    var data := LittleEndian(Checksum(blob)) + damaged;
    assert data[..CHECKSUM_SIZE] == LittleEndian(Checksum(blob)) && data[CHECKSUM_SIZE..] == damaged;
    LittleEndianRoundTrip(Checksum(blob));
  }

  /** Corruption of the stored checksum alone is always detected too. */
  lemma ChecksumDamageIsDetected(blob: Bytes, damaged: Bytes)
    requires blob != [] && |damaged| == CHECKSUM_SIZE && damaged + blob != Packaged(blob)
    ensures Decoded(damaged + blob) == InvalidChecksum
  {
    var data := damaged + blob;
    assert data[..CHECKSUM_SIZE] == damaged && data[CHECKSUM_SIZE..] == blob;
    if FromLittleEndian(damaged) == Checksum(blob) {
      LittleEndianInjective(damaged);
    }
  }

  lemma LittleEndianInjective(b: Bytes)
    requires |b| == CHECKSUM_SIZE
    ensures LittleEndian(FromLittleEndian(b)) == b
  {
    var w := FromLittleEndian(b);
    assert w[0..8] == OctetOf(b[0]) && w[8..16] == OctetOf(b[1]) && w[16..24] == OctetOf(b[2]) &&
      w[24..32] == OctetOf(b[3]);
    OctetRoundTrip(w[0..8], b[0]);
    OctetRoundTrip(w[8..16], b[1]);
    OctetRoundTrip(w[16..24], b[2]);
    OctetRoundTrip(w[24..32], b[3]);
  }
}
