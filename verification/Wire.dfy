/**
 * The Protocol Buffers wire format as client/metastor/encoding/proto/metadata.pb.go prints and parses
 * it: base 128 varints, tagged fields, and a skipper for fields that a message does not know.
 *
 * Bits that a varint contributes never overlap, so `or` is written as addition; the width of a 64 bit
 * word is written out.
 */
module Wire {
  import opened Metatypes

  const TWO31: int := 0x8000_0000
  const TWO32: int := 0x1_0000_0000
  const TWO63: int := 0x8000_0000_0000_0000
  const TWO64: int := 0x1_0000_0000_0000_0000

  datatype CodecError =
    | IntOverflow | UnexpectedEnd | InvalidLength | EndGroup | IllegalTag | WrongWireType | IllegalWireType

  /** What reading at some position gives, and where to continue. */
  datatype Parse<+T> = Ok(value: T, next: nat) | Bad(error: CodecError)

  /** The bytes s are found in data at position i. */
  ghost predicate Has(data: Bytes, i: nat, s: Bytes) {
    i + |s| <= |data| && data[i..i + |s|] == s
  }

  lemma HasConcat(data: Bytes, i: nat, a: Bytes, b: Bytes)
    requires Has(data, i, a + b)
    ensures Has(data, i, a) && Has(data, i + |a|, b)
  {
    var ab := a + b;
    assert data[i..i + |a|] == ab[..|a|] == a;
    assert data[i + |a|..i + |a| + |b|] == ab[|a|..] == b;
  }

  // ---------------------------------------------------------------- varints

  function EncVar(v: nat): (r: Bytes)
    ensures |r| >= 1
  {
    if v < 128 then [v] else [v % 128 + 128] + EncVar(v / 128)
  }

  /**
   * Read a varint at position i, as its k-th byte on, where unit is 128 to the power k and acc what the
   * earlier bytes contributed. There are at most ten bytes.
   */
  function ReadFrom(data: Bytes, i: nat, k: nat, unit: nat, acc: nat): (r: Parse<nat>)
    ensures r.Ok? ==> i < r.next <= |data| && r.value < TWO64
    decreases |data| - i
  {
    if k >= 10 then Bad(IntOverflow)
    else if i >= |data| then Bad(UnexpectedEnd)
    else
      var sum := (acc + unit * (data[i] % 128)) % TWO64;
      if data[i] < 128 then Ok(sum, i + 1) else ReadFrom(data, i + 1, k + 1, unit * 128, sum)
  }

  function ReadVar(data: Bytes, i: nat): (r: Parse<nat>)
    ensures r.Ok? ==> i < r.next <= |data| && r.value < TWO64
  {
    ReadFrom(data, i, 0, 1, 0)
  }

  function Pow128(n: nat): nat { if n == 0 then 1 else 128 * Pow128(n - 1) }

  lemma {:induction false} VarLength(v: nat, n: nat)
    requires n >= 1 && v < Pow128(n)
    ensures |EncVar(v)| <= n
  {
    if v >= 128 {
      VarLength(v / 128, n - 1);
    }
  }

  lemma {:induction false} VarFits(v: nat)
    requires v < TWO64
    ensures |EncVar(v)| <= 10
  {
    assert Pow128(4) == 0x1000_0000;
    assert Pow128(7) == 0x2_0000_0000_0000;
    assert Pow128(10) == 0x40_0000_0000_0000_0000;
    VarLength(v, 10);
  }

  lemma UnitSplit(unit: nat, v: nat)
    ensures unit * v == unit * (v % 128) + unit * 128 * (v / 128)
    ensures unit * (v % 128) <= unit * v
  {
    assert v == v % 128 + 128 * (v / 128);
    assert unit * (v % 128 + 128 * (v / 128)) == unit * (v % 128) + unit * (128 * (v / 128));
  }

  lemma ReadMore(data: Bytes, i: nat, k: nat, unit: nat, acc: nat, digit: nat)
    requires k < 10 && i < |data| && digit < 128 && data[i] == digit + 128 && acc + unit * digit < TWO64
    ensures ReadFrom(data, i, k, unit, acc) == ReadFrom(data, i + 1, k + 1, unit * 128, acc + unit * digit)
  {
    assert data[i] % 128 == digit;
  }

  lemma {:induction false} ReadLast(data: Bytes, i: nat, k: nat, unit: nat, acc: nat, digit: nat)
    requires k < 10 && i < |data| && digit < 128 && data[i] == digit && acc + unit * digit < TWO64
    ensures ReadFrom(data, i, k, unit, acc) == Ok(acc + unit * digit, i + 1)
  {
  }

  lemma HasFirst(data: Bytes, i: nat, b: Byte, rest: Bytes)
    requires Has(data, i, [b] + rest)
    ensures i < |data| && data[i] == b && Has(data, i + 1, rest)
  {
    HasConcat(data, i, [b], rest);
    assert data[i] == data[i..i + 1][0];
  }

  lemma {:induction false} VarRoundTripFrom(data: Bytes, i: nat, k: nat, unit: nat, acc: nat, v: nat)
    requires Has(data, i, EncVar(v)) && k + |EncVar(v)| <= 10 && acc + unit * v < TWO64
    ensures ReadFrom(data, i, k, unit, acc) == Ok(acc + unit * v, i + |EncVar(v)|)
    decreases v
  {
    if v < 128 {
      assert EncVar(v) == [v] + [];
      HasFirst(data, i, v, []);
      ReadLast(data, i, k, unit, acc, v);
    } else {
      var digit, high := v % 128, v / 128;
      HasFirst(data, i, digit + 128, EncVar(high));
      UnitSplit(unit, v);
      ReadMore(data, i, k, unit, acc, digit);
      VarRoundTripFrom(data, i + 1, k + 1, unit * 128, acc + unit * digit, high);
    }
  }

  /** Reading inverts writing, for every 64 bit value. */
  lemma {:induction false} VarRoundTrip(data: Bytes, i: nat, v: nat)
    requires Has(data, i, EncVar(v)) && v < TWO64
    ensures ReadVar(data, i) == Ok(v, i + |EncVar(v)|)
  {
    VarFits(v);
    VarRoundTripFrom(data, i, 0, 1, 0, v);
  }

  /** The shift-and-accumulate loop. */
  method DecodeVarint(data: Bytes, start: nat) returns (r: Parse<nat>)
    ensures r == ReadVar(data, start)
  {
    var value: nat, index: nat, count: nat, unit: nat := 0, start, 0, 1;
    while true
      invariant ReadFrom(data, start, 0, 1, 0) == ReadFrom(data, index, count, unit, value)
      invariant count <= 10
      decreases 10 - count
    {
      if count >= 10 {
        return Bad(IntOverflow);
      }
      if index >= |data| {
        return Bad(UnexpectedEnd);
      }
      var b := data[index];
      index := index + 1;
      value := (value + unit * (b % 128)) % TWO64;
      if b < 128 {
        return Ok(value, index);
      }
      count, unit := count + 1, unit * 128;
    }
  }

  /** The number of bytes of a varint. */
  method VarintSize(x: nat) returns (n: nat)
    ensures n == |EncVar(x)|
  {
    var rest := x;
    n := 0;
    while true
      invariant n + |EncVar(rest)| == |EncVar(x)|
      decreases rest
    {
      n := n + 1;
      if rest / 128 == 0 {
        break;
      }
      rest := rest / 128;
    }
  }

  // ---------------------------------------------------------------- signed numbers and tags

  function Signed(v: int): (x: int)
    requires 0 <= v < TWO64
    ensures -TWO63 <= x < TWO63
  {
    if v >= TWO63 then v - TWO64 else v
  }

  /** The conversion to an unsigned word keeps the bits, so negative numbers take ten bytes. */
  function Unsigned(x: int): (v: nat)
    ensures v < TWO64 && (-TWO63 <= x < TWO63 ==> Signed(v) == x && (v == 0 <==> x == 0))
  {
    x % TWO64
  }

  function Signed32(v: nat): int {
    var low := v % TWO32;
    if low >= TWO31 then low - TWO32 else low
  }

  function Tag(num: nat, wireType: nat): Bytes { EncVar(num * 8 + wireType) }

  lemma TagParts(num: nat, wireType: nat)
    requires wireType < 8
    ensures (num * 8 + wireType) % 8 == wireType && (num * 8 + wireType) / 8 == num
  {
  }

  /** A tag can be read back as long as its number has 31 bits. */
  lemma TagRoundTrip(data: Bytes, i: nat, num: nat, wireType: nat)
    requires wireType < 8 && num < TWO31 && Has(data, i, Tag(num, wireType))
    ensures var r := ReadVar(data, i);
      r.Ok? && r.next == i + |Tag(num, wireType)| && r.value % 8 == wireType && Signed32(r.value / 8) == num
  {
    var v := num * 8 + wireType;
    TagParts(num, wireType);
    assert v < TWO64;
    VarRoundTrip(data, i, v);
  }

  // ---------------------------------------------------------------- skipping

  /** Where the field at position i ends; the end may lie outside the data. */
  function Skip(data: Bytes, i: nat): (r: Parse<()>)
    requires i < |data|
    ensures r.Ok? ==> r.next > i
    decreases |data| - i, 0
  {
    match ReadVar(data, i)
    case Bad(e) => Bad(e)
    case Ok(wire, j) =>
      var wireType := wire % 8;
      if wireType == 0 then
        match ReadVar(data, j) case Bad(e) => Bad(e) case Ok(_, n) => Ok((), n)
      else if wireType == 1 then Ok((), j + 8)
      else if wireType == 2 then
        match ReadVar(data, j)
        case Bad(e) => Bad(e)
        case Ok(v, n) => if Signed(v) < 0 then Bad(InvalidLength) else Ok((), n + Signed(v))
      else if wireType == 3 then SkipGroup(data, j)
      else if wireType == 4 then Ok((), j)
      else if wireType == 5 then Ok((), j + 4)
      else Bad(IllegalWireType)
  }

  /** Where the group ends whose fields start at position j. */
  function SkipGroup(data: Bytes, j: nat): (r: Parse<()>)
    ensures r.Ok? ==> r.next > j
    decreases |data| - j, 1
  {
    match ReadVar(data, j)
    case Bad(e) => Bad(e)
    case Ok(wire, n) =>
      if wire % 8 == 4 then Ok((), n)
      else match Skip(data, j) case Bad(e) => Bad(e) case Ok(_, m) => SkipGroup(data, m)
  }

  /** The skipper: one call per field, which calls itself for the fields of a group. */
  method SkipField(data: Bytes, start: nat) returns (r: Parse<()>)
    requires start < |data|
    ensures r == Skip(data, start)
    decreases |data| - start, 0
  {
    var tag := DecodeVarint(data, start);
    if tag.Bad? {
      return Bad(tag.error);
    }
    var wireType, index := tag.value % 8, tag.next;
    match wireType {
      case 0 =>
        var v := DecodeVarint(data, index);
        return if v.Bad? then Bad(v.error) else Ok((), v.next);
      case 1 => return Ok((), index + 8);
      case 2 =>
        var v := DecodeVarint(data, index);
        if v.Bad? {
          return Bad(v.error);
        }
        return if Signed(v.value) < 0 then Bad(InvalidLength) else Ok((), v.next + Signed(v.value));
      case 3 => r := SkipFields(data, index);
      case 4 => return Ok((), index);
      case 5 => return Ok((), index + 4);
      case _ => return Bad(IllegalWireType);
    }
  }

  /** The loop over the fields of a group, up to its end tag. */
  method SkipFields(data: Bytes, start: nat) returns (r: Parse<()>)
    ensures r == SkipGroup(data, start)
    decreases |data| - start, 1
  {
    var index := start;
    while true
      invariant start <= index && SkipGroup(data, start) == SkipGroup(data, index)
      decreases |data| - index
    {
      var inner := DecodeVarint(data, index);
      if inner.Bad? {
        return Bad(inner.error);
      }
      if inner.value % 8 == 4 {
        return Ok((), inner.next);
      }
      var next := SkipField(data, index);
      if next.Bad? {
        return Bad(next.error);
      }
      index := next.next;
    }
  }

  // ---------------------------------------------------------------- unknown fields

  /** A well-formed field of any wire type; groups nest. */
  datatype Unknown =
    | AVarint(num: nat, value: nat)
    | AFixed64(num: nat, eight: Bytes)
    | ABlob(num: nat, bytes: Bytes)
    | AGroup(num: nat, fields: seq<Unknown>)
    | AFixed32(num: nat, four: Bytes)

  ghost predicate WellFormed(u: Unknown) {
    && u.num < TWO31
    && match u
       case AVarint(_, value) => value < TWO64
       case AFixed64(_, eight) => |eight| == 8
       case ABlob(_, bytes) => |bytes| < TWO63
       case AGroup(_, fields) => forall f :: f in fields ==> WellFormed(f)
       case AFixed32(_, four) => |four| == 4
  }

  function EncUnknown(u: Unknown): Bytes {
    match u
    case AVarint(num, value) => Tag(num, 0) + EncVar(value)
    case AFixed64(num, eight) => Tag(num, 1) + eight
    case ABlob(num, bytes) => Tag(num, 2) + (EncVar(|bytes|) + bytes)
    case AGroup(num, fields) => Tag(num, 3) + (EncUnknowns(fields) + Tag(num, 4))
    case AFixed32(num, four) => Tag(num, 5) + four
  }

  function EncUnknowns(us: seq<Unknown>): Bytes {
    if us == [] then [] else EncUnknown(us[0]) + EncUnknowns(us[1..])
  }

  function WireType(u: Unknown): (t: nat)
    ensures t < 6 && t != 4
  {
    match u
    case AVarint(_, _) => 0
    case AFixed64(_, _) => 1
    case ABlob(_, _) => 2
    case AGroup(_, _) => 3
    case AFixed32(_, _) => 5
  }

  /** Every field starts with its tag. */
  lemma {:induction false} UnknownTag(data: Bytes, i: nat, u: Unknown)
    requires WellFormed(u) && Has(data, i, EncUnknown(u))
    ensures Has(data, i, Tag(u.num, WireType(u))) && i < |data|
    ensures var r := ReadVar(data, i);
      r.Ok? && r.next == i + |Tag(u.num, WireType(u))| && r.value % 8 == WireType(u) && Signed32(r.value / 8) == u.num
  {
    var tag := Tag(u.num, WireType(u));
    assert EncUnknown(u) == tag + EncUnknown(u)[|tag|..];
    HasConcat(data, i, tag, EncUnknown(u)[|tag|..]);
    TagRoundTrip(data, i, u.num, WireType(u));
  }

  /** The skipper consumes exactly one well-formed field, however deeply it nests. */
  lemma {:induction false} SkipExact(data: Bytes, i: nat, u: Unknown)
    requires WellFormed(u) && Has(data, i, EncUnknown(u))
    ensures i < |data| && Skip(data, i) == Ok((), i + |EncUnknown(u)|)
    decreases u, 0
  {
    UnknownTag(data, i, u);
    var tag := Tag(u.num, WireType(u));
    var j := i + |tag|;
    match u
    case AVarint(_, value) =>
      HasConcat(data, i, tag, EncVar(value));
      VarRoundTrip(data, j, value);
    case ABlob(_, bytes) =>
      HasConcat(data, i, tag, EncVar(|bytes|) + bytes);
      HasConcat(data, j, EncVar(|bytes|), bytes);
      VarRoundTrip(data, j, |bytes|);
    case AGroup(num, fields) =>
      HasConcat(data, i, tag, EncUnknowns(fields) + Tag(num, 4));
      SkipGroupExact(data, j, num, fields);
    case _ =>
  }

  lemma {:induction false} SkipGroupStep(data: Bytes, j: nat)
    requires j < |data| && ReadVar(data, j).Ok? && ReadVar(data, j).value % 8 != 4 && Skip(data, j).Ok?
    ensures SkipGroup(data, j) == SkipGroup(data, Skip(data, j).next)
  {
  }

  lemma {:induction false} SkipGroupEnd(data: Bytes, j: nat, num: nat)
    requires num < TWO31 && Has(data, j, Tag(num, 4))
    ensures SkipGroup(data, j) == Ok((), j + |Tag(num, 4)|)
  {
    TagRoundTrip(data, j, num, 4);
  }

  /** One field of a group is skipped. */
  lemma SkipGroupOne(data: Bytes, j: nat, u: Unknown)
    requires WellFormed(u) && Has(data, j, EncUnknown(u)) && j < |data| && Skip(data, j) == Ok((), j + |EncUnknown(u)|)
    ensures SkipGroup(data, j) == SkipGroup(data, j + |EncUnknown(u)|)
  {
    UnknownTag(data, j, u);
    SkipGroupStep(data, j);
  }

  lemma {:induction false} GroupTail(num: nat, us: seq<Unknown>)
    requires us != []
    ensures EncUnknowns(us) + Tag(num, 4) == EncUnknown(us[0]) + (EncUnknowns(us[1..]) + Tag(num, 4))
  {
  }

  lemma {:induction false} SkipGroupExact(data: Bytes, j: nat, num: nat, us: seq<Unknown>)
    requires num < TWO31 && (forall f :: f in us ==> WellFormed(f)) && Has(data, j, EncUnknowns(us) + Tag(num, 4))
    ensures SkipGroup(data, j) == Ok((), j + |EncUnknowns(us) + Tag(num, 4)|)
    decreases us
  {
    if us == [] {
      assert EncUnknowns(us) + Tag(num, 4) == Tag(num, 4);
      SkipGroupEnd(data, j, num);
    } else {
      GroupTail(num, us);
      HasConcat(data, j, EncUnknown(us[0]), EncUnknowns(us[1..]) + Tag(num, 4));
      SkipExact(data, j, us[0]);
      SkipGroupOne(data, j, us[0]);
      SkipGroupExact(data, j + |EncUnknown(us[0])|, num, us[1..]);
    }
  }
}
