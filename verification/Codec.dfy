/**
 * Metadata, chunks and objects on the wire (client/metastor/encoding/proto/metadata.pb.go and
 * client/metastor/encoding/proto/proto.go).
 *
 * An encoded message is a sequence of records: the fields of the message in any order and number,
 * mixed with fields the message does not know. What such a sequence means is defined without looking
 * at bytes; parsing is proved to find that meaning, and marshalling is one particular sequence.
 */
module Codec {
  import opened Metatypes
  import opened Wire

  // ---------------------------------------------------------------- one field

  datatype Message = MetadataMessage | ChunkMessage | ObjectMessage

  datatype Kind = Number | Blob | Foreign

  /** How the three messages declare their field numbers. */
  function KindOf(msg: Message, num: int): Kind {
    match msg
    case MetadataMessage =>
      if num == 1 || num == 5 || num == 6 || num == 7 then Blob
      else if num == 2 || num == 3 || num == 4 then Number
      else Foreign
    case ChunkMessage => if num == 1 then Number else if num == 2 || num == 3 then Blob else Foreign
    case ObjectMessage => if num == 1 || num == 2 then Blob else Foreign
  }

  /** What a field turns out to be. */
  datatype Found = FoundNumber(num: int, value: int) | FoundBlob(num: int, bytes: Bytes) | Ignored

  function ReadPayload(kind: Kind, num: int, data: Bytes, start: nat, wireType: nat, j: nat): (r: Parse<Found>)
    requires start < j <= |data|
    ensures r.Ok? ==> start < r.next <= |data|
  {
    match kind
    case Number =>
      if wireType != 0 then Bad(WrongWireType)
      else (match ReadVar(data, j) case Bad(e) => Bad(e) case Ok(v, n) => Ok(FoundNumber(num, Signed(v)), n))
    case Blob =>
      if wireType != 2 then Bad(WrongWireType)
      else (
        match ReadVar(data, j)
        case Bad(e) => Bad(e)
        case Ok(v, n) =>
          var length := Signed(v);
          if length < 0 then Bad(InvalidLength)
          else if n + length > |data| then Bad(UnexpectedEnd)
          else Ok(FoundBlob(num, data[n..n + length]), n + length))
    case Foreign =>
      match Skip(data, start)
      case Bad(e) => Bad(e)
      case Ok(_, n) => if n > |data| then Bad(UnexpectedEnd) else Ok(Ignored, n)
  }

  /** The body of the loop that all three parsers share. */
  function ReadField(msg: Message, data: Bytes, i: nat): (r: Parse<Found>)
    requires i < |data|
    ensures r.Ok? ==> i < r.next <= |data|
  {
    match ReadVar(data, i)
    case Bad(e) => Bad(e)
    case Ok(wire, j) =>
      var num, wireType := Signed32(wire / 8), wire % 8;
      if wireType == 4 then Bad(EndGroup)
      else if num <= 0 then Bad(IllegalTag)
      else ReadPayload(KindOf(msg, num), num, data, i, wireType, j)
  }

  method NextField(msg: Message, data: Bytes, preIndex: nat) returns (r: Parse<Found>)
    requires preIndex < |data|
    ensures r == ReadField(msg, data, preIndex)
  {
    var tag := DecodeVarint(data, preIndex);
    if tag.Bad? {
      return Bad(tag.error);
    }
    var num, wireType, index := Signed32(tag.value / 8), tag.value % 8, tag.next;
    if wireType == 4 {
      return Bad(EndGroup);
    }
    if num <= 0 {
      return Bad(IllegalTag);
    }
    match KindOf(msg, num) {
      case Number =>
        if wireType != 0 {
          return Bad(WrongWireType);
        }
        var v := DecodeVarint(data, index);
        return if v.Bad? then Bad(v.error) else Ok(FoundNumber(num, Signed(v.value)), v.next);
      case Blob =>
        if wireType != 2 {
          return Bad(WrongWireType);
        }
        var v := DecodeVarint(data, index);
        if v.Bad? {
          return Bad(v.error);
        }
        var length := Signed(v.value);
        if length < 0 {
          return Bad(InvalidLength);
        }
        var postIndex := v.next + length;
        if postIndex > |data| {
          return Bad(UnexpectedEnd);
        }
        return Ok(FoundBlob(num, data[v.next..postIndex]), postIndex);
      case Foreign =>
        var skipped := SkipField(data, preIndex);
        if skipped.Bad? {
          return Bad(skipped.error);
        }
        return if skipped.next > |data| then Bad(UnexpectedEnd) else Ok(Ignored, skipped.next);
    }
  }

  /** A field as it is written. */
  datatype Field = Num(num: nat, value: int) | Blb(num: nat, bytes: Bytes) | Other(u: Unknown)

  function EncField(f: Field): Bytes {
    match f
    case Num(num, value) => Tag(num, 0) + EncVar(Unsigned(value))
    case Blb(num, bytes) => Tag(num, 2) + (EncVar(|bytes|) + bytes)
    case Other(u) => EncUnknown(u)
  }

  function Seen(f: Field): Found {
    match f
    case Num(num, value) => FoundNumber(num, value)
    case Blb(num, bytes) => FoundBlob(num, bytes)
    case Other(_) => Ignored
  }

  /** A field that the message declares and whose value fits, or a well-formed one it does not declare. */
  ghost predicate Fits(msg: Message, f: Field) {
    match f
    case Num(num, value) => KindOf(msg, num) == Number && -TWO63 <= value < TWO63
    case Blb(num, bytes) => KindOf(msg, num) == Blob && |bytes| < TWO63
    case Other(u) => u.num > 0 && KindOf(msg, u.num) == Foreign && WellFormed(u)
  }

  lemma NumberRoundTrip(msg: Message, data: Bytes, i: nat, f: Field)
    requires f.Num? && Fits(msg, f) && Has(data, i, EncField(f))
    ensures i < |data| && ReadField(msg, data, i) == Ok(Seen(f), i + |EncField(f)|)
  {
    var tag, v := Tag(f.num, 0), Unsigned(f.value);
    HasConcat(data, i, tag, EncVar(v));
    TagRoundTrip(data, i, f.num, 0);
    VarRoundTrip(data, i + |tag|, v);
  }

  lemma {:induction false} BlobPayload(data: Bytes, i: nat, j: nat, num: nat, bytes: Bytes)
    requires i < j <= |data| && |bytes| < TWO63 && Has(data, j, EncVar(|bytes|) + bytes)
    ensures ReadPayload(Blob, num, data, i, 2, j) == Ok(FoundBlob(num, bytes), j + |EncVar(|bytes|)| + |bytes|)
  {
    var n := j + |EncVar(|bytes|)|;
    HasConcat(data, j, EncVar(|bytes|), bytes);
    VarRoundTrip(data, j, |bytes|);
    assert ReadVar(data, j) == Ok(|bytes|, n) && Signed(|bytes|) == |bytes|;
    assert data[n..n + |bytes|] == bytes;
  }

  lemma BlobRoundTrip(msg: Message, data: Bytes, i: nat, f: Field)
    requires f.Blb? && Fits(msg, f) && Has(data, i, EncField(f))
    ensures i < |data| && ReadField(msg, data, i) == Ok(Seen(f), i + |EncField(f)|)
  {
    var tag := Tag(f.num, 2);
    HasConcat(data, i, tag, EncVar(|f.bytes|) + f.bytes);
    TagRoundTrip(data, i, f.num, 2);
    BlobPayload(data, i, i + |tag|, f.num, f.bytes);
  }

  lemma OtherRoundTrip(msg: Message, data: Bytes, i: nat, f: Field)
    requires f.Other? && Fits(msg, f) && Has(data, i, EncField(f))
    ensures i < |data| && ReadField(msg, data, i) == Ok(Ignored, i + |EncField(f)|)
  {
    UnknownTag(data, i, f.u);
    SkipExact(data, i, f.u);
  }

  /** Reading one field inverts writing it, and ends where the field ends. */
  lemma FieldRoundTrip(msg: Message, data: Bytes, i: nat, f: Field)
    requires Fits(msg, f) && Has(data, i, EncField(f))
    ensures i < |data| && ReadField(msg, data, i) == Ok(Seen(f), i + |EncField(f)|)
  {
    match f
    case Num(_, _) => NumberRoundTrip(msg, data, i, f);
    case Blb(_, _) => BlobRoundTrip(msg, data, i, f);
    case Other(_) => OtherRoundTrip(msg, data, i, f);
  }

  // ---------------------------------------------------------------- records and their meaning

  datatype ORec = OKey(key: Bytes) | OShard(shard: Bytes) | OOther(u: Unknown)

  datatype CRec = CSize(size: int) | CObject(parts: seq<ORec>) | CHash(hash: Bytes) | COther(u: Unknown)

  datatype MRec =
    | MKey(key: Bytes) | MSize(size: int) | MCreated(created: int) | MWritten(written: int)
    | MChunk(chunk: seq<CRec>) | MPrevious(previous: Bytes) | MNext(next: Bytes) | MOther(u: Unknown)

  function Fold<A, R>(f: (A, R) -> A, rs: seq<R>, a: A): A {
    if rs == [] then a else Fold(f, rs[1..], f(a, rs[0]))
  }

  lemma {:induction false} FoldConcat<A, R>(f: (A, R) -> A, r: seq<R>, s: seq<R>, a: A)
    ensures Fold(f, r + s, a) == Fold(f, s, Fold(f, r, a))
  {
    if r == [] {
      assert r + s == s;
    } else {
      assert (r + s)[1..] == r[1..] + s;
      FoldConcat(f, r[1..], s, f(a, r[0]));
    }
  }

  /** The encodings of all records, one after the other. */
  function Cat<R>(enc: R -> Bytes, rs: seq<R>): Bytes {
    if rs == [] then [] else enc(rs[0]) + Cat(enc, rs[1..])
  }

  lemma {:induction false} CatConcat<R>(enc: R -> Bytes, r: seq<R>, s: seq<R>)
    ensures Cat(enc, r + s) == Cat(enc, r) + Cat(enc, s)
  {
    if r == [] {
      assert r + s == s;
    } else {
      assert (r + s)[1..] == r[1..] + s;
      CatConcat(enc, r[1..], s);
    }
  }

  /** The last value of a field wins, repeated fields accumulate, unknown fields mean nothing. */
  function ApplyO(): (Object, ORec) -> Object {
    (o: Object, r: ORec) =>
      match r
      case OKey(key) => o.(key := key)
      case OShard(shard) => o.(shard := shard)
      case OOther(_) => o
  }

  function ApplyC(): (Chunk, CRec) -> Chunk {
    (c: Chunk, r: CRec) =>
      match r
      case CSize(size) => c.(size := size)
      case CObject(rs) => c.(objects := c.objects + [Fold(ApplyO(), rs, NO_OBJECT)])
      case CHash(hash) => c.(hash := hash)
      case COther(_) => c
  }

  function ApplyM(): (Metadata, MRec) -> Metadata {
    (m: Metadata, r: MRec) =>
      match r
      case MKey(key) => m.(key := key)
      case MSize(size) => m.(size := size)
      case MCreated(t) => m.(creationEpoch := t)
      case MWritten(t) => m.(lastWriteEpoch := t)
      case MChunk(rs) => m.(chunks := m.chunks + [Fold(ApplyC(), rs, NO_CHUNK)])
      case MPrevious(key) => m.(previousKey := key)
      case MNext(key) => m.(nextKey := key)
      case MOther(_) => m
  }

  function Meaning(rs: seq<MRec>): Metadata { Fold(ApplyM(), rs, NO_METADATA) }

  function OField(r: ORec): Field {
    match r
    case OKey(key) => Blb(1, key)
    case OShard(shard) => Blb(2, shard)
    case OOther(u) => Other(u)
  }

  function OEnc(): ORec -> Bytes { (r: ORec) => EncField(OField(r)) }

  function EncO(rs: seq<ORec>): Bytes { Cat(OEnc(), rs) }

  function CField(r: CRec): Field {
    match r
    case CSize(size) => Num(1, size)
    case CObject(rs) => Blb(2, EncO(rs))
    case CHash(hash) => Blb(3, hash)
    case COther(u) => Other(u)
  }

  function CEnc(): CRec -> Bytes { (r: CRec) => EncField(CField(r)) }

  function EncC(rs: seq<CRec>): Bytes { Cat(CEnc(), rs) }

  function MField(r: MRec): Field {
    match r
    case MKey(key) => Blb(1, key)
    case MSize(size) => Num(2, size)
    case MCreated(t) => Num(3, t)
    case MWritten(t) => Num(4, t)
    case MChunk(rs) => Blb(5, EncC(rs))
    case MPrevious(key) => Blb(6, key)
    case MNext(key) => Blb(7, key)
    case MOther(u) => Other(u)
  }

  function MEnc(): MRec -> Bytes { (r: MRec) => EncField(MField(r)) }

  function EncM(rs: seq<MRec>): Bytes { Cat(MEnc(), rs) }

  ghost predicate FitsO(rs: seq<ORec>) { forall r :: r in rs ==> Fits(ObjectMessage, OField(r)) }

  ghost predicate FitsCRec(r: CRec) { Fits(ChunkMessage, CField(r)) && (r.CObject? ==> FitsO(r.parts)) }

  ghost predicate FitsC(rs: seq<CRec>) { forall r :: r in rs ==> FitsCRec(r) }

  ghost predicate FitsMRec(r: MRec) { Fits(MetadataMessage, MField(r)) && (r.MChunk? ==> FitsC(r.chunk)) }

  /** Every record is one its message declares, with a value that fits, or a well-formed unknown field. */
  ghost predicate FitsM(rs: seq<MRec>) { forall r :: r in rs ==> FitsMRec(r) }

  // ---------------------------------------------------------------- parsing

  function StoreO(o: Object, f: Found): Object {
    if f.FoundBlob? && f.num == 1 then o.(key := f.bytes)
    else if f.FoundBlob? && f.num == 2 then o.(shard := f.bytes)
    else o
  }

  function ParseO(data: Bytes, i: nat, o: Object): Parse<Object>
    decreases |data| - i
  {
    if i >= |data| then Ok(o, i)
    else
      match ReadField(ObjectMessage, data, i)
      case Bad(e) => Bad(e)
      case Ok(f, n) => ParseO(data, n, StoreO(o, f))
  }

  function StoreC(c: Chunk, f: Found): Parse<Chunk> {
    if f.FoundNumber? && f.num == 1 then Ok(c.(size := f.value), 0)
    else if f.FoundBlob? && f.num == 2 then
      (match ParseO(f.bytes, 0, NO_OBJECT)
       case Bad(e) => Bad(e)
       case Ok(o, _) => Ok(c.(objects := c.objects + [o]), 0))
    else if f.FoundBlob? && f.num == 3 then Ok(c.(hash := f.bytes), 0)
    else Ok(c, 0)
  }

  function ParseC(data: Bytes, i: nat, c: Chunk): Parse<Chunk>
    decreases |data| - i
  {
    if i >= |data| then Ok(c, i)
    else
      match ReadField(ChunkMessage, data, i)
      case Bad(e) => Bad(e)
      case Ok(f, n) =>
        match StoreC(c, f)
        case Bad(e) => Bad(e)
        case Ok(d, _) => ParseC(data, n, d)
  }

  function StoreM(m: Metadata, f: Found): Parse<Metadata> {
    match f
    case Ignored => Ok(m, 0)
    case FoundNumber(num, value) =>
      Ok(if num == 2 then m.(size := value) else if num == 3 then m.(creationEpoch := value)
         else if num == 4 then m.(lastWriteEpoch := value) else m, 0)
    case FoundBlob(num, bytes) =>
      if num == 5 then
        match ParseC(bytes, 0, NO_CHUNK)
        case Bad(e) => Bad(e)
        case Ok(c, _) => Ok(m.(chunks := m.chunks + [c]), 0)
      else
        Ok(if num == 1 then m.(key := bytes) else if num == 6 then m.(previousKey := bytes)
           else if num == 7 then m.(nextKey := bytes) else m, 0)
  }

  function ParseM(data: Bytes, i: nat, m: Metadata): Parse<Metadata>
    decreases |data| - i
  {
    if i >= |data| then Ok(m, i)
    else
      match ReadField(MetadataMessage, data, i)
      case Bad(e) => Bad(e)
      case Ok(f, n) =>
        match StoreM(m, f)
        case Bad(e) => Bad(e)
        case Ok(l, _) => ParseM(data, n, l)
  }

  /** Unmarshalling a whole buffer into an empty message. */
  function Unmarshalled(data: Bytes): Parse<Metadata> { ParseM(data, 0, NO_METADATA) }

  method UnmarshalObject(data: Bytes) returns (r: Parse<Object>)
    ensures r == ParseO(data, 0, NO_OBJECT)
  {
    var o, index: nat := NO_OBJECT, 0;
    while index < |data|
      invariant ParseO(data, 0, NO_OBJECT) == ParseO(data, index, o)
      decreases |data| - index
    {
      var f := NextField(ObjectMessage, data, index);
      if f.Bad? {
        return Bad(f.error);
      }
      index := f.next;
      if f.value.FoundBlob? {
        if f.value.num == 1 {
          o := o.(key := f.value.bytes);
        } else if f.value.num == 2 {
          o := o.(shard := f.value.bytes);
        }
      }
    }
    r := Ok(o, index);
  }

  method UnmarshalChunk(data: Bytes) returns (r: Parse<Chunk>)
    ensures r == ParseC(data, 0, NO_CHUNK)
  {
    var c, index: nat := NO_CHUNK, 0;
    while index < |data|
      invariant ParseC(data, 0, NO_CHUNK) == ParseC(data, index, c)
      decreases |data| - index
    {
      var f := NextField(ChunkMessage, data, index);
      if f.Bad? {
        return Bad(f.error);
      }
      index := f.next;
      match f.value {
        case FoundNumber(num, value) =>
          if num == 1 {
            c := c.(size := value);
          }
        case FoundBlob(num, bytes) =>
          if num == 2 {
            var o := UnmarshalObject(bytes);
            if o.Bad? {
              return Bad(o.error);
            }
            c := c.(objects := c.objects + [o.value]);
          } else if num == 3 {
            c := c.(hash := bytes);
          }
        case Ignored =>
      }
    }
    r := Ok(c, index);
  }

  method Unmarshal(data: Bytes) returns (r: Parse<Metadata>)
    ensures r == Unmarshalled(data)
  {
    var m, index: nat := NO_METADATA, 0;
    while index < |data|
      invariant Unmarshalled(data) == ParseM(data, index, m)
      decreases |data| - index
    {
      var f := NextField(MetadataMessage, data, index);
      if f.Bad? {
        return Bad(f.error);
      }
      index := f.next;
      match f.value {
        case FoundNumber(num, value) =>
          match num {
            case 2 => m := m.(size := value);
            case 3 => m := m.(creationEpoch := value);
            case 4 => m := m.(lastWriteEpoch := value);
            case _ =>
          }
        case FoundBlob(num, bytes) =>
          match num {
            case 1 => m := m.(key := bytes);
            case 5 =>
              var c := UnmarshalChunk(bytes);
              if c.Bad? {
                return Bad(c.error);
              }
              m := m.(chunks := m.chunks + [c.value]);
            case 6 => m := m.(previousKey := bytes);
            case 7 => m := m.(nextKey := bytes);
            case _ =>
          }
        case Ignored =>
      }
    }
    r := Ok(m, index);
  }

  // ---------------------------------------------------------------- parsing finds the meaning

  /** From position i on, data is exactly s. */
  ghost predicate Ends(data: Bytes, i: nat, s: Bytes) { i <= |data| && data[i..] == s }

  lemma EndsConcat(data: Bytes, i: nat, a: Bytes, b: Bytes)
    requires Ends(data, i, a + b)
    ensures Has(data, i, a) && Ends(data, i + |a|, b)
  {
    var ab := a + b;
    assert |data| == i + |a| + |b|;
    assert data[i..i + |a|] == data[i..][..|a|] == ab[..|a|] == a;
    assert data[i + |a|..] == data[i..][|a|..] == ab[|a|..] == b;
  }

  /** Parsing at position i, when the record r is there, stores r and goes on behind it. */
  ghost predicate Steps<A(!new), R>(
    data: Bytes, enc: R -> Bytes, parse: (nat, A) -> Parse<A>, apply: (A, R) -> A, r: R)
  {
    forall i: nat, a: A :: Has(data, i, enc(r)) ==> parse(i, a) == parse(i + |enc(r)|, apply(a, r))
  }

  /** A parser that handles each record and stops at the end computes the meaning of all records. */
  lemma {:induction false} FoldDecodes<A(!new), R>(
    data: Bytes, enc: R -> Bytes, parse: (nat, A) -> Parse<A>, apply: (A, R) -> A, i: nat, rs: seq<R>, a: A)
    requires forall r :: r in rs ==> Steps(data, enc, parse, apply, r)
    requires forall b: A :: parse(|data|, b) == Ok(b, |data|)
    requires Ends(data, i, Cat(enc, rs))
    ensures parse(i, a) == Ok(Fold(apply, rs, a), |data|)
    decreases |rs|
  {
    if rs != [] {
      var r := rs[0];
      EndsConcat(data, i, enc(r), Cat(enc, rs[1..]));
      assert Steps(data, enc, parse, apply, r);
      FoldDecodes(data, enc, parse, apply, i + |enc(r)|, rs[1..], apply(a, r));
    }
  }

  function ParsingO(data: Bytes): (nat, Object) -> Parse<Object> { (i: nat, o: Object) => ParseO(data, i, o) }

  function ParsingC(data: Bytes): (nat, Chunk) -> Parse<Chunk> { (i: nat, c: Chunk) => ParseC(data, i, c) }

  function ParsingM(data: Bytes): (nat, Metadata) -> Parse<Metadata> { (i: nat, m: Metadata) => ParseM(data, i, m) }

  lemma ObjectStep(data: Bytes, i: nat, r: ORec, o: Object)
    requires Fits(ObjectMessage, OField(r)) && Has(data, i, OEnc()(r))
    ensures i < |data| && ParseO(data, i, o) == ParseO(data, i + |OEnc()(r)|, ApplyO()(o, r))
  {
    FieldRoundTrip(ObjectMessage, data, i, OField(r));
    assert StoreO(o, Seen(OField(r))) == ApplyO()(o, r);
  }

  lemma ObjectSteps(data: Bytes, r: ORec)
    requires Fits(ObjectMessage, OField(r))
    ensures Steps(data, OEnc(), ParsingO(data), ApplyO(), r)
  {
    forall i: nat, o: Object | Has(data, i, OEnc()(r))
      ensures ParsingO(data)(i, o) == ParsingO(data)(i + |OEnc()(r)|, ApplyO()(o, r))
    {
      ObjectStep(data, i, r, o);
    }
  }

  lemma {:induction false} ObjectDecodes(rs: seq<ORec>)
    requires FitsO(rs)
    ensures ParseO(EncO(rs), 0, NO_OBJECT) == Ok(Fold(ApplyO(), rs, NO_OBJECT), |EncO(rs)|)
  {
    var data := EncO(rs);
    forall r | r in rs
      ensures Steps(data, OEnc(), ParsingO(data), ApplyO(), r)
    {
      ObjectSteps(data, r);
    }
    assert data[0..] == data;
    FoldDecodes(data, OEnc(), ParsingO(data), ApplyO(), 0, rs, NO_OBJECT);
  }

  lemma ParseCStep(data: Bytes, i: nat, c: Chunk, f: Field, next: Chunk)
    requires Fits(ChunkMessage, f) && Has(data, i, EncField(f)) && StoreC(c, Seen(f)) == Ok(next, 0)
    ensures i < |data| && ParseC(data, i, c) == ParseC(data, i + |EncField(f)|, next)
  {
    FieldRoundTrip(ChunkMessage, data, i, f);
  }

  lemma ChunkStores(r: CRec, c: Chunk)
    requires FitsCRec(r)
    ensures StoreC(c, Seen(CField(r))) == Ok(ApplyC()(c, r), 0)
  {
    if r.CObject? {
      ObjectDecodes(r.parts);
    }
  }

  lemma ChunkFieldSteps(data: Bytes, f: Field, r: CRec, enc: CRec -> Bytes)
    requires Fits(ChunkMessage, f) && enc(r) == EncField(f)
    requires forall c: Chunk :: StoreC(c, Seen(f)) == Ok(ApplyC()(c, r), 0)
    ensures Steps(data, enc, ParsingC(data), ApplyC(), r)
  {
    forall i: nat, c: Chunk | Has(data, i, enc(r))
      ensures ParsingC(data)(i, c) == ParsingC(data)(i + |enc(r)|, ApplyC()(c, r))
    {
      ParseCStep(data, i, c, f, ApplyC()(c, r));
    }
  }

  lemma ChunkSteps(data: Bytes, r: CRec)
    requires FitsCRec(r)
    ensures Steps(data, CEnc(), ParsingC(data), ApplyC(), r)
  {
    forall c: Chunk
      ensures StoreC(c, Seen(CField(r))) == Ok(ApplyC()(c, r), 0)
    {
      ChunkStores(r, c);
    }
    ChunkFieldSteps(data, CField(r), r, CEnc());
  }

  lemma {:induction false} ChunkDecodes(rs: seq<CRec>)
    requires FitsC(rs)
    ensures ParseC(EncC(rs), 0, NO_CHUNK) == Ok(Fold(ApplyC(), rs, NO_CHUNK), |EncC(rs)|)
  {
    var data := EncC(rs);
    forall r | r in rs
      ensures Steps(data, CEnc(), ParsingC(data), ApplyC(), r)
    {
      ChunkSteps(data, r);
    }
    assert data[0..] == data;
    FoldDecodes(data, CEnc(), ParsingC(data), ApplyC(), 0, rs, NO_CHUNK);
  }

  lemma ParseMStep(data: Bytes, i: nat, m: Metadata, f: Field, next: Metadata)
    requires Fits(MetadataMessage, f) && Has(data, i, EncField(f)) && StoreM(m, Seen(f)) == Ok(next, 0)
    ensures i < |data| && ParseM(data, i, m) == ParseM(data, i + |EncField(f)|, next)
  {
    FieldRoundTrip(MetadataMessage, data, i, f);
  }

  lemma MetadataStores(r: MRec, m: Metadata)
    requires FitsMRec(r)
    ensures StoreM(m, Seen(MField(r))) == Ok(ApplyM()(m, r), 0)
  {
    if r.MChunk? {
      ChunkDecodes(r.chunk);
    }
  }

  lemma MetadataFieldSteps(data: Bytes, f: Field, r: MRec, enc: MRec -> Bytes)
    requires Fits(MetadataMessage, f) && enc(r) == EncField(f)
    requires forall m: Metadata :: StoreM(m, Seen(f)) == Ok(ApplyM()(m, r), 0)
    ensures Steps(data, enc, ParsingM(data), ApplyM(), r)
  {
    forall i: nat, m: Metadata | Has(data, i, enc(r))
      ensures ParsingM(data)(i, m) == ParsingM(data)(i + |enc(r)|, ApplyM()(m, r))
    {
      ParseMStep(data, i, m, f, ApplyM()(m, r));
    }
  }

  lemma MetadataSteps(data: Bytes, r: MRec)
    requires FitsMRec(r)
    ensures Steps(data, MEnc(), ParsingM(data), ApplyM(), r)
  {
    forall m: Metadata
      ensures StoreM(m, Seen(MField(r))) == Ok(ApplyM()(m, r), 0)
    {
      MetadataStores(r, m);
    }
    MetadataFieldSteps(data, MField(r), r, MEnc());
  }

  /** Every well-formed sequence of records is parsed to what it means. */
  lemma DecodeFindsMeaning(rs: seq<MRec>)
    requires FitsM(rs)
    ensures Unmarshalled(EncM(rs)) == Ok(Meaning(rs), |EncM(rs)|)
  {
    var data := EncM(rs);
    forall r | r in rs
      ensures Steps(data, MEnc(), ParsingM(data), ApplyM(), r)
    {
      MetadataSteps(data, r);
    }
    assert data[0..] == data;
    FoldDecodes(data, MEnc(), ParsingM(data), ApplyM(), 0, rs, NO_METADATA);
  }
}
