/**
 * Marshalling metadata (client/metastor/encoding/proto/metadata.pb.go), and the conversion around it
 * (client/metastor/encoding/proto/proto.go).
 */
module Marshal {
  import opened Metatypes
  import opened Wire
  import opened Codec

  // ---------------------------------------------------------------- what is written

  /** Empty fields are left out. */
  function Opt<R>(present: bool, r: R): seq<R> { if present then [r] else [] }

  function ORecs(o: Object): seq<ORec> {
    Opt(o.key != [], OKey(o.key)) + Opt(o.shard != [], OShard(o.shard))
  }

  function Mapped<X, R>(g: X -> R, xs: seq<X>): seq<R> {
    if xs == [] then [] else [g(xs[0])] + Mapped(g, xs[1..])
  }

  function ObjectRec(): Object -> CRec { (o: Object) => CObject(ORecs(o)) }

  function ObjectRecs(os: seq<Object>): seq<CRec> { Mapped(ObjectRec(), os) }

  function CRecs(c: Chunk): seq<CRec> {
    Opt(c.size != 0, CSize(c.size)) + ObjectRecs(c.objects) + Opt(c.hash != [], CHash(c.hash))
  }

  function ChunkRec(): Chunk -> MRec { (c: Chunk) => MChunk(CRecs(c)) }

  function ChunkRecs(cs: seq<Chunk>): seq<MRec> { Mapped(ChunkRec(), cs) }

  function HeadRecs(m: Metadata): seq<MRec> {
    Opt(m.key != [], MKey(m.key)) + Opt(m.size != 0, MSize(m.size)) +
    Opt(m.creationEpoch != 0, MCreated(m.creationEpoch)) + Opt(m.lastWriteEpoch != 0, MWritten(m.lastWriteEpoch))
  }

  function TailRecs(m: Metadata): seq<MRec> {
    Opt(m.previousKey != [], MPrevious(m.previousKey)) + Opt(m.nextKey != [], MNext(m.nextKey))
  }

  function MRecs(m: Metadata): seq<MRec> { HeadRecs(m) + ChunkRecs(m.chunks) + TailRecs(m) }

  function Marshalled(m: Metadata): Bytes { EncM(MRecs(m)) }

  // ---------------------------------------------------------------- the meaning of what is written

  lemma FoldOpt<A, R>(f: (A, R) -> A, present: bool, r: R, a: A)
    ensures Fold(f, Opt(present, r), a) == if present then f(a, r) else a
  {
    if present {
      assert [r][1..] == [];
      assert Fold(f, [r], a) == Fold(f, [], f(a, r));
    }
  }

  lemma {:induction false} FoldCons<A, R>(f: (A, R) -> A, r: R, rs: seq<R>, a: A)
    ensures Fold(f, [r] + rs, a) == Fold(f, rs, f(a, r))
  {
    assert ([r] + rs)[1..] == rs;
  }

  lemma ObjectMeaning(o: Object)
    ensures Fold(ApplyO(), ORecs(o), NO_OBJECT) == o
  {
    var keys, shards := Opt(o.key != [], OKey(o.key)), Opt(o.shard != [], OShard(o.shard));
    FoldConcat(ApplyO(), keys, shards, NO_OBJECT);
    FoldOpt(ApplyO(), o.key != [], OKey(o.key), NO_OBJECT);
    FoldOpt(ApplyO(), o.shard != [], OShard(o.shard), Object(o.key, []));
  }

  /** Records that each append one value append all of them. */
  lemma {:induction false} FoldGather<A(!new), X(!new), R>(
    f: (A, R) -> A, g: X -> R, put: (A, seq<X>) -> A, xs: seq<X>, a: A)
    requires forall b: A, x: X :: f(b, g(x)) == put(b, [x])
    requires forall b: A, x: X, ys: seq<X> :: put(put(b, [x]), ys) == put(b, [x] + ys)
    requires forall b: A :: put(b, []) == b
    ensures Fold(f, Mapped(g, xs), a) == put(a, xs)
    decreases |xs|
  {
    if xs != [] {
      FoldCons(f, g(xs[0]), Mapped(g, xs[1..]), a);
      FoldGather(f, g, put, xs[1..], put(a, [xs[0]]));
      assert [xs[0]] + xs[1..] == xs;
    }
  }

  function PutObjects(): (Chunk, seq<Object>) -> Chunk {
    (c: Chunk, os: seq<Object>) => c.(objects := c.objects + os)
  }

  lemma {:induction false} ObjectsMeaning(os: seq<Object>, c: Chunk)
    ensures Fold(ApplyC(), ObjectRecs(os), c) == c.(objects := c.objects + os)
  {
    forall d: Chunk, o: Object
      ensures ApplyC()(d, ObjectRec()(o)) == PutObjects()(d, [o])
    {
      ObjectMeaning(o);
    }
    forall d: Chunk, o: Object, rest: seq<Object>
      ensures PutObjects()(PutObjects()(d, [o]), rest) == PutObjects()(d, [o] + rest)
    {
      assert d.objects + [o] + rest == d.objects + ([o] + rest);
    }
    assert forall d: Chunk :: PutObjects()(d, []) == d;
    FoldGather(ApplyC(), ObjectRec(), PutObjects(), os, c);
  }

  lemma ChunkMeaning(c: Chunk)
    ensures Fold(ApplyC(), CRecs(c), NO_CHUNK) == c
  {
    var sizes, hashes := Opt(c.size != 0, CSize(c.size)), Opt(c.hash != [], CHash(c.hash));
    var objects := ObjectRecs(c.objects);
    FoldConcat(ApplyC(), sizes + objects, hashes, NO_CHUNK);
    FoldConcat(ApplyC(), sizes, objects, NO_CHUNK);
    FoldOpt(ApplyC(), c.size != 0, CSize(c.size), NO_CHUNK);
    ObjectsMeaning(c.objects, Chunk(c.size, [], []));
    FoldOpt(ApplyC(), c.hash != [], CHash(c.hash), Chunk(c.size, c.objects, []));
  }

  function PutChunks(): (Metadata, seq<Chunk>) -> Metadata {
    (m: Metadata, cs: seq<Chunk>) => m.(chunks := m.chunks + cs)
  }

  lemma {:induction false} ChunksMeaning(cs: seq<Chunk>, m: Metadata)
    ensures Fold(ApplyM(), ChunkRecs(cs), m) == m.(chunks := m.chunks + cs)
  {
    forall l: Metadata, c: Chunk
      ensures ApplyM()(l, ChunkRec()(c)) == PutChunks()(l, [c])
    {
      ChunkMeaning(c);
    }
    forall l: Metadata, c: Chunk, rest: seq<Chunk>
      ensures PutChunks()(PutChunks()(l, [c]), rest) == PutChunks()(l, [c] + rest)
    {
      assert l.chunks + [c] + rest == l.chunks + ([c] + rest);
    }
    assert forall l: Metadata :: PutChunks()(l, []) == l;
    FoldGather(ApplyM(), ChunkRec(), PutChunks(), cs, m);
  }

  lemma HeadMeaning(m: Metadata)
    ensures Fold(ApplyM(), HeadRecs(m), NO_METADATA) ==
            Metadata(m.key, m.size, m.creationEpoch, m.lastWriteEpoch, [], [], [])
  {
    var a, b := Opt(m.key != [], MKey(m.key)), Opt(m.size != 0, MSize(m.size));
    var c := Opt(m.creationEpoch != 0, MCreated(m.creationEpoch));
    var d := Opt(m.lastWriteEpoch != 0, MWritten(m.lastWriteEpoch));
    FoldConcat(ApplyM(), a + b + c, d, NO_METADATA);
    FoldConcat(ApplyM(), a + b, c, NO_METADATA);
    FoldConcat(ApplyM(), a, b, NO_METADATA);
    FoldOpt(ApplyM(), m.key != [], MKey(m.key), NO_METADATA);
    FoldOpt(ApplyM(), m.size != 0, MSize(m.size), Metadata(m.key, 0, 0, 0, [], [], []));
    FoldOpt(ApplyM(), m.creationEpoch != 0, MCreated(m.creationEpoch), Metadata(m.key, m.size, 0, 0, [], [], []));
    FoldOpt(ApplyM(), m.lastWriteEpoch != 0, MWritten(m.lastWriteEpoch),
            Metadata(m.key, m.size, m.creationEpoch, 0, [], [], []));
  }

  lemma {:induction false} TailMeaning(m: Metadata, l: Metadata)
    requires l == m.(previousKey := [], nextKey := [])
    ensures Fold(ApplyM(), TailRecs(m), l) == m
  {
    var a, b := Opt(m.previousKey != [], MPrevious(m.previousKey)), Opt(m.nextKey != [], MNext(m.nextKey));
    FoldConcat(ApplyM(), a, b, l);
    FoldOpt(ApplyM(), m.previousKey != [], MPrevious(m.previousKey), l);
    FoldOpt(ApplyM(), m.nextKey != [], MNext(m.nextKey), m.(nextKey := []));
  }

  /** The records that are written for m mean m. */
  lemma MetadataMeaning(m: Metadata)
    ensures Meaning(MRecs(m)) == m
  {
    var l := Metadata(m.key, m.size, m.creationEpoch, m.lastWriteEpoch, [], [], []);
    FoldConcat(ApplyM(), HeadRecs(m) + ChunkRecs(m.chunks), TailRecs(m), NO_METADATA);
    FoldConcat(ApplyM(), HeadRecs(m), ChunkRecs(m.chunks), NO_METADATA);
    HeadMeaning(m);
    ChunksMeaning(m.chunks, l);
    assert [] + m.chunks == m.chunks;
    TailMeaning(m, l.(chunks := m.chunks));
  }

  // ---------------------------------------------------------------- what is written fits

  /** A value of a Go int64. */
  predicate Int64(x: int) { -TWO63 <= x < TWO63 }

  /** Metadata as Go can hold it: numbers of 64 bits, and few enough bytes to index. */
  predicate Storable(m: Metadata) {
    && Int64(m.size) && Int64(m.creationEpoch) && Int64(m.lastWriteEpoch)
    && (forall i :: 0 <= i < |m.chunks| ==> Int64(m.chunks[i].size))
    && |Marshalled(m)| < TWO63
  }

  lemma {:induction false} CatMember<R>(enc: R -> Bytes, rs: seq<R>, r: R)
    requires r in rs
    ensures |enc(r)| <= |Cat(enc, rs)|
  {
    if rs[0] != r {
      CatMember(enc, rs[1..], r);
    }
  }

  /** A blob is shorter than the field that holds it. */
  lemma BlobShorter(f: Field)
    requires f.Blb?
    ensures |f.bytes| <= |EncField(f)|
  {
  }

  lemma ObjectFits(o: Object)
    requires |EncO(ORecs(o))| < TWO63
    ensures FitsO(ORecs(o))
  {
    forall r | r in ORecs(o)
      ensures Fits(ObjectMessage, OField(r))
    {
      CatMember(OEnc(), ORecs(o), r);
      BlobShorter(OField(r));
    }
  }

  lemma {:induction false} MappedMember<X, R>(g: X -> R, xs: seq<X>, r: R)
    requires r in Mapped(g, xs)
    ensures exists i :: 0 <= i < |xs| && r == g(xs[i])
  {
    if r != g(xs[0]) {
      MappedMember(g, xs[1..], r);
      var i :| 0 <= i < |xs[1..]| && r == g(xs[1..][i]);
      assert xs[i + 1] == xs[1..][i];
    }
  }

  lemma ChunkRecFits(c: Chunk, r: CRec)
    requires r in CRecs(c) && |EncField(CField(r))| < TWO63 && Int64(c.size)
    ensures FitsCRec(r)
  {
    if r in ObjectRecs(c.objects) {
      MappedMember(ObjectRec(), c.objects, r);
      var i :| 0 <= i < |c.objects| && r == ObjectRec()(c.objects[i]);
      BlobShorter(CField(r));
      ObjectFits(c.objects[i]);
    } else if r.CHash? {
      BlobShorter(CField(r));
    }
  }

  lemma ChunkFits(c: Chunk)
    requires |EncC(CRecs(c))| < TWO63 && Int64(c.size)
    ensures FitsC(CRecs(c))
  {
    forall r | r in CRecs(c)
      ensures FitsCRec(r)
    {
      CatMember(CEnc(), CRecs(c), r);
      ChunkRecFits(c, r);
    }
  }

  lemma HeadRecFits(m: Metadata, r: MRec)
    requires r in HeadRecs(m) && |EncField(MField(r))| < TWO63
    requires Int64(m.size) && Int64(m.creationEpoch) && Int64(m.lastWriteEpoch)
    ensures FitsMRec(r)
  {
    if r.MKey? {
      BlobShorter(MField(r));
    }
  }

  lemma TailRecFits(m: Metadata, r: MRec)
    requires r in TailRecs(m) && |EncField(MField(r))| < TWO63
    ensures FitsMRec(r)
  {
    BlobShorter(MField(r));
  }

  lemma ChunkRecsFit(cs: seq<Chunk>, r: MRec)
    requires r in ChunkRecs(cs) && |EncField(MField(r))| < TWO63
    requires forall i :: 0 <= i < |cs| ==> Int64(cs[i].size)
    ensures FitsMRec(r)
  {
    MappedMember(ChunkRec(), cs, r);
    var i :| 0 <= i < |cs| && r == ChunkRec()(cs[i]);
    BlobShorter(MField(r));
    ChunkFits(cs[i]);
  }

  lemma MetadataFits(m: Metadata)
    requires Storable(m)
    ensures FitsM(MRecs(m))
  {
    forall r | r in MRecs(m)
      ensures FitsMRec(r)
    {
      CatMember(MEnc(), MRecs(m), r);
      if r in HeadRecs(m) {
        HeadRecFits(m, r);
      } else if r in TailRecs(m) {
        TailRecFits(m, r);
      } else {
        ChunkRecsFit(m.chunks, r);
      }
    }
  }

  // ---------------------------------------------------------------- main results

  /** Unmarshalling inverts marshalling, for all metadata. */
  lemma RoundTrip(m: Metadata)
    requires Storable(m)
    ensures Unmarshalled(Marshalled(m)) == Ok(m, |Marshalled(m)|)
  {
    MetadataFits(m);
    MetadataMeaning(m);
    DecodeFindsMeaning(MRecs(m));
  }

  /** The records without the unknown ones, at every level. */
  function StripO(rs: seq<ORec>): seq<ORec> {
    if rs == [] then [] else Opt(!rs[0].OOther?, rs[0]) + StripO(rs[1..])
  }

  function StripC(rs: seq<CRec>): seq<CRec> {
    if rs == [] then []
    else Opt(!rs[0].COther?, if rs[0].CObject? then CObject(StripO(rs[0].parts)) else rs[0]) + StripC(rs[1..])
  }

  function StripM(rs: seq<MRec>): seq<MRec> {
    if rs == [] then []
    else Opt(!rs[0].MOther?, if rs[0].MChunk? then MChunk(StripC(rs[0].chunk)) else rs[0]) + StripM(rs[1..])
  }

  lemma {:induction false} StripOMeans(rs: seq<ORec>, o: Object)
    ensures Fold(ApplyO(), StripO(rs), o) == Fold(ApplyO(), rs, o)
    decreases |rs|
  {
    if rs != [] {
      FoldConcat(ApplyO(), Opt(!rs[0].OOther?, rs[0]), StripO(rs[1..]), o);
      FoldOpt(ApplyO(), !rs[0].OOther?, rs[0], o);
      StripOMeans(rs[1..], ApplyO()(o, rs[0]));
    }
  }

  lemma {:induction false} StripCMeans(rs: seq<CRec>, c: Chunk)
    ensures Fold(ApplyC(), StripC(rs), c) == Fold(ApplyC(), rs, c)
    decreases |rs|
  {
    if rs != [] {
      var r := if rs[0].CObject? then CObject(StripO(rs[0].parts)) else rs[0];
      FoldConcat(ApplyC(), Opt(!rs[0].COther?, r), StripC(rs[1..]), c);
      FoldOpt(ApplyC(), !rs[0].COther?, r, c);
      if rs[0].CObject? {
        StripOMeans(rs[0].parts, NO_OBJECT);
      }
      StripCMeans(rs[1..], ApplyC()(c, rs[0]));
    }
  }

  lemma {:induction false} StripMMeans(rs: seq<MRec>, m: Metadata)
    ensures Fold(ApplyM(), StripM(rs), m) == Fold(ApplyM(), rs, m)
    decreases |rs|
  {
    if rs != [] {
      var r := if rs[0].MChunk? then MChunk(StripC(rs[0].chunk)) else rs[0];
      FoldConcat(ApplyM(), Opt(!rs[0].MOther?, r), StripM(rs[1..]), m);
      FoldOpt(ApplyM(), !rs[0].MOther?, r, m);
      if rs[0].MChunk? {
        StripCMeans(rs[0].chunk, NO_CHUNK);
      }
      StripMMeans(rs[1..], ApplyM()(m, rs[0]));
    }
  }

  /**
   * Unknown fields of any wire type, at any field boundary of any message and in any number, groups
   * nested to any depth among them, do not change what is decoded.
   */
  lemma {:induction false} UnknownFieldsIgnored(m: Metadata, rs: seq<MRec>)
    requires FitsM(rs) && StripM(rs) == MRecs(m)
    ensures Unmarshalled(EncM(rs)) == Ok(m, |EncM(rs)|)
  {
    DecodeFindsMeaning(rs);
    StripMMeans(rs, NO_METADATA);
    MetadataMeaning(m);
  }

  // ---------------------------------------------------------------- the conversion

  /** UnmarshalMetadata stores into existing metadata, and leaves its chunks alone when it decoded none. */
  function UnmarshalInto(data: Bytes, md: Metadata): Parse<Metadata> {
    match Unmarshalled(data)
    case Bad(e) => Bad(e)
    case Ok(s, n) => Ok(if s.chunks == [] then s.(chunks := md.chunks) else s, n)
  }

  /** The round trip into metadata that is not fresh holds exactly if no old chunks shine through. */
  lemma RoundTripInto(m: Metadata, md: Metadata)
    requires Storable(m)
    ensures UnmarshalInto(Marshalled(m), md) == Ok(m, |Marshalled(m)|) <==> m.chunks != [] || md.chunks == []
  {
    RoundTrip(m);
  }
}
