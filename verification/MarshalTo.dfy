/**
 * Marshalling in place: the size of a message is computed first, and its fields are then written into
 * a buffer of exactly that size (client/metastor/encoding/proto/metadata.pb.go).
 */
module MarshalTo {
  import opened Metatypes
  import opened Wire
  import opened Buffers
  import opened Codec
  import opened Marshal

  /** A tag of one byte, a length and a content. */
  function Nested(tag: Byte, bytes: Bytes): Bytes { [tag] + EncVar(|bytes|) + bytes }

  function OptBlob(tag: Byte, bytes: Bytes): Bytes { if bytes == [] then [] else Nested(tag, bytes) }

  function OptNumber(tag: Byte, value: int): Bytes { if value == 0 then [] else [tag] + EncVar(Unsigned(value)) }

  lemma ShortTag(num: nat, wireType: nat)
    requires num < 16 && wireType < 8
    ensures Tag(num, wireType) == [num * 8 + wireType]
  {
  }

  lemma BlobBytes(num: nat, bytes: Bytes)
    requires num < 16
    ensures EncField(Blb(num, bytes)) == Nested(num * 8 + 2, bytes)
  {
    ShortTag(num, 2);
  }

  lemma NumberBytes(num: nat, value: int)
    requires num < 16
    ensures EncField(Num(num, value)) == [num * 8] + EncVar(Unsigned(value))
  {
    ShortTag(num, 0);
  }

  // ---------------------------------------------------------------- layouts

  lemma CatOpt<R>(enc: R -> Bytes, present: bool, r: R)
    ensures Cat(enc, Opt(present, r)) == if present then enc(r) else []
  {
    if present {
      assert [r][1..] == [];
      assert Cat(enc, [r]) == enc(r) + Cat(enc, []);
    }
  }

  lemma {:induction false} MappedSnoc<X, R>(g: X -> R, xs: seq<X>, x: X)
    ensures Mapped(g, xs + [x]) == Mapped(g, xs) + [g(x)]
  {
    if xs == [] {
      assert [] + [x] == [x] && [x][1..] == [];
      assert Mapped(g, [x]) == [g(x)] + Mapped(g, []);
    } else {
      assert (xs + [x])[1..] == xs[1..] + [x];
      MappedSnoc(g, xs[1..], x);
    }
  }

  /** One more value adds one more encoding. */
  lemma MappedNext<X, R>(enc: R -> Bytes, g: X -> R, xs: seq<X>, k: nat)
    requires k < |xs|
    ensures Cat(enc, Mapped(g, xs[..k + 1])) == Cat(enc, Mapped(g, xs[..k])) + enc(g(xs[k]))
  {
    assert xs[..k + 1] == xs[..k] + [xs[k]];
    MappedSnoc(g, xs[..k], xs[k]);
    CatConcat(enc, Mapped(g, xs[..k]), [g(xs[k])]);
    CatOpt(enc, true, g(xs[k]));
    assert Opt(true, g(xs[k])) == [g(xs[k])];
  }

  /** A prefix of the values takes no more room than all of them. */
  lemma {:induction false} MappedPrefix<X, R>(enc: R -> Bytes, g: X -> R, xs: seq<X>, k: nat)
    requires k <= |xs|
    ensures |Cat(enc, Mapped(g, xs[..k]))| <= |Cat(enc, Mapped(g, xs))|
    decreases |xs| - k
  {
    if k < |xs| {
      MappedNext(enc, g, xs, k);
      MappedPrefix(enc, g, xs, k + 1);
    } else {
      assert xs[..k] == xs;
    }
  }

  lemma ObjectLayout(o: Object)
    ensures EncO(ORecs(o)) == OptBlob(0x0a, o.key) + OptBlob(0x12, o.shard)
  {
    BlobBytes(1, o.key);
    BlobBytes(2, o.shard);
    CatConcat(OEnc(), Opt(o.key != [], OKey(o.key)), Opt(o.shard != [], OShard(o.shard)));
    CatOpt(OEnc(), o.key != [], OKey(o.key));
    CatOpt(OEnc(), o.shard != [], OShard(o.shard));
  }

  lemma ChunkLayout(c: Chunk)
    ensures EncC(CRecs(c)) ==
            OptNumber(0x08, c.size) + EncC(ObjectRecs(c.objects)) + OptBlob(0x1a, c.hash)
  {
    NumberBytes(1, c.size);
    BlobBytes(3, c.hash);
    var a, b, d := Opt(c.size != 0, CSize(c.size)), ObjectRecs(c.objects), Opt(c.hash != [], CHash(c.hash));
    CatConcat(CEnc(), a + b, d);
    CatConcat(CEnc(), a, b);
    CatOpt(CEnc(), c.size != 0, CSize(c.size));
    CatOpt(CEnc(), c.hash != [], CHash(c.hash));
  }

  lemma KeyLayout(m: Metadata)
    ensures Cat(MEnc(), Opt(m.key != [], MKey(m.key))) == OptBlob(0x0a, m.key)
  {
    BlobBytes(1, m.key);
    CatOpt(MEnc(), m.key != [], MKey(m.key));
  }

  lemma SizeLayout(m: Metadata)
    ensures Cat(MEnc(), Opt(m.size != 0, MSize(m.size))) == OptNumber(0x10, m.size)
  {
    NumberBytes(2, m.size);
    CatOpt(MEnc(), m.size != 0, MSize(m.size));
  }

  lemma CreatedLayout(m: Metadata)
    ensures Cat(MEnc(), Opt(m.creationEpoch != 0, MCreated(m.creationEpoch))) == OptNumber(0x18, m.creationEpoch)
  {
    NumberBytes(3, m.creationEpoch);
    CatOpt(MEnc(), m.creationEpoch != 0, MCreated(m.creationEpoch));
  }

  lemma WrittenLayout(m: Metadata)
    ensures Cat(MEnc(), Opt(m.lastWriteEpoch != 0, MWritten(m.lastWriteEpoch))) == OptNumber(0x20, m.lastWriteEpoch)
  {
    NumberBytes(4, m.lastWriteEpoch);
    CatOpt(MEnc(), m.lastWriteEpoch != 0, MWritten(m.lastWriteEpoch));
  }

  lemma HeadLayout(m: Metadata)
    ensures EncM(HeadRecs(m)) ==
            OptBlob(0x0a, m.key) + OptNumber(0x10, m.size) + OptNumber(0x18, m.creationEpoch) +
            OptNumber(0x20, m.lastWriteEpoch)
  {
    var a, b := Opt(m.key != [], MKey(m.key)), Opt(m.size != 0, MSize(m.size));
    var c := Opt(m.creationEpoch != 0, MCreated(m.creationEpoch));
    var d := Opt(m.lastWriteEpoch != 0, MWritten(m.lastWriteEpoch));
    CatConcat(MEnc(), a + b + c, d);
    CatConcat(MEnc(), a + b, c);
    CatConcat(MEnc(), a, b);
    KeyLayout(m);
    SizeLayout(m);
    CreatedLayout(m);
    WrittenLayout(m);
  }

  lemma TailLayout(m: Metadata)
    ensures EncM(TailRecs(m)) ==
            OptBlob(0x32, m.previousKey) + OptBlob(0x3a, m.nextKey)
  {
    BlobBytes(6, m.previousKey);
    BlobBytes(7, m.nextKey);
    CatConcat(MEnc(), Opt(m.previousKey != [], MPrevious(m.previousKey)), Opt(m.nextKey != [], MNext(m.nextKey)));
    CatOpt(MEnc(), m.previousKey != [], MPrevious(m.previousKey));
    CatOpt(MEnc(), m.nextKey != [], MNext(m.nextKey));
  }

  lemma MetadataLayout(m: Metadata)
    ensures Marshalled(m) == EncM(HeadRecs(m)) + EncM(ChunkRecs(m.chunks)) + EncM(TailRecs(m))
  {
    CatConcat(MEnc(), HeadRecs(m) + ChunkRecs(m.chunks), TailRecs(m));
    CatConcat(MEnc(), HeadRecs(m), ChunkRecs(m.chunks));
  }

  function NestedObject(o: Object): Bytes { Nested(0x12, EncO(ORecs(o))) }

  lemma ObjectsNext(os: seq<Object>, k: nat)
    requires k < |os|
    ensures EncC(ObjectRecs(os[..k + 1])) == EncC(ObjectRecs(os[..k])) + NestedObject(os[k])
    ensures |EncC(ObjectRecs(os[..k + 1]))| <= |EncC(ObjectRecs(os))|
  {
    MappedNext(CEnc(), ObjectRec(), os, k);
    MappedPrefix(CEnc(), ObjectRec(), os, k + 1);
    BlobBytes(2, EncO(ORecs(os[k])));
  }

  function NestedChunk(chunk: Chunk): Bytes { Nested(0x2a, EncC(CRecs(chunk))) }

  lemma ChunksNext(cs: seq<Chunk>, k: nat)
    requires k < |cs|
    ensures EncM(ChunkRecs(cs[..k + 1])) == EncM(ChunkRecs(cs[..k])) + NestedChunk(cs[k])
    ensures |EncM(ChunkRecs(cs[..k + 1]))| <= |EncM(ChunkRecs(cs))|
  {
    MappedNext(MEnc(), ChunkRec(), cs, k);
    MappedPrefix(MEnc(), ChunkRec(), cs, k + 1);
    BlobBytes(5, EncC(CRecs(cs[k])));
  }

  // ---------------------------------------------------------------- sizes

  method BlobSize(tag: Byte, bytes: Bytes) returns (n: nat)
    ensures n == |OptBlob(tag, bytes)|
  {
    n := 0;
    if |bytes| > 0 {
      var l := VarintSize(|bytes|);
      n := 1 + |bytes| + l;
    }
  }

  method NumberSize(tag: Byte, value: int) returns (n: nat)
    ensures n == |OptNumber(tag, value)|
  {
    n := 0;
    if value != 0 {
      var l := VarintSize(Unsigned(value));
      n := 1 + l;
    }
  }

  method ObjectSize(o: Object) returns (n: nat)
    ensures n == |EncO(ORecs(o))|
  {
    ObjectLayout(o);
    var key := BlobSize(0x0a, o.key);
    var shard := BlobSize(0x12, o.shard);
    n := key + shard;
  }

  method ChunkSize(c: Chunk) returns (n: nat)
    ensures n == |EncC(CRecs(c))|
  {
    ChunkLayout(c);
    n := NumberSize(0x08, c.size);
    ghost var head := n;
    assert EncC(ObjectRecs(c.objects[..0])) == [];
    for k := 0 to |c.objects|
      invariant n == head + |EncC(ObjectRecs(c.objects[..k]))|
    {
      ObjectsNext(c.objects, k);
      var l := ObjectSize(c.objects[k]);
      var v := VarintSize(l);
      n := n + 1 + l + v;
    }
    assert c.objects[..|c.objects|] == c.objects;
    var hash := BlobSize(0x1a, c.hash);
    n := n + hash;
  }

  method HeadSize(m: Metadata) returns (n: nat)
    ensures n == |EncM(HeadRecs(m))|
  {
    HeadLayout(m);
    var key := BlobSize(0x0a, m.key);
    var size := NumberSize(0x10, m.size);
    var created := NumberSize(0x18, m.creationEpoch);
    var written := NumberSize(0x20, m.lastWriteEpoch);
    n := key + size + created + written;
  }

  /** Size() is the length of what Marshal writes. */
  method Size(m: Metadata) returns (n: nat)
    ensures n == |Marshalled(m)|
  {
    MetadataLayout(m);
    n := HeadSize(m);
    ghost var head := n;
    assert EncM(ChunkRecs(m.chunks[..0])) == [];
    for k := 0 to |m.chunks|
      invariant n == head + |EncM(ChunkRecs(m.chunks[..k]))|
    {
      ChunksNext(m.chunks, k);
      var l := ChunkSize(m.chunks[k]);
      var v := VarintSize(l);
      n := n + 1 + l + v;
    }
    assert m.chunks[..|m.chunks|] == m.chunks;
    TailLayout(m);
    var previous := BlobSize(0x32, m.previousKey);
    var next := BlobSize(0x3a, m.nextKey);
    n := n + previous + next;
  }

  // ---------------------------------------------------------------- writing

  /** A tag of one byte followed by a varint. */
  method PutHeader(c: Cursor, tag: Byte, v: nat)
    requires c.Valid() && |c.done| + 1 + |EncVar(v)| <= c.buf.Length
    modifies c`i, c`done, c.buf
    ensures c.Valid() && c.done == old(c.done) + ([tag] + EncVar(v))
  {
    Assoc(c.done, [tag], EncVar(v));
    c.PutByte(tag);
    c.PutVarint(v);
  }

  method PutNumber(c: Cursor, tag: Byte, value: int)
    requires c.Valid() && |c.done| + |OptNumber(tag, value)| <= c.buf.Length
    modifies c`i, c`done, c.buf
    ensures c.Valid() && c.done == old(c.done) + OptNumber(tag, value)
  {
    if value != 0 {
      PutHeader(c, tag, Unsigned(value));
    }
  }

  method PutBlob(c: Cursor, tag: Byte, bytes: Bytes)
    requires c.Valid() && |c.done| + |OptBlob(tag, bytes)| <= c.buf.Length
    modifies c`i, c`done, c.buf
    ensures c.Valid() && c.done == old(c.done) + OptBlob(tag, bytes)
  {
    if |bytes| > 0 {
      ghost var header := [tag] + EncVar(|bytes|);
      Assoc(c.done, header, bytes);
      PutHeader(c, tag, |bytes|);
      c.PutBytes(bytes);
    }
  }

  method PutObject(c: Cursor, o: Object)
    requires c.Valid() && |c.done| + |EncO(ORecs(o))| <= c.buf.Length
    modifies c`i, c`done, c.buf
    ensures c.Valid() && c.done == old(c.done) + EncO(ORecs(o))
  {
    ObjectLayout(o);
    Assoc(c.done, OptBlob(0x0a, o.key), OptBlob(0x12, o.shard));
    PutBlob(c, 0x0a, o.key);
    PutBlob(c, 0x12, o.shard);
  }

  /** An object inside a chunk. */
  method PutNestedObject(c: Cursor, o: Object)
    requires c.Valid() && |c.done| + |NestedObject(o)| <= c.buf.Length
    modifies c`i, c`done, c.buf
    ensures c.Valid() && c.done == old(c.done) + NestedObject(o)
  {
    ghost var bytes := EncO(ORecs(o));
    Assoc(c.done, [0x12] + EncVar(|bytes|), bytes);
    var size := ObjectSize(o);
    PutHeader(c, 0x12, size);
    PutObject(c, o);
  }

  method PutObjects(c: Cursor, os: seq<Object>)
    requires c.Valid() && |c.done| + |EncC(ObjectRecs(os))| <= c.buf.Length
    modifies c`i, c`done, c.buf
    ensures c.Valid() && c.done == old(c.done) + EncC(ObjectRecs(os))
  {
    assert EncC(ObjectRecs(os[..0])) == [];
    for k := 0 to |os|
      invariant c.Valid() && c.done == old(c.done) + EncC(ObjectRecs(os[..k]))
    {
      ObjectsNext(os, k);
      Assoc(old(c.done), EncC(ObjectRecs(os[..k])), NestedObject(os[k]));
      PutNestedObject(c, os[k]);
    }
    assert os[..|os|] == os;
  }

  method PutChunk(c: Cursor, chunk: Chunk)
    requires c.Valid() && |c.done| + |EncC(CRecs(chunk))| <= c.buf.Length
    modifies c`i, c`done, c.buf
    ensures c.Valid() && c.done == old(c.done) + EncC(CRecs(chunk))
  {
    ChunkLayout(chunk);
    ghost var size, objects, hash := OptNumber(0x08, chunk.size),
      EncC(ObjectRecs(chunk.objects)), OptBlob(0x1a, chunk.hash);
    Assoc(c.done, size, objects);
    Assoc(c.done, size + objects, hash);
    PutNumber(c, 0x08, chunk.size);
    PutObjects(c, chunk.objects);
    PutBlob(c, 0x1a, chunk.hash);
  }

  /** A chunk inside metadata. */
  method PutNestedChunk(c: Cursor, chunk: Chunk)
    requires c.Valid() && |c.done| + |NestedChunk(chunk)| <= c.buf.Length
    modifies c`i, c`done, c.buf
    ensures c.Valid() && c.done == old(c.done) + NestedChunk(chunk)
  {
    ghost var bytes := EncC(CRecs(chunk));
    ghost var header := [0x2a] + EncVar(|bytes|);
    Assoc(c.done, header, bytes);
    var size := ChunkSize(chunk);
    PutHeader(c, 0x2a, size);
    PutChunk(c, chunk);
  }

  method PutChunks(c: Cursor, cs: seq<Chunk>)
    requires c.Valid() && |c.done| + |EncM(ChunkRecs(cs))| <= c.buf.Length
    modifies c`i, c`done, c.buf
    ensures c.Valid() && c.done == old(c.done) + EncM(ChunkRecs(cs))
  {
    assert EncM(ChunkRecs(cs[..0])) == [];
    for k := 0 to |cs|
      invariant c.Valid() && c.done == old(c.done) + EncM(ChunkRecs(cs[..k]))
    {
      ChunksNext(cs, k);
      Assoc(old(c.done), EncM(ChunkRecs(cs[..k])), NestedChunk(cs[k]));
      PutNestedChunk(c, cs[k]);
    }
    assert cs[..|cs|] == cs;
  }

  method PutHead(c: Cursor, m: Metadata)
    requires c.Valid() && |c.done| + |EncM(HeadRecs(m))| <= c.buf.Length
    modifies c`i, c`done, c.buf
    ensures c.Valid() && c.done == old(c.done) + EncM(HeadRecs(m))
  {
    HeadLayout(m);
    ghost var key, size := OptBlob(0x0a, m.key), OptNumber(0x10, m.size);
    ghost var created, written :=
      OptNumber(0x18, m.creationEpoch), OptNumber(0x20, m.lastWriteEpoch);
    Assoc(c.done, key, size);
    Assoc(c.done, key + size, created);
    Assoc(c.done, key + size + created, written);
    PutBlob(c, 0x0a, m.key);
    PutNumber(c, 0x10, m.size);
    PutNumber(c, 0x18, m.creationEpoch);
    PutNumber(c, 0x20, m.lastWriteEpoch);
  }

  method PutTail(c: Cursor, m: Metadata)
    requires c.Valid() && |c.done| + |EncM(TailRecs(m))| <= c.buf.Length
    modifies c`i, c`done, c.buf
    ensures c.Valid() && c.done == old(c.done) + EncM(TailRecs(m))
  {
    TailLayout(m);
    Assoc(c.done, OptBlob(0x32, m.previousKey), OptBlob(0x3a, m.nextKey));
    PutBlob(c, 0x32, m.previousKey);
    PutBlob(c, 0x3a, m.nextKey);
  }

  method PutMetadata(c: Cursor, m: Metadata)
    requires c.Valid() && |c.done| + |Marshalled(m)| <= c.buf.Length
    modifies c`i, c`done, c.buf
    ensures c.Valid() && c.done == old(c.done) + Marshalled(m)
  {
    MetadataLayout(m);
    ghost var head, chunks, tail := EncM(HeadRecs(m)), EncM(ChunkRecs(m.chunks)), EncM(TailRecs(m));
    Assoc(c.done, head, chunks);
    Assoc(c.done, head + chunks, tail);
    PutHead(c, m);
    PutChunks(c, m.chunks);
    PutTail(c, m);
  }

  /** MarshalTo writes exactly Size() bytes, never outside the buffer, and leaves the rest alone. */
  method MarshalInto(buf: array<Byte>, m: Metadata) returns (n: nat)
    requires |Marshalled(m)| <= buf.Length
    modifies buf
    ensures n == |Marshalled(m)| && buf[..n] == Marshalled(m) && buf[n..] == old(buf[n..])
  {
    var c := new Cursor(buf);
    PutMetadata(c, m);
    n := c.i;
  }

  /** A fresh buffer of Size() bytes is filled to the last byte. */
  method MarshalMetadata(m: Metadata) returns (data: Bytes)
    ensures data == Marshalled(m)
  {
    var size := Size(m);
    var buf := new Byte[size](_ => 0);
    var n := MarshalInto(buf, m);
    data := buf[..n];
  }
}
