/**
 * Which bytes the parsers of client/metastor/encoding/proto/metadata.pb.go accept, and what they make of
 * them. The grammar says where a varint, a field and a message begin and end without saying how they are
 * found; varints need not be as short as they could be.
 */
module Grammar {
  import opened Metatypes
  import opened Wire
  import opened Codec
  import Marshal

  // ---------------------------------------------------------------- varints

  /** From i to n: bytes that announce another one, and a last byte that does not. */
  ghost predicate VarSpan(data: Bytes, i: nat, n: nat) {
    i < n <= |data| && data[n - 1] < 128 && forall k :: i <= k < n - 1 ==> data[k] >= 128
  }

  /** Seven bits of each byte, the lowest first. */
  function VarSum(data: Bytes, i: nat, n: nat): nat
    requires i < n <= |data|
    decreases n - i
  {
    data[i] % 128 + if i + 1 == n then 0 else 128 * VarSum(data, i + 1, n)
  }

  ghost predicate VarAt(data: Bytes, i: nat, n: nat) { VarSpan(data, i, n) && n - i <= 10 }

  function VarValue(data: Bytes, i: nat, n: nat): (v: nat)
    requires i < n <= |data|
    ensures v < TWO64
  {
    VarSum(data, i, n) % TWO64
  }

  lemma ModDigits(acc: nat, unit: nat, digit: nat, rest: nat)
    ensures ((acc + unit * digit) % TWO64 + unit * 128 * rest) % TWO64 == (acc + unit * (digit + 128 * rest)) % TWO64
  {
    assert unit * (digit + 128 * rest) == unit * digit + unit * 128 * rest;
    var x, y := acc + unit * digit, unit * 128 * rest;
    assert x == x / TWO64 * TWO64 + x % TWO64;
    ModDrop(x / TWO64, x % TWO64 + y);
  }

  lemma ModDrop(q: nat, x: nat)
    ensures (q * TWO64 + x) % TWO64 == x % TWO64
  {
  }

  lemma {:induction false} ReadFromSound(data: Bytes, i: nat, k: nat, unit: nat, acc: nat)
    requires k <= 10 && ReadFrom(data, i, k, unit, acc).Ok?
    ensures
      var Ok(v, n) := ReadFrom(data, i, k, unit, acc);
      VarSpan(data, i, n) && n - i <= 10 - k && v == (acc + unit * VarSum(data, i, n)) % TWO64
    decreases 10 - k
  {
    if data[i] >= 128 {
      var sum := (acc + unit * (data[i] % 128)) % TWO64;
      ReadFromSound(data, i + 1, k + 1, unit * 128, sum);
      var n := ReadFrom(data, i, k, unit, acc).next;
      ModDigits(acc, unit, data[i] % 128, VarSum(data, i + 1, n));
    }
  }

  lemma {:induction false} ReadFromComplete(data: Bytes, i: nat, k: nat, unit: nat, acc: nat, n: nat)
    requires VarSpan(data, i, n) && n - i <= 10 - k
    ensures ReadFrom(data, i, k, unit, acc).Ok? && ReadFrom(data, i, k, unit, acc).next == n
    decreases n - i
  {
    if i + 1 < n {
      ReadFromComplete(data, i + 1, k + 1, unit * 128, (acc + unit * (data[i] % 128)) % TWO64, n);
    }
  }

  lemma {:induction false} ReadFromBad(data: Bytes, i: nat, k: nat, unit: nat, acc: nat)
    requires k <= 10 && i <= |data| && ReadFrom(data, i, k, unit, acc).Bad?
    ensures
      var end := i + 10 - k;
      && (forall j :: i <= j < |data| && j < end ==> data[j] >= 128)
      && ReadFrom(data, i, k, unit, acc).error == if end <= |data| then IntOverflow else UnexpectedEnd
    decreases 10 - k
  {
    if k < 10 && i < |data| {
      ReadFromBad(data, i + 1, k + 1, unit * 128, (acc + unit * (data[i] % 128)) % TWO64);
    }
  }

  /**
   * Reading a varint finds the one that is there, whatever its length, and fails exactly if none of the next
   * ten bytes ends one: for want of bytes, or because there are too many.
   */
  lemma {:induction false} VarExact(data: Bytes, i: nat, n: nat)
    ensures VarAt(data, i, n) <==> ReadVar(data, i).Ok? && ReadVar(data, i).next == n
    ensures VarAt(data, i, n) ==> ReadVar(data, i).value == VarValue(data, i, n)
    ensures i <= |data| && ReadVar(data, i).Bad? ==>
      ReadVar(data, i).error == if i + 10 <= |data| then IntOverflow else UnexpectedEnd
  {
    if VarAt(data, i, n) {
      ReadFromComplete(data, i, 0, 1, 0, n);
    }
    if ReadVar(data, i).Ok? {
      ReadFromSound(data, i, 0, 1, 0);
    } else if i <= |data| {
      ReadFromBad(data, i, 0, 1, 0);
    }
  }

  // ---------------------------------------------------------------- fields of any message

  function WireAt(data: Bytes, i: nat, n: nat): nat
    requires i < n <= |data|
  {
    VarValue(data, i, n) % 8
  }

  /** From j to l the length of what stands from l to n. */
  ghost predicate LengthAt(data: Bytes, j: nat, l: nat, n: nat) {
    VarAt(data, j, l) && l <= n <= |data| && Signed(VarValue(data, j, l)) == n - l
  }

  /** From j to n the payload of a field with this wire type. */
  ghost predicate PayloadAt(data: Bytes, wireType: nat, j: nat, n: nat)
    decreases if n > j then n - j else 0, 1
  {
    n <= |data| &&
    match wireType
    case 0 => VarAt(data, j, n)
    case 1 => n == j + 8
    case 2 => exists l :: LengthAt(data, j, l, n)
    case 3 => GroupAt(data, j, n)
    case 5 => n == j + 4
    case _ => false
  }

  /** From j to n the fields of a group and its end tag. */
  ghost predicate GroupAt(data: Bytes, j: nat, n: nat)
    decreases if n > j then n - j else 0, 0
  {
    j < n <= |data| &&
    exists e: nat ::
      && VarAt(data, j, e) && e <= n
      && if WireAt(data, j, e) == 4 then n == e
         else exists m: nat :: e <= m < n && PayloadAt(data, WireAt(data, j, e), e, m) && GroupAt(data, m, n)
  }

  lemma {:induction false} SkipSound(data: Bytes, i: nat, e: nat)
    requires i < |data| && Skip(data, i).Ok? && Skip(data, i).next <= |data| && VarAt(data, i, e)
    requires WireAt(data, i, e) != 4
    ensures PayloadAt(data, WireAt(data, i, e), e, Skip(data, i).next)
    decreases |data| - i, 0
  {
    var wireType, n := WireAt(data, i, e), Skip(data, i).next;
    VarExact(data, i, e);
    if wireType == 0 {
      VarExact(data, e, n);
    } else if wireType == 2 {
      var l := ReadVar(data, e).next;
      VarExact(data, e, l);
      assert LengthAt(data, e, l, n);
    } else if wireType == 3 {
      SkipGroupSound(data, e);
    }
  }

  lemma {:induction false} SkipGroupSound(data: Bytes, j: nat)
    requires SkipGroup(data, j).Ok? && SkipGroup(data, j).next <= |data|
    ensures GroupAt(data, j, SkipGroup(data, j).next)
    decreases |data| - j, 1
  {
    var e, n := ReadVar(data, j).next, SkipGroup(data, j).next;
    VarExact(data, j, e);
    if WireAt(data, j, e) != 4 {
      var m := Skip(data, j).next;
      SkipSound(data, j, e);
      SkipGroupSound(data, m);
      assert e <= m < n && PayloadAt(data, WireAt(data, j, e), e, m) && GroupAt(data, m, n);
    }
  }

  lemma {:induction false} SkipComplete(data: Bytes, i: nat, e: nat, n: nat)
    requires i < |data| && VarAt(data, i, e) && PayloadAt(data, WireAt(data, i, e), e, n)
    ensures Skip(data, i) == Ok((), n)
    decreases if n > e then n - e else 0, 1
  {
    var wireType := WireAt(data, i, e);
    VarExact(data, i, e);
    match wireType
    case 0 => VarExact(data, e, n);
    case 2 =>
      var l :| LengthAt(data, e, l, n);
      VarExact(data, e, l);
    case 3 => SkipGroupComplete(data, e, n);
    case _ =>
  }

  lemma {:induction false} SkipGroupComplete(data: Bytes, j: nat, n: nat)
    requires GroupAt(data, j, n)
    ensures SkipGroup(data, j) == Ok((), n)
    decreases if n > j then n - j else 0, 0
  {
    var e: nat :|
      && VarAt(data, j, e) && e <= n
      && if WireAt(data, j, e) == 4 then n == e
         else exists m: nat :: e <= m < n && PayloadAt(data, WireAt(data, j, e), e, m) && GroupAt(data, m, n);
    VarExact(data, j, e);
    if WireAt(data, j, e) != 4 {
      var m: nat :| e <= m < n && PayloadAt(data, WireAt(data, j, e), e, m) && GroupAt(data, m, n);
      SkipComplete(data, j, e, m);
      SkipGroupComplete(data, m, n);
    }
  }

  // ---------------------------------------------------------------- fields of a message

  /** From i to n a field of this message, which turns out to be f. */
  ghost predicate FieldAt(msg: Message, data: Bytes, i: nat, n: nat, f: Found) {
    i < n <= |data| &&
    exists e: nat :: VarAt(data, i, e) && e <= n && FieldFrom(msg, data, i, e, n, f)
  }

  /** Its tag ends at e. */
  ghost predicate FieldFrom(msg: Message, data: Bytes, i: nat, e: nat, n: nat, f: Found)
    requires i < e <= n <= |data|
  {
    var num, wireType := Signed32(VarValue(data, i, e) / 8), WireAt(data, i, e);
    wireType != 4 && num > 0 && PayloadAt(data, wireType, e, n) &&
    match KindOf(msg, num)
    case Number => wireType == 0 && f == FoundNumber(num, Signed(VarValue(data, e, n)))
    case Blob => wireType == 2 && exists l: nat :: LengthAt(data, e, l, n) && f == FoundBlob(num, data[l..n])
    case Foreign => f == Ignored
  }

  /** The parsers read exactly the fields that are there. */
  lemma {:induction false} FieldExact(msg: Message, data: Bytes, i: nat, n: nat, f: Found)
    requires i < |data|
    ensures FieldAt(msg, data, i, n, f) <==> ReadField(msg, data, i) == Ok(f, n)
  {
    if FieldAt(msg, data, i, n, f) {
      var e: nat :| VarAt(data, i, e) && e <= n && FieldFrom(msg, data, i, e, n, f);
      FieldComplete(msg, data, i, e, n, f);
    }
    if ReadField(msg, data, i) == Ok(f, n) {
      FieldSound(msg, data, i, n, f);
    }
  }

  lemma {:induction false} FieldComplete(msg: Message, data: Bytes, i: nat, e: nat, n: nat, f: Found)
    requires VarAt(data, i, e) && e <= n <= |data| && FieldFrom(msg, data, i, e, n, f)
    ensures ReadField(msg, data, i) == Ok(f, n)
  {
    VarExact(data, i, e);
    match KindOf(msg, Signed32(VarValue(data, i, e) / 8))
    case Number => VarExact(data, e, n);
    case Blob =>
      var l: nat :| LengthAt(data, e, l, n) && f.bytes == data[l..n];
      VarExact(data, e, l);
    case Foreign => SkipComplete(data, i, e, n);
  }

  lemma {:induction false} FieldSound(msg: Message, data: Bytes, i: nat, n: nat, f: Found)
    requires i < |data| && ReadField(msg, data, i) == Ok(f, n)
    ensures FieldAt(msg, data, i, n, f)
  {
    var e := ReadVar(data, i).next;
    VarExact(data, i, e);
    match KindOf(msg, Signed32(VarValue(data, i, e) / 8))
    case Number => VarExact(data, e, n);
    case Blob =>
      var l := ReadVar(data, e).next;
      VarExact(data, e, l);
      assert LengthAt(data, e, l, n);
    case Foreign => SkipSound(data, i, e);
  }

  /** From i on, data is these fields and nothing else. */
  ghost predicate FieldsAt(msg: Message, data: Bytes, i: nat, found: seq<Found>)
    decreases |found|
  {
    if found == [] then i == |data|
    else exists n: nat :: FieldAt(msg, data, i, n, found[0]) && FieldsAt(msg, data, n, found[1..])
  }

  // ---------------------------------------------------------------- messages

  /** Storing the fields one after the other leads from a to b. */
  ghost predicate Builds<A(!new)>(stores: (A, Found, A) -> bool, found: seq<Found>, a: A, b: A)
    decreases |found|
  {
    if found == [] then a == b else exists c: A :: stores(a, found[0], c) && Builds(stores, found[1..], c, b)
  }

  /** From i on, data is a sequence of fields that leads from a to b. */
  ghost predicate Spells<A(!new)>(msg: Message, data: Bytes, i: nat, stores: (A, Found, A) -> bool, a: A, b: A) {
    exists found :: FieldsAt(msg, data, i, found) && Builds(stores, found, a, b)
  }

  /** The loop of the three parsers, for any way of storing fields. */
  function ParseBy<A>(msg: Message, data: Bytes, store: (A, Found) -> Parse<A>, i: nat, a: A): Parse<A>
    decreases |data| - i
  {
    if i >= |data| then Ok(a, i)
    else
      match ReadField(msg, data, i)
      case Bad(e) => Bad(e)
      case Ok(f, n) =>
        match store(a, f)
        case Bad(e) => Bad(e)
        case Ok(b, _) => ParseBy(msg, data, store, n, b)
  }

  ghost predicate Agree<A(!new)>(store: (A, Found) -> Parse<A>, stores: (A, Found, A) -> bool) {
    forall a, f, b :: stores(a, f, b) <==> store(a, f).Ok? && store(a, f).value == b
  }

  lemma {:induction false} ParseBySound<A(!new)>(
    msg: Message, data: Bytes, store: (A, Found) -> Parse<A>, stores: (A, Found, A) -> bool, i: nat, a: A)
    requires i <= |data| && Agree(store, stores) && ParseBy(msg, data, store, i, a).Ok?
    ensures
      var Ok(b, n) := ParseBy(msg, data, store, i, a);
      n == |data| && Spells(msg, data, i, stores, a, b)
    decreases |data| - i
  {
    var b := ParseBy(msg, data, store, i, a).value;
    if i == |data| {
      assert FieldsAt(msg, data, i, []) && Builds(stores, [], a, b);
    } else {
      var Ok(f, n) := ReadField(msg, data, i);
      FieldExact(msg, data, i, n, f);
      var c := store(a, f).value;
      assert stores(a, f, c);
      ParseBySound(msg, data, store, stores, n, c);
      var rest :| FieldsAt(msg, data, n, rest) && Builds(stores, rest, c, b);
      var found := [f] + rest;
      assert found[0] == f && found[1..] == rest;
      assert FieldsAt(msg, data, i, found) && Builds(stores, found, a, b);
    }
  }

  lemma {:induction false} ParseByComplete<A(!new)>(
    msg: Message, data: Bytes, store: (A, Found) -> Parse<A>, stores: (A, Found, A) -> bool, i: nat, found: seq<Found>,
    a: A, b: A)
    requires Agree(store, stores) && FieldsAt(msg, data, i, found) && Builds(stores, found, a, b)
    ensures ParseBy(msg, data, store, i, a) == Ok(b, |data|)
    decreases |found|
  {
    if found != [] {
      var n: nat :| FieldAt(msg, data, i, n, found[0]) && FieldsAt(msg, data, n, found[1..]);
      var c: A :| stores(a, found[0], c) && Builds(stores, found[1..], c, b);
      FieldExact(msg, data, i, n, found[0]);
      ParseByComplete(msg, data, store, stores, n, found[1..], c, b);
    }
  }

  lemma {:induction false} ParseByExact<A(!new)>(
    msg: Message, data: Bytes, store: (A, Found) -> Parse<A>, stores: (A, Found, A) -> bool, a: A, b: A)
    requires Agree(store, stores)
    ensures ParseBy(msg, data, store, 0, a) == Ok(b, |data|) <==> Spells(msg, data, 0, stores, a, b)
    ensures ParseBy(msg, data, store, 0, a).Ok? ==> ParseBy(msg, data, store, 0, a).next == |data|
  {
    if ParseBy(msg, data, store, 0, a).Ok? {
      ParseBySound(msg, data, store, stores, 0, a);
    }
    if Spells(msg, data, 0, stores, a, b) {
      var found :| FieldsAt(msg, data, 0, found) && Builds(stores, found, a, b);
      ParseByComplete(msg, data, store, stores, 0, found, a, b);
    }
  }

  // ---------------------------------------------------------------- objects, chunks and metadata

  predicate IsBlob(f: Found, num: int) { f.FoundBlob? && f.num == num }

  predicate IsNumber(f: Found, num: int) { f.FoundNumber? && f.num == num }

  ghost predicate StoredO(o: Object, f: Found, p: Object) {
    p.key == (if IsBlob(f, 1) then f.bytes else o.key) && p.shard == (if IsBlob(f, 2) then f.bytes else o.shard)
  }

  ghost function StoresO(): (Object, Found, Object) -> bool { (o: Object, f: Found, p: Object) => StoredO(o, f, p) }

  /** These bytes are an object. */
  ghost predicate ObjectAt(data: Bytes, o: Object) { Spells(ObjectMessage, data, 0, StoresO(), NO_OBJECT, o) }

  ghost predicate StoredC(c: Chunk, f: Found, d: Chunk) {
    && d.size == (if IsNumber(f, 1) then f.value else c.size) && d.hash == (if IsBlob(f, 3) then f.bytes else c.hash)
    && if IsBlob(f, 2) then exists o :: ObjectAt(f.bytes, o) && d.objects == c.objects + [o]
       else d.objects == c.objects
  }

  ghost function StoresC(): (Chunk, Found, Chunk) -> bool { (c: Chunk, f: Found, d: Chunk) => StoredC(c, f, d) }

  /** These bytes are a chunk. */
  ghost predicate ChunkAt(data: Bytes, c: Chunk) { Spells(ChunkMessage, data, 0, StoresC(), NO_CHUNK, c) }

  ghost predicate StoredM(m: Metadata, f: Found, n: Metadata) {
    && n.key == (if IsBlob(f, 1) then f.bytes else m.key)
    && n.size == (if IsNumber(f, 2) then f.value else m.size)
    && n.creationEpoch == (if IsNumber(f, 3) then f.value else m.creationEpoch)
    && n.lastWriteEpoch == (if IsNumber(f, 4) then f.value else m.lastWriteEpoch)
    && n.previousKey == (if IsBlob(f, 6) then f.bytes else m.previousKey)
    && n.nextKey == (if IsBlob(f, 7) then f.bytes else m.nextKey)
    && if IsBlob(f, 5) then exists c :: ChunkAt(f.bytes, c) && n.chunks == m.chunks + [c]
       else n.chunks == m.chunks
  }

  ghost function StoresM(): (Metadata, Found, Metadata) -> bool {
    (m: Metadata, f: Found, n: Metadata) => StoredM(m, f, n)
  }

  /** These bytes are metadata. */
  ghost predicate MetadataAt(data: Bytes, m: Metadata) {
    Spells(MetadataMessage, data, 0, StoresM(), NO_METADATA, m)
  }

  function StoringO(): (Object, Found) -> Parse<Object> { (o: Object, f: Found) => Ok(StoreO(o, f), 0) }

  function StoringC(): (Chunk, Found) -> Parse<Chunk> { (c: Chunk, f: Found) => StoreC(c, f) }

  function StoringM(): (Metadata, Found) -> Parse<Metadata> { (m: Metadata, f: Found) => StoreM(m, f) }

  lemma {:induction false} ParseOBy(data: Bytes, i: nat, o: Object)
    ensures ParseO(data, i, o) == ParseBy(ObjectMessage, data, StoringO(), i, o)
    decreases |data| - i
  {
    if i < |data| && ReadField(ObjectMessage, data, i).Ok? {
      var f := ReadField(ObjectMessage, data, i);
      ParseOBy(data, f.next, StoreO(o, f.value));
    }
  }

  lemma {:induction false} ParseCBy(data: Bytes, i: nat, c: Chunk)
    ensures ParseC(data, i, c) == ParseBy(ChunkMessage, data, StoringC(), i, c)
    decreases |data| - i
  {
    if i < |data| && ReadField(ChunkMessage, data, i).Ok? {
      var f := ReadField(ChunkMessage, data, i);
      if StoreC(c, f.value).Ok? {
        ParseCBy(data, f.next, StoreC(c, f.value).value);
      }
    }
  }

  lemma {:induction false} ParseMBy(data: Bytes, i: nat, m: Metadata)
    ensures ParseM(data, i, m) == ParseBy(MetadataMessage, data, StoringM(), i, m)
    decreases |data| - i
  {
    if i < |data| && ReadField(MetadataMessage, data, i).Ok? {
      var f := ReadField(MetadataMessage, data, i);
      if StoreM(m, f.value).Ok? {
        ParseMBy(data, f.next, StoreM(m, f.value).value);
      }
    }
  }

  lemma {:induction false} ObjectExact(data: Bytes, o: Object)
    ensures ParseO(data, 0, NO_OBJECT) == Ok(o, |data|) <==> ObjectAt(data, o)
    ensures ParseO(data, 0, NO_OBJECT).Ok? ==> ParseO(data, 0, NO_OBJECT).next == |data|
  {
    ParseOBy(data, 0, NO_OBJECT);
    ParseByExact(ObjectMessage, data, StoringO(), StoresO(), NO_OBJECT, o);
  }

  lemma StoreCAgrees(c: Chunk, f: Found, d: Chunk)
    ensures StoredC(c, f, d) <==> StoreC(c, f).Ok? && StoreC(c, f).value == d
  {
    if IsBlob(f, 2) {
      forall o
        ensures ParseO(f.bytes, 0, NO_OBJECT) == Ok(o, |f.bytes|) <==> ObjectAt(f.bytes, o)
        ensures ParseO(f.bytes, 0, NO_OBJECT).Ok? ==> ParseO(f.bytes, 0, NO_OBJECT).next == |f.bytes|
      {
        ObjectExact(f.bytes, o);
      }
    }
  }

  lemma {:induction false} ChunkExact(data: Bytes, c: Chunk)
    ensures ParseC(data, 0, NO_CHUNK) == Ok(c, |data|) <==> ChunkAt(data, c)
    ensures ParseC(data, 0, NO_CHUNK).Ok? ==> ParseC(data, 0, NO_CHUNK).next == |data|
  {
    forall a, f, b
      ensures StoresC()(a, f, b) <==> StoringC()(a, f).Ok? && StoringC()(a, f).value == b
    {
      StoreCAgrees(a, f, b);
    }
    ParseCBy(data, 0, NO_CHUNK);
    ParseByExact(ChunkMessage, data, StoringC(), StoresC(), NO_CHUNK, c);
  }

  lemma StoreMAgrees(m: Metadata, f: Found, n: Metadata)
    ensures StoredM(m, f, n) <==> StoreM(m, f).Ok? && StoreM(m, f).value == n
  {
    if IsBlob(f, 5) {
      forall c
        ensures ParseC(f.bytes, 0, NO_CHUNK) == Ok(c, |f.bytes|) <==> ChunkAt(f.bytes, c)
        ensures ParseC(f.bytes, 0, NO_CHUNK).Ok? ==> ParseC(f.bytes, 0, NO_CHUNK).next == |f.bytes|
      {
        ChunkExact(f.bytes, c);
      }
    }
  }

  /** Unmarshal accepts exactly the bytes that are metadata, and finds the metadata they are. */
  lemma {:induction false} UnmarshalExact(data: Bytes, m: Metadata)
    ensures Unmarshalled(data) == Ok(m, |data|) <==> MetadataAt(data, m)
    ensures Unmarshalled(data).Ok? ==> Unmarshalled(data).next == |data|
  {
    forall a, f, b
      ensures StoresM()(a, f, b) <==> StoringM()(a, f).Ok? && StoringM()(a, f).value == b
    {
      StoreMAgrees(a, f, b);
    }
    ParseMBy(data, 0, NO_METADATA);
    ParseByExact(MetadataMessage, data, StoringM(), StoresM(), NO_METADATA, m);
  }

  /** Unmarshalling into existing metadata accepts the same bytes, and keeps its chunks if they hold none. */
  lemma UnmarshalIntoExact(data: Bytes, md: Metadata, m: Metadata)
    ensures Marshal.UnmarshalInto(data, md) == Ok(m, |data|) <==>
      exists s :: MetadataAt(data, s) && m == s.(chunks := if s.chunks == [] then md.chunks else s.chunks)
    ensures Marshal.UnmarshalInto(data, md).Ok? ==> exists s :: MetadataAt(data, s)
  {
    forall s
      ensures Unmarshalled(data) == Ok(s, |data|) <==> MetadataAt(data, s)
    {
      UnmarshalExact(data, s);
    }
    UnmarshalExact(data, m);
  }
}
