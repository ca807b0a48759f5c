/**
 * Splitting a chunk over data and parity parts, and putting it together again
 * (client/datastor/pipeline/storage/distributed.go).
 */
module Erasure {
  import opened Metatypes

  const PAD_FACTOR: nat := 256

  /** A slot is empty when its part could not be read. */
  type Slots = seq<Option<Bytes>>

  /**
   * The erasure code library: k data parts, m parity parts, the parity computed for data parts
   * of one size, and the data parts it reconstructs from whatever parts are at hand.
   */
  datatype Code = Code(k: nat, m: nat, parity: seq<Bytes> -> seq<Bytes>, restore: Slots -> Option<seq<Bytes>>)

  predicate Uniform(parts: seq<Bytes>, n: nat, size: nat) {
    |parts| == n && forall i :: 0 <= i < n ==> |parts[i]| == size
  }

  /** Each slot is empty or holds its own part. */
  ghost predicate Survivors(parts: seq<Bytes>, slots: Slots) {
    |slots| == |parts| && forall i :: 0 <= i < |slots| ==> slots[i] == None || slots[i] == Some(parts[i])
  }

  function Present(slots: Slots): nat {
    if slots == [] then 0 else Present(slots[1..]) + if slots[0].Some? then 1 else 0
  }

  /** The library's promise: any k parts, data or parity, give all data parts back. */
  ghost predicate Sound(c: Code) {
    && c.k >= 1 && c.m >= 1
    && (forall data, size: nat :: Uniform(data, c.k, size) ==> Uniform(c.parity(data), c.m, size))
    && (forall data, size: nat, slots ::
          Uniform(data, c.k, size) && size > 0 && Survivors(data + c.parity(data), slots) && Present(slots) >= c.k ==>
          c.restore(slots) == Some(data))
  }

  // ---------------------------------------------------------------- padding and splitting

  /** Bytes to add so that the length is a multiple of 256 for each data part. */
  function PadLen(k: nat, n: nat): (pad: nat)
    requires k >= 1
    ensures pad < PAD_FACTOR * k && (n + pad) % (PAD_FACTOR * k) == 0
  {
    var maxPad := k * PAD_FACTOR;
    var mod := n % maxPad;
    if mod == 0 then 0 else PadFills(n, maxPad); maxPad - mod
  }

  lemma PadFills(n: nat, d: nat)
    requires d > 0
    ensures (n + (d - n % d)) % d == 0
  {
    var q := n / d;
    assert n == q * d + n % d;
    assert n + (d - n % d) == (q + 1) * d;
    MultipleHasNoRest(q + 1, d);
  }

  lemma NoSmallMultiple(a: int, d: nat)
    requires 0 <= a * d < d
    ensures a == 0
  {
  }

  lemma DivMod(x: nat, d: nat)
    requires d > 0
    ensures x == (x / d) * d + x % d
  {
  }

  lemma MultipleHasNoRest(q: nat, d: nat)
    requires d > 0
    ensures (q * d) % d == 0 && (q * d) / d == q
  {
    var x := q * d;
    var p, r := x / d, x % d;
    DivMod(x, d);
    assert (q - p) * d == q * d - p * d;
    NoSmallMultiple(q - p, d);
  }

  function Zeros(n: nat): (z: Bytes)
    ensures |z| == n && forall i :: 0 <= i < n ==> z[i] == 0
  {
    seq(n, _ => 0)
  }

  function Padded(k: nat, data: Bytes): Bytes
    requires k >= 1
  {
    data + Zeros(PadLen(k, |data|))
  }

  /** The size of each part of a chunk of n bytes. */
  function PartSize(k: nat, n: nat): nat
    requires k >= 1
  {
    (n + PadLen(k, n)) / k
  }

  lemma PartSizeExact(k: nat, n: nat)
    requires k >= 1
    ensures k * PartSize(k, n) == n + PadLen(k, n)
    ensures n > 0 ==> PartSize(k, n) > 0
  {
    var total := n + PadLen(k, n);
    var q := total / (PAD_FACTOR * k);
    assert total == q * (PAD_FACTOR * k) + total % (PAD_FACTOR * k);
    assert total == (q * PAD_FACTOR) * k;
    MultipleHasNoRest(q * PAD_FACTOR, k);
    assert PartSize(k, n) == q * PAD_FACTOR;
    assert n > 0 ==> q > 0;
  }

  /** The first n slices of the given size. */
  function Slices(bytes: Bytes, size: nat, n: nat): seq<Bytes>
    requires |bytes| == n * size
  {
    if n == 0 then []
    else
      SliceFits(0, n, size);
      [bytes[..size]] + Slices(bytes[size..], size, n - 1)
  }

  function Split(k: nat, data: Bytes): seq<Bytes>
    requires k >= 1
  {
    PartSizeExact(k, |data|);
    Slices(Padded(k, data), PartSize(k, |data|), k)
  }

  lemma SliceFits(i: nat, k: nat, size: nat)
    requires i < k
    ensures i * size <= (i + 1) * size <= k * size
    ensures (i + 1) * size - i * size == size && (k - i) * size - size == (k - i - 1) * size
  {
    Distribute(i, 1, size);
    Distribute(i + 1, k - i - 1, size);
    Distribute(k - i - 1, 1, size);
  }

  lemma Distribute(a: nat, b: nat, size: nat)
    ensures (a + b) * size == a * size + b * size
    ensures b * size >= 0
  {
  }

  lemma {:induction false} SlicesCover(bytes: Bytes, size: nat, n: nat)
    requires |bytes| == n * size
    ensures Uniform(Slices(bytes, size, n), n, size)
    ensures Concat(Slices(bytes, size, n)) == bytes
  {
    if n > 0 {
      SliceFits(0, n, size);
      SlicesCover(bytes[size..], size, n - 1);
      assert Slices(bytes, size, n)[1..] == Slices(bytes[size..], size, n - 1);
    }
  }

  /** The k parts are of one size, and together they are the data followed by zeros. */
  lemma {:induction false} SplitCovers(k: nat, data: Bytes)
    requires k >= 1
    ensures
      var all := Concat(Split(k, data));
      && Uniform(Split(k, data), k, PartSize(k, |data|)) && |data| <= |all| < |data| + PAD_FACTOR * k
      && all[..|data|] == data && forall i :: |data| <= i < |all| ==> all[i] == 0
  {
    PartSizeExact(k, |data|);
    SlicesCover(Padded(k, data), PartSize(k, |data|), k);
  }

  /** splitData: cut the padded data into k slices, in place. */
  method SplitData(k: nat, data: Bytes) returns (parts: seq<Bytes>)
    requires k >= 1
    ensures parts == Split(k, data)
  {
    var padded := data + Zeros(PadLen(k, |data|));
    var size := |padded| / k;
    PartSizeExact(k, |data|);
    parts := [];
    for i := 0 to k
      invariant i * size <= k * size && |padded[i * size..]| == (k - i) * size
      invariant parts + Slices(padded[i * size..], size, k - i) == Split(k, data)
    {
      SliceFits(i, k, size);
      assert padded[i * size..][..size] == padded[i * size..(i + 1) * size];
      assert padded[i * size..][size..] == padded[(i + 1) * size..];
      parts := parts + [padded[i * size..(i + 1) * size]];
    }
    assert parts + [] == parts;
  }

  // ---------------------------------------------------------------- encode and decode

  /** Encode of non-empty data: the data parts followed by their parity. */
  function Encoded(c: Code, data: Bytes): seq<Bytes>
    requires c.k >= 1
  {
    var parts := Split(c.k, data);
    parts + c.parity(parts)
  }

  /** The first n bytes, zero-filled if there are fewer. */
  function Fit(bytes: Bytes, n: nat): (r: Bytes)
    ensures |r| == n
  {
    if n <= |bytes| then bytes[..n] else bytes + Zeros(n - |bytes|)
  }

  function Decoded(c: Code, slots: Slots, size: nat): Option<Bytes> {
    if |slots| != c.k + c.m then None
    else match c.restore(slots)
      case None => None
      case Some(parts) => Some(Fit(Concat(parts), size))
  }

  /** Decode: copy the data parts one after the other into a buffer of the original size. */
  method Decode(c: Code, slots: Slots, size: nat) returns (r: Option<Bytes>)
    requires c.k >= 1
    requires c.restore(slots).Some? ==> |c.restore(slots).value| == c.k
    ensures r == Decoded(c, slots, size)
    ensures |slots| != c.k + c.m || c.restore(slots).None? <==> r.None?
    ensures r.Some? ==> |r.value| == size
  {
    if |slots| != c.k + c.m {
      return None;
    }
    var restored := c.restore(slots);
    if restored.None? {
      return None;
    }
    var parts := restored.value;
    var data := new Byte[size](_ => 0);
    var offset := 0;
    var i := 0;
    assert Concat(parts[..0]) == [];
    while i < c.k && offset < size
      invariant 0 <= i <= c.k && offset == |Concat(parts[..i])|
      invariant data[..] == Fit(Concat(parts[..i]), size)
    {
      var part := parts[i];
      var count := if |part| <= size - offset then |part| else size - offset;
      ghost var before := data[..];
      forall j | 0 <= j < count {
        data[offset + j] := part[j];
      }
      ConcatAppend(parts[..i], [part]);
      assert parts[..i] + [part] == parts[..i + 1];
      assert data[..] == before[..offset] + part[..count] + before[offset + count..];
      offset := offset + |part|;
      i := i + 1;
    }
    assert parts == parts[..i] + parts[i..];
    ConcatAppend(parts[..i], parts[i..]);
    if i == c.k {
      assert parts[..i] == parts;
    } else {
      assert Concat(parts)[..size] == Concat(parts[..i])[..size];
    }
    r := Some(data[..]);
  }

  /** Encoding makes k + m parts of one non-zero size. */
  lemma EncodedUniform(c: Code, data: Bytes)
    requires Sound(c)
    ensures Uniform(Encoded(c, data), c.k + c.m, PartSize(c.k, |data|))
    ensures data != [] ==> PartSize(c.k, |data|) > 0
  {
    PartSizeExact(c.k, |data|);
    SlicesCover(Padded(c.k, data), PartSize(c.k, |data|), c.k);
    assert Uniform(Split(c.k, data), c.k, PartSize(c.k, |data|));
  }

  /** Decode inverts Encode as long as at most m parts are missing, whichever they are. */
  lemma {:induction false} DecodeInvertsEncode(c: Code, data: Bytes, slots: Slots)
    requires Sound(c) && data != []
    requires Survivors(Encoded(c, data), slots) && Present(slots) >= c.k
    ensures Decoded(c, slots, |data|) == Some(data)
  {
    EncodedUniform(c, data);
    var parts, size := Split(c.k, data), PartSize(c.k, |data|);
    PartSizeExact(c.k, |data|);
    SlicesCover(Padded(c.k, data), size, c.k);
    assert Uniform(parts, c.k, size) && Survivors(parts + c.parity(parts), slots);
    assert c.restore(slots) == Some(parts);
    assert Padded(c.k, data)[..|data|] == data;
  }
}
