/** The buffer and index of MarshalTo in client/metastor/encoding/proto/metadata.pb.go. */
module Buffers {
  import opened Metatypes
  import opened Wire

  lemma Assoc(a: Bytes, b: Bytes, c: Bytes)
    ensures a + b + c == a + (b + c)
  {
  }

  /** A buffer that is filled from its start: `done` is what has been written, the rest is untouched. */
  class Cursor {
    const buf: array<Byte>
    var i: nat
    ghost var before: Bytes
    ghost var done: Bytes

    ghost predicate Valid()
      reads this, buf
    {
      && i == |done| <= buf.Length == |before|
      && buf[..i] == done && buf[i..] == before[i..]
    }

    constructor (buf: array<Byte>)
      ensures Valid() && this.buf == buf && done == [] && before == buf[..]
    {
      this.buf, i, before, done := buf, 0, buf[..], [];
    }

    method PutByte(b: Byte)
      requires Valid() && |done| < buf.Length
      modifies this`i, this`done, buf
      ensures Valid() && done == old(done) + [b]
    {
      buf[i] := b;
      i := i + 1;
      done := done + [b];
    }

    method PutVarint(v: nat)
      requires Valid() && |done| + |EncVar(v)| <= buf.Length
      modifies this`i, this`done, buf
      ensures Valid() && done == old(done) + EncVar(v)
    {
      var rest: nat := v;
      ghost var all := done + EncVar(v);
      while rest >= 128
        invariant Valid() && done + EncVar(rest) == all
        decreases rest
      {
        Assoc(done, [rest % 128 + 128], EncVar(rest / 128));
        PutByte(rest % 128 + 128);
        rest := rest / 128;
      }
      PutByte(rest);
    }

    method PutBytes(bytes: Bytes)
      requires Valid() && |done| + |bytes| <= buf.Length
      modifies this`i, this`done, buf
      ensures Valid() && done == old(done) + bytes
    {
      for k := 0 to |bytes|
        invariant Valid() && done == old(done) + bytes[..k]
      {
        assert bytes[..k] + [bytes[k]] == bytes[..k + 1];
        Assoc(old(done), bytes[..k], [bytes[k]]);
        PutByte(bytes[k]);
      }
      assert bytes[..|bytes|] == bytes;
    }
  }
}
