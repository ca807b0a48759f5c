/**
 * One concrete erasure code with a single parity part: the bytewise sum of the data parts. It
 * shows that the promise the distributed storage relies on can be kept.
 */
module ParityCode {
  import opened Metatypes
  import opened Erasure

  function At(v: Bytes, j: nat): Byte {
    if j < |v| then v[j] else 0
  }

  /** The sum of byte j over all parts. */
  function SumAt(parts: seq<Bytes>, j: nat): nat {
    if parts == [] then 0 else At(parts[0], j) + SumAt(parts[1..], j)
  }

  /** The same sum over the parts that are present. */
  function PresentAt(slots: Slots, j: nat): nat {
    if slots == [] then 0 else (if slots[0].Some? then At(slots[0].value, j) else 0) + PresentAt(slots[1..], j)
  }

  function Parity(parts: seq<Bytes>): seq<Bytes> {
    if parts == [] then [[]] else [seq(|parts[0]|, j requires j >= 0 => SumAt(parts, j) % 256)]
  }

  function Patched(slots: Slots, patch: Bytes): seq<Bytes> {
    seq(|slots|, i requires 0 <= i < |slots| => match slots[i] case Some(v) => v case None => patch)
  }

  /** Fill the hole, if there is one, with what the parity has over the parts at hand. */
  function Restore(k: nat, slots: Slots): Option<seq<Bytes>> {
    if |slots| != k + 1 || Present(slots) < k then None
    else if slots[k].None? then Some(Patched(slots[..k], []))
    else Some(Patched(slots[..k], Patch(slots[..k], slots[k].value)))
  }

  /** What the parity has over the parts at hand. */
  function Patch(slots: Slots, parity: Bytes): Bytes {
    seq(|parity|, j requires 0 <= j < |parity| => (parity[j] - PresentAt(slots, j)) % 256)
  }

  function SumCode(k: nat): Code {
    Code(k, 1, Parity, (slots: Slots) => Restore(k, slots))
  }

  lemma {:induction false} PresentConcat(a: Slots, b: Slots)
    ensures Present(a + b) == Present(a) + Present(b)
    ensures Present(a) <= |a|
  {
    if a == [] {
      assert a + b == b;
    } else {
      assert (a + b)[1..] == a[1..] + b;
      PresentConcat(a[1..], b);
    }
  }

  lemma {:induction false} AllPresent(slots: Slots, i: nat)
    requires Present(slots) == |slots| && i < |slots|
    ensures slots[i].Some?
  {
    PresentConcat(slots[1..], []);
    if i > 0 {
      assert slots[1..] + [] == slots[1..];
      AllPresent(slots[1..], i - 1);
    }
  }

  /** With one slot empty, the sums differ by exactly the missing byte. */
  lemma {:induction false} HoleSum(data: seq<Bytes>, slots: Slots, d: nat, j: nat)
    requires Survivors(data, slots) && d < |slots| && slots[d].None? && Present(slots) == |slots| - 1
    ensures SumAt(data, j) == PresentAt(slots, j) + At(data[d], j)
    ensures forall i :: 0 <= i < |slots| && i != d ==> slots[i].Some?
  {
    PresentConcat(slots[1..], []);
    assert slots[1..] + [] == slots[1..];
    if d == 0 {
      forall i | 0 < i < |slots|
        ensures slots[i].Some?
      {
        AllPresent(slots[1..], i - 1);
      }
      FullSum(data[1..], slots[1..], j);
    } else {
      if slots[0].None? {
        AllPresent(slots[1..], d - 1);
      }
      HoleSum(data[1..], slots[1..], d - 1, j);
      forall i | 0 < i < |slots| && i != d
        ensures slots[i].Some?
      {
        assert slots[1..][i - 1].Some?;
      }
    }
  }

  lemma {:induction false} FullSum(data: seq<Bytes>, slots: Slots, j: nat)
    requires Survivors(data, slots) && Present(slots) == |slots|
    ensures SumAt(data, j) == PresentAt(slots, j)
  {
    if slots != [] {
      AllPresent(slots, 0);
      FullSum(data[1..], slots[1..], j);
    }
  }

  lemma {:induction false} SomeHole(slots: Slots) returns (d: nat)
    requires Present(slots) < |slots|
    ensures d < |slots| && slots[d].None?
  {
    if slots[0].None? {
      d := 0;
    } else {
      d := SomeHole(slots[1..]);
      d := d + 1;
    }
  }

  /** With nothing missing, the patch is not used. */
  lemma {:induction false} FullIsData(data: seq<Bytes>, slots: Slots, patch: Bytes)
    requires Survivors(data, slots) && Present(slots) == |slots|
    ensures Patched(slots, patch) == data
  {
    forall i | 0 <= i < |slots|
      ensures Patched(slots, patch)[i] == data[i]
    {
      AllPresent(slots, i);
    }
  }

  /** The patch is the part that is missing. */
  lemma {:induction false} PatchIsHole(data: seq<Bytes>, size: nat, slots: Slots, d: nat)
    requires Uniform(data, |slots|, size) && Survivors(data, slots) && d < |slots|
    requires slots[d].None? && Present(slots) == |slots| - 1
    ensures Patch(slots, Parity(data)[0]) == data[d]
  {
    var patch := Patch(slots, Parity(data)[0]);
    forall j | 0 <= j < size
      ensures patch[j] == data[d][j]
    {
      HoleSum(data, slots, d, j);
    }
  }

  lemma {:induction false} HoleIsFilled(data: seq<Bytes>, size: nat, slots: Slots)
    requires Uniform(data, |slots|, size) && Survivors(data, slots) && Present(slots) == |slots| - 1
    ensures Patched(slots, Patch(slots, Parity(data)[0])) == data
  {
    var d := SomeHole(slots);
    PatchIsHole(data, size, slots, d);
    HoleSum(data, slots, d, 0);
  }

  lemma {:induction false} RestoreFindsData(k: nat, data: seq<Bytes>, size: nat, slots: Slots)
    requires k >= 1 && Uniform(data, k, size)
    requires Survivors(data + Parity(data), slots) && Present(slots) >= k
    ensures Restore(k, slots) == Some(data)
  {
    var head := slots[..k];
    assert slots == head + [slots[k]];
    PresentConcat(head, [slots[k]]);
    assert Survivors(data, head);
    if Present(head) == k {
      FullIsData(data, head, []);
      FullIsData(data, head, if slots[k].Some? then Patch(head, slots[k].value) else []);
    } else {
      assert slots[k] == Some(Parity(data)[0]);
      HoleIsFilled(data, size, head);
    }
  }

  /** The sum code keeps the library's promise for every number of data parts. */
  lemma SumCodeSound(k: nat)
    requires k >= 1
    ensures Sound(SumCode(k))
  {
    var c := SumCode(k);
    forall data, size: nat | Uniform(data, c.k, size)
      ensures Uniform(c.parity(data), c.m, size)
    {
    }
    forall data, size: nat, slots |
      Uniform(data, c.k, size) && size > 0 && Survivors(data + c.parity(data), slots) && Present(slots) >= c.k
      ensures c.restore(slots) == Some(data)
    {
      RestoreFindsData(k, data, size, slots);
    }
  }
}
