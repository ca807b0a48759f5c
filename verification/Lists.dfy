/** Sequences and arrays of anything. */
module Lists {

  function Without<T>(q: seq<T>, j: nat): seq<T>
    requires j < |q|
  {
    q[..j] + q[j + 1..]
  }

  /** Copy a sequence into a part of an array. */
  method CopyAt<T>(target: array<T>, at: nat, source: seq<T>)
    requires at + |source| <= target.Length
    modifies target
    ensures forall k :: 0 <= k < target.Length ==>
      target[k] == if at <= k < at + |source| then source[k - at] else old(target[k])
  {
    for k := 0 to |source|
      invariant forall j :: 0 <= j < target.Length ==>
        target[j] == if at <= j < at + k then source[j - at] else old(target[j])
    {
      target[at + k] := source[k];
    }
  }
}
