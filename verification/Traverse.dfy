/** Walking along linked metadata, filtered by creation time (client/client_linked_data.go). */
module Traverse {
  import opened Metatypes

  type Store = map<Bytes, Metadata>

  /** All nodes can be fetched. */
  ghost predicate Known(store: Store, keys: seq<Bytes>) {
    forall i :: 0 <= i < |keys| ==> keys[i] in store
  }

  ghost predicate Distinct(keys: seq<Bytes>) {
    (forall i :: 0 <= i < |keys| ==> keys[i] != []) && forall i, j :: 0 <= i < j < |keys| ==> keys[i] != keys[j]
  }

  /** A missing next or previous key is an empty one. */
  ghost predicate NextLinks(store: Store, keys: seq<Bytes>) {
    && (forall i, j :: 0 <= i < j < |keys| && j == i + 1 && keys[i] in store ==> store[keys[i]].nextKey == keys[j])
    && (keys != [] && keys[|keys| - 1] in store ==> store[keys[|keys| - 1]].nextKey == [])
  }

  ghost predicate PreviousLinks(store: Store, keys: seq<Bytes>) {
    && (forall i, j :: 0 <= i < j < |keys| && j == i + 1 && keys[j] in store ==> store[keys[j]].previousKey == keys[i])
    && (keys != [] && keys[0] in store ==> store[keys[0]].previousKey == [])
  }

  ghost predicate Aging(store: Store, keys: seq<Bytes>) {
    forall i, j :: 0 <= i < j < |keys| && keys[i] in store && keys[j] in store ==>
      store[keys[i]].creationEpoch <= store[keys[j]].creationEpoch
  }

  /** Keys whose nodes, as far as they can be fetched, are linked in both directions, the oldest one first. */
  ghost predicate Chain(store: Store, keys: seq<Bytes>) {
    Distinct(keys) && NextLinks(store, keys) && PreviousLinks(store, keys) && Aging(store, keys)
  }

  // ---------------------------------------------------------------- chains are built by appending

  /** The store after a node has been stored, and its predecessor, if there is one, linked to it. */
  function Extended(store: Store, node: Metadata): Store {
    var stored := store[node.key := node];
    if node.previousKey in store then stored[node.previousKey := store[node.previousKey].(nextKey := node.key)]
    else stored
  }

  function KeysOf(nodes: seq<Metadata>): seq<Bytes> {
    seq(|nodes|, i requires 0 <= i < |nodes| => nodes[i].key)
  }

  /** One node after the other. */
  function Built(base: Store, nodes: seq<Metadata>): Store {
    if nodes == [] then base else Extended(Built(base, nodes[..|nodes| - 1]), nodes[|nodes| - 1])
  }

  ghost predicate Ours(nodes: seq<Metadata>, key: Bytes) {
    exists i :: 0 <= i < |nodes| && nodes[i].key == key
  }

  ghost predicate NewKeys(base: Store, nodes: seq<Metadata>) {
    && [] !in base
    && (forall i :: 0 <= i < |nodes| ==> nodes[i].key != [] && nodes[i].key !in base)
    && DifferentKeys(nodes)
  }

  ghost predicate Consecutive(nodes: seq<Metadata>) {
    && (forall i :: 0 <= i < |nodes| ==> nodes[i].nextKey == [])
    && (forall i, j :: 0 <= i < j < |nodes| && j == i + 1 ==> nodes[j].previousKey == nodes[i].key)
    && (nodes != [] ==> nodes[0].previousKey == [])
  }

  ghost predicate Older(nodes: seq<Metadata>) {
    forall i, j :: 0 <= i < j < |nodes| ==> nodes[i].creationEpoch <= nodes[j].creationEpoch
  }

  /** New nodes, each linked to the one before and not older than it. */
  ghost predicate Appends(base: Store, nodes: seq<Metadata>) {
    NewKeys(base, nodes) && Consecutive(nodes) && Older(nodes)
  }

  /** The nodes are found as they were stored, but linked to their successors. */
  ghost predicate Placed(store: Store, nodes: seq<Metadata>) {
    && (forall i :: 0 <= i < |nodes| ==> nodes[i].key in store && store[nodes[i].key].(nextKey := []) == nodes[i])
    && (forall i, j :: 0 <= i < j < |nodes| && j == i + 1 ==> store[nodes[i].key].nextKey == nodes[j].key)
    && (nodes != [] ==> store[nodes[|nodes| - 1].key].nextKey == [])
  }

  /** What is found in a store that has been built, and nothing else. */
  ghost predicate Holds(store: Store, base: Store, nodes: seq<Metadata>) {
    Placed(store, nodes) && forall k :: k in store ==> k in base || Ours(nodes, k)
  }

  lemma ExtendedKeys(store: Store, base: Store, rest: seq<Metadata>, node: Metadata)
    requires forall k :: k in store ==> k in base || Ours(rest, k)
    ensures forall k :: k in Extended(store, node) ==> k in base || Ours(rest + [node], k)
  {
    var nodes := rest + [node];
    assert nodes[|rest|] == node;
    forall k | k in Extended(store, node) && k !in base
      ensures Ours(nodes, k)
    {
      if k != node.key {
        assert Ours(rest, k);
        var i :| 0 <= i < |rest| && rest[i].key == k;
        assert nodes[i] == rest[i];
      }
    }
  }

  ghost predicate DifferentKeys(nodes: seq<Metadata>) {
    forall i, j :: 0 <= i < j < |nodes| ==> nodes[i].key != nodes[j].key
  }

  /** A new node that is linked to the last of the others. */
  ghost predicate Follows(store: Store, rest: seq<Metadata>, node: Metadata) {
    && node.key !in store && node.nextKey == [] && DifferentKeys(rest)
    && if rest == [] then node.previousKey !in store else node.previousKey == rest[|rest| - 1].key
  }

  /** The predecessor is linked to the new node, and no other node changes. */
  lemma ExtendedPlaces(store: Store, rest: seq<Metadata>, node: Metadata)
    requires Placed(store, rest) && Follows(store, rest, node)
    ensures Placed(Extended(store, node), rest + [node])
  {
    var n, nodes, t := |rest|, rest + [node], Extended(store, node);
    assert forall i :: 0 <= i < n ==> nodes[i] == rest[i] && nodes[i].key != node.key;
    assert nodes[n] == node;
    assert n > 0 ==> nodes[n - 1] == rest[n - 1];
    forall i, j | 0 <= i < j < |nodes| && j == i + 1
      ensures t[nodes[i].key].nextKey == nodes[j].key
    {
      if j < n {
        assert nodes[j] == rest[j] && rest[i].key != rest[n - 1].key;
      }
    }
  }

  lemma ExtendedHolds(store: Store, base: Store, rest: seq<Metadata>, node: Metadata)
    requires Holds(store, base, rest) && Follows(store, rest, node)
    ensures Holds(Extended(store, node), base, rest + [node])
  {
    ExtendedPlaces(store, rest, node);
    ExtendedKeys(store, base, rest, node);
  }

  lemma NextFollows(store: Store, base: Store, nodes: seq<Metadata>, n: nat)
    requires n < |nodes| && NewKeys(base, nodes) && Consecutive(nodes)
    requires forall k :: k in store ==> k in base || Ours(nodes[..n], k)
    ensures Follows(store, nodes[..n], nodes[n])
  {
    assert !Ours(nodes[..n], nodes[n].key);
    assert n == 0 ==> !Ours(nodes[..n], []);
  }

  lemma NextHolds(store: Store, base: Store, nodes: seq<Metadata>, n: nat)
    requires n < |nodes| && NewKeys(base, nodes) && Consecutive(nodes) && Holds(store, base, nodes[..n])
    ensures Holds(Extended(store, nodes[n]), base, nodes[..n + 1])
  {
    NextFollows(store, base, nodes, n);
    ExtendedHolds(store, base, nodes[..n], nodes[n]);
    assert nodes[..n] + [nodes[n]] == nodes[..n + 1];
  }

  /** Appending node k carries what holds on to the next count. */
  ghost predicate Carries(nodes: seq<Metadata>, holds: (Store, nat) -> bool, store: Store, k: nat) {
    k < |nodes| && holds(store, k) ==> holds(Extended(store, nodes[k]), k + 1)
  }

  /** What each append carries on, many appends do. */
  lemma {:induction false} BuiltKeeps(base: Store, nodes: seq<Metadata>, holds: (Store, nat) -> bool, n: nat)
    requires n <= |nodes| && holds(base, 0)
    requires forall store: Store, k: nat :: Carries(nodes, holds, store, k)
    ensures holds(Built(base, nodes[..n]), n)
  {
    if n > 0 {
      BuiltKeeps(base, nodes, holds, n - 1);
      assert nodes[..n][..n - 1] == nodes[..n - 1];
      assert Carries(nodes, holds, Built(base, nodes[..n - 1]), n - 1);
    }
  }

  lemma {:induction false} BuiltHolds(base: Store, nodes: seq<Metadata>)
    requires NewKeys(base, nodes) && Consecutive(nodes)
    ensures Holds(Built(base, nodes), base, nodes)
  {
    var holds := (store: Store, n: nat) => n <= |nodes| && Holds(store, base, nodes[..n]);
    forall store: Store, n: nat
      ensures Carries(nodes, holds, store, n)
    {
      if n < |nodes| && holds(store, n) {
        NextHolds(store, base, nodes, n);
      }
    }
    BuiltKeeps(base, nodes, holds, |nodes|);
    assert nodes[..|nodes|] == nodes;
  }

  lemma PlacedKeys(store: Store, nodes: seq<Metadata>)
    requires Placed(store, nodes)
    ensures Known(store, KeysOf(nodes))
    ensures forall i :: 0 <= i < |nodes| ==>
      KeysOf(nodes)[i] == nodes[i].key && store[KeysOf(nodes)[i]].(nextKey := []) == nodes[i]
  {
  }

  lemma PlacedLinks(store: Store, nodes: seq<Metadata>)
    requires Placed(store, nodes) && Consecutive(nodes)
    ensures NextLinks(store, KeysOf(nodes)) && PreviousLinks(store, KeysOf(nodes))
  {
    PlacedKeys(store, nodes);
  }

  lemma PlacedAging(store: Store, nodes: seq<Metadata>)
    requires Placed(store, nodes) && Older(nodes)
    ensures Aging(store, KeysOf(nodes))
  {
    PlacedKeys(store, nodes);
    var keys := KeysOf(nodes);
    forall i, j | 0 <= i < j < |keys| && keys[i] in store && keys[j] in store
      ensures store[keys[i]].creationEpoch <= store[keys[j]].creationEpoch
    {
      assert nodes[i].creationEpoch <= nodes[j].creationEpoch;
    }
  }

  lemma NewKeysDistinct(base: Store, nodes: seq<Metadata>)
    requires NewKeys(base, nodes)
    ensures Distinct(KeysOf(nodes))
  {
    var keys := KeysOf(nodes);
    forall i, j | 0 <= i < j < |keys|
      ensures keys[i] != keys[j]
    {
      assert nodes[i].key != nodes[j].key;
    }
  }

  /** Every store that is built by tail appends has the chain of its nodes. */
  lemma {:induction false} BuiltIsChain(base: Store, nodes: seq<Metadata>)
    requires Appends(base, nodes)
    ensures Chain(Built(base, nodes), KeysOf(nodes)) && Known(Built(base, nodes), KeysOf(nodes))
    ensures Placed(Built(base, nodes), nodes)
  {
    var store := Built(base, nodes);
    BuiltHolds(base, nodes);
    PlacedKeys(store, nodes);
    NewKeysDistinct(base, nodes);
    PlacedLinks(store, nodes);
    PlacedAging(store, nodes);
  }

  /** A node that is stored but not linked yet leaves every chain as it is. */
  lemma StoredKeepsChain(store: Store, keys: seq<Bytes>, node: Metadata)
    requires Chain(store, keys) && node.key !in keys
    ensures Chain(store[node.key := node], keys)
  {
    var t := store[node.key := node];
    assert forall i :: 0 <= i < |keys| ==>
      keys[i] != node.key && (keys[i] in t <==> keys[i] in store) &&
      (keys[i] in store ==> t[keys[i]] == store[keys[i]]);
  }

  /** Between storing a node and linking it, the chain is that of the nodes before it. */
  lemma {:induction false} HalfAppendedIsChain(base: Store, nodes: seq<Metadata>, n: nat)
    requires Appends(base, nodes) && n < |nodes|
    ensures Chain(Built(base, nodes[..n])[nodes[n].key := nodes[n]], KeysOf(nodes[..n]))
  {
    var rest := nodes[..n];
    assert Appends(base, rest);
    BuiltIsChain(base, rest);
    assert nodes[n].key !in KeysOf(rest);
    StoredKeepsChain(Built(base, rest), KeysOf(rest), nodes[n]);
  }

  // ---------------------------------------------------------------- what a traversal is for

  /** The inclusive range from lo to hi; a bound that is not positive is no bound. */
  predicate InRange(m: Metadata, lo: int, hi: int) {
    (lo <= 0 || m.creationEpoch >= lo) && (hi <= 0 || m.creationEpoch <= hi)
  }

  /** The nodes of these keys that are in range, in the same order, up to the first that cannot be fetched. */
  function Filter(store: Store, keys: seq<Bytes>, lo: int, hi: int): seq<Metadata> {
    if keys == [] || keys[0] !in store then []
    else (if InRange(store[keys[0]], lo, hi) then [store[keys[0]]] else []) + Filter(store, keys[1..], lo, hi)
  }

  /** Created neither before a positive lo nor after a positive hi. */
  ghost predicate Within(t: int, lo: int, hi: int) { (lo > 0 ==> t >= lo) && (hi > 0 ==> t <= hi) }

  /** How many of the keys can be fetched one after the other. */
  function Fetched(store: Store, keys: seq<Bytes>): (n: nat)
    ensures n <= |keys| && (forall i :: 0 <= i < n ==> keys[i] in store) && (n < |keys| ==> keys[n] !in store)
  {
    if keys == [] || keys[0] !in store then 0 else 1 + Fetched(store, keys[1..])
  }

  /** Which node comes out as the j-th. */
  ghost predicate PickAt(store: Store, keys: seq<Bytes>, nodes: seq<Metadata>, picks: seq<nat>, j: nat) {
    j < |picks| == |nodes| && picks[j] < |keys| && keys[picks[j]] in store && nodes[j] == store[keys[picks[j]]]
  }

  ghost predicate Picks(store: Store, keys: seq<Bytes>, lo: int, hi: int, nodes: seq<Metadata>, picks: seq<nat>) {
    && |picks| == |nodes| && (forall j :: 0 <= j < |picks| ==> PickAt(store, keys, nodes, picks, j))
    && (forall i, j :: 0 <= i < j < |picks| ==> picks[i] < picks[j])
    && forall i: nat :: i in picks <==> i < Fetched(store, keys) && Within(store[keys[i]].creationEpoch, lo, hi)
  }

  function Shifted(picks: seq<nat>): seq<nat> { seq(|picks|, j requires 0 <= j < |picks| => picks[j] + 1) }

  lemma ShiftedMember(picks: seq<nat>, i: nat)
    ensures i in Shifted(picks) <==> i > 0 && i - 1 in picks
  {
    if i in Shifted(picks) {
      var j :| 0 <= j < |picks| && Shifted(picks)[j] == i;
      assert picks[j] == i - 1;
    }
    if i > 0 && i - 1 in picks {
      var j :| 0 <= j < |picks| && picks[j] == i - 1;
      assert Shifted(picks)[j] == i;
    }
  }

  lemma {:induction false} PicksLater(
    store: Store, keys: seq<Bytes>, lo: int, hi: int, nodes: seq<Metadata>, picks: seq<nat>)
    requires keys != [] && keys[0] in store && Picks(store, keys[1..], lo, hi, nodes, picks)
    ensures |Shifted(picks)| == |nodes|
    ensures forall j :: 0 <= j < |picks| ==> PickAt(store, keys, nodes, Shifted(picks), j)
    ensures forall i: nat :: i in Shifted(picks) <==>
      0 < i < Fetched(store, keys) && Within(store[keys[i]].creationEpoch, lo, hi)
  {
    forall j | 0 <= j < |picks|
      ensures PickAt(store, keys, nodes, Shifted(picks), j)
    {
      assert PickAt(store, keys[1..], nodes, picks, j);
    }
    forall i: nat
      ensures i in Shifted(picks) <==> 0 < i < Fetched(store, keys) && Within(store[keys[i]].creationEpoch, lo, hi)
    {
      ShiftedMember(picks, i);
      if i > 0 {
        assert i - 1 in picks <==>
          i - 1 < Fetched(store, keys[1..]) && Within(store[keys[1..][i - 1]].creationEpoch, lo, hi);
      }
    }
  }

  /**
   * Which nodes these are: of the nodes that can be fetched one after the other, exactly those come out, in
   * order, that were created neither before a positive lo nor after a positive hi.
   */
  lemma {:induction false} FilterPicks(store: Store, keys: seq<Bytes>, lo: int, hi: int)
    returns (picks: seq<nat>)
    ensures Picks(store, keys, lo, hi, Filter(store, keys, lo, hi), picks)
  {
    if keys == [] || keys[0] !in store {
      picks := [];
    } else {
      var nodes := Filter(store, keys[1..], lo, hi);
      var later := FilterPicks(store, keys[1..], lo, hi);
      PicksLater(store, keys, lo, hi, nodes, later);
      picks := Shifted(later);
      if InRange(store[keys[0]], lo, hi) {
        PicksFirst(store, keys, nodes, picks);
        picks := [0] + picks;
      } else {
        assert [] + nodes == nodes;
      }
    }
  }

  lemma PicksFirst(store: Store, keys: seq<Bytes>, nodes: seq<Metadata>, picks: seq<nat>)
    requires keys != [] && keys[0] in store && |picks| == |nodes|
    requires forall j :: 0 <= j < |picks| ==> PickAt(store, keys, nodes, picks, j)
    ensures forall j :: 0 <= j <= |picks| ==> PickAt(store, keys, [store[keys[0]]] + nodes, [0] + picks, j)
  {
    forall j | 0 < j <= |picks|
      ensures PickAt(store, keys, [store[keys[0]]] + nodes, [0] + picks, j)
    {
      assert PickAt(store, keys, nodes, picks, j - 1);
    }
  }

  lemma {:induction false} FilterNone(store: Store, keys: seq<Bytes>, lo: int, hi: int)
    requires forall i :: 0 <= i < |keys| && keys[i] in store ==> !InRange(store[keys[i]], lo, hi)
    ensures Filter(store, keys, lo, hi) == []
  {
    if keys != [] && keys[0] in store {
      FilterNone(store, keys[1..], lo, hi);
    }
  }

  lemma {:induction false} FilterOne(store: Store, key: Bytes, lo: int, hi: int)
    requires key in store
    ensures Filter(store, [key], lo, hi) == if InRange(store[key], lo, hi) then [store[key]] else []
  {
    var one: seq<Bytes> := [key];
    assert one[1..] == [];
  }

  lemma {:induction false} FilterFirst(store: Store, keys: seq<Bytes>, lo: int, hi: int)
    requires keys != [] && keys[0] in store
    ensures Filter(store, keys, lo, hi) ==
            (if InRange(store[keys[0]], lo, hi) then [store[keys[0]]] else []) + Filter(store, keys[1..], lo, hi)
  {
  }

  lemma {:induction false} FilterConcat(store: Store, a: seq<Bytes>, b: seq<Bytes>, lo: int, hi: int)
    requires Known(store, a)
    ensures Filter(store, a + b, lo, hi) == Filter(store, a, lo, hi) + Filter(store, b, lo, hi)
  {
    var c := a + b;
    if a == [] {
      assert c == b;
    } else {
      assert c[0] == a[0] && c[1..] == a[1..] + b;
      FilterConcat(store, a[1..], b, lo, hi);
      FilterFirst(store, a, lo, hi);
      FilterFirst(store, c, lo, hi);
    }
  }

  function Reverse<T>(s: seq<T>): (r: seq<T>)
    ensures |r| == |s| && forall i :: 0 <= i < |s| ==> r[i] == s[|s| - 1 - i]
  {
    if s == [] then [] else Reverse(s[1..]) + [s[0]]
  }

  lemma {:induction false} FilterReverse(store: Store, keys: seq<Bytes>, lo: int, hi: int)
    requires Known(store, keys)
    ensures Filter(store, Reverse(keys), lo, hi) == Reverse(Filter(store, keys, lo, hi))
  {
    if keys != [] {
      var first := store[keys[0]];
      FilterReverse(store, keys[1..], lo, hi);
      FilterConcat(store, Reverse(keys[1..]), [keys[0]], lo, hi);
      FilterOne(store, keys[0], lo, hi);
      if InRange(first, lo, hi) {
        assert ([first] + Filter(store, keys[1..], lo, hi))[1..] == Filter(store, keys[1..], lo, hi);
      }
    }
  }

  // ---------------------------------------------------------------- starting a traversal

  datatype TraverseError = NilKey | InvalidEpochRange

  datatype Started = Started(fromEpoch: int, toEpoch: int) | Refused(error: TraverseError)

  function Unbounded(epoch: int): int { if epoch <= 0 then -1 else epoch }

  function StartForward(startKey: Bytes, fromEpoch: int, toEpoch: int): Started {
    if startKey == [] then Refused(NilKey)
    else
      var lo, hi := Unbounded(fromEpoch), Unbounded(toEpoch);
      if hi != -1 && lo > hi then Refused(InvalidEpochRange) else Started(lo, hi)
  }

  function StartBackward(startKey: Bytes, fromEpoch: int, toEpoch: int): Started {
    if startKey == [] then Refused(NilKey)
    else
      var hi, lo := Unbounded(fromEpoch), Unbounded(toEpoch);
      if hi != -1 && lo > hi then Refused(InvalidEpochRange) else Started(hi, lo)
  }

  /** A traversal is refused exactly if there is no key, or a range in which nothing can be. */
  lemma RefusedIff(startKey: Bytes, lo: int, hi: int)
    ensures StartForward(startKey, lo, hi).Refused? <==> startKey == [] || (lo > hi > 0)
    ensures StartForward(startKey, lo, hi) == Refused(NilKey) <==> startKey == []
    ensures StartBackward(startKey, hi, lo) == Refused(NilKey) <==> startKey == []
    ensures StartBackward(startKey, hi, lo).Refused? <==> StartForward(startKey, lo, hi).Refused?
    ensures lo > hi > 0 ==> forall m: Metadata :: !InRange(m, lo, hi)
  {
  }

  /** The bounds the iterators use mean the same as those that were given. */
  lemma {:induction false} SameBounds(store: Store, keys: seq<Bytes>, lo: int, hi: int)
    ensures Filter(store, keys, Unbounded(lo), Unbounded(hi)) == Filter(store, keys, lo, hi)
  {
    if keys != [] && keys[0] in store {
      SameBounds(store, keys[1..], lo, hi);
    }
  }

  // ---------------------------------------------------------------- forward

  /** The nodes in range from position pos of the chain on, up to the first that cannot be fetched. */
  function Onward(store: Store, chain: seq<Bytes>, pos: nat, lo: int, hi: int): seq<Metadata>
    requires pos <= |chain|
    decreases |chain| - pos
  {
    if pos == |chain| || chain[pos] !in store then []
    else
      (if InRange(store[chain[pos]], lo, hi) then [store[chain[pos]]] else []) + Onward(store, chain, pos + 1, lo, hi)
  }

  lemma {:induction false} OnwardFilters(store: Store, chain: seq<Bytes>, pos: nat, lo: int, hi: int)
    requires pos <= |chain|
    ensures Onward(store, chain, pos, lo, hi) == Filter(store, chain[pos..], lo, hi)
    decreases |chain| - pos
  {
    if pos < |chain| {
      assert chain[pos..][0] == chain[pos] && chain[pos..][1..] == chain[pos + 1..];
      OnwardFilters(store, chain, pos + 1, lo, hi);
    }
  }

  /** The key behind a node that was fetched is the next one of the chain. */
  lemma NextOnChain(store: Store, chain: seq<Bytes>, pos: nat)
    requires Chain(store, chain) && pos < |chain| && chain[pos] in store
    ensures store[chain[pos]].nextKey == (if pos + 1 < |chain| then chain[pos + 1] else [])
  {
  }

  /** Once a node is too young, all later ones are. */
  lemma {:induction false} NoneLater(store: Store, chain: seq<Bytes>, pos: nat, hi: int, lo: int, young: nat)
    requires Chain(store, chain) && young <= pos <= |chain| && young < |chain| && chain[young] in store
    requires hi > 0 && store[chain[young]].creationEpoch > hi
    ensures Onward(store, chain, pos, lo, hi) == []
    decreases |chain| - pos
  {
    if pos < |chain| && chain[pos] in store {
      assert young < pos ==> store[chain[young]].creationEpoch <= store[chain[pos]].creationEpoch;
      NoneLater(store, chain, pos + 1, hi, lo, young);
    }
  }

  /** nextKey is empty when the iterator is exhausted. pos is where on the chain the iterator is. */
  class ForwardIterator {
    const store: Store
    const fromEpoch: int
    const toEpoch: int
    var nextKey: Bytes
    var md: Option<Metadata>
    ghost const chain: seq<Bytes>
    ghost var pos: nat

    ghost predicate Valid()
      reads this
    {
      && Chain(store, chain) && pos <= |chain|
      && nextKey == (if pos < |chain| then chain[pos] else [])
      && (fromEpoch == -1 || fromEpoch > 0) && (toEpoch == -1 || toEpoch > 0)
    }

    /** What the iterator has yet to yield. */
    ghost function Pending(): seq<Metadata>
      requires Valid()
      reads this
    {
      Onward(store, chain, pos, fromEpoch, toEpoch)
    }

    constructor (store: Store, ghost chain: seq<Bytes>, ghost start: nat, startKey: Bytes, fromEpoch: int, toEpoch: int)
      requires Chain(store, chain) && start < |chain| && startKey == chain[start]
      requires (fromEpoch == -1 || fromEpoch > 0) && (toEpoch == -1 || toEpoch > 0)
      ensures Valid() && this.store == store && this.chain == chain && pos == start
      ensures this.fromEpoch == fromEpoch && this.toEpoch == toEpoch
    {
      this.store, this.chain, this.fromEpoch, this.toEpoch := store, chain, fromEpoch, toEpoch;
      nextKey, md, pos := startKey, None, start;
    }

    /** A node that cannot be fetched, or is too young, ends the traversal; nodes that are too old are passed by. */
    method Next() returns (ok: bool)
      requires Valid()
      modifies this`nextKey, this`md, this`pos
      ensures Valid() && pos >= old(pos)
      ensures ok ==> md.Some? && old(Pending()) == [md.value] + Pending() && pos > old(pos)
      ensures !ok ==> old(Pending()) == [] && Pending() == []
    {
      while nextKey != []
        invariant Valid() && Pending() == old(Pending()) && pos >= old(pos)
        decreases |chain| - pos
      {
        if nextKey !in store {
          return false;
        }
        var m := store[nextKey];
        if toEpoch != -1 && m.creationEpoch > toEpoch {
          NoneLater(store, chain, pos, toEpoch, fromEpoch, pos);
          nextKey, pos := [], |chain|;
          return false;
        }
        NextOnChain(store, chain, pos);
        nextKey, pos := m.nextKey, pos + 1;
        if fromEpoch != -1 && m.creationEpoch < fromEpoch {
          continue;
        }
        md := Some(m);
        return true;
      }
      ok := false;
    }

    /** Repeated Next terminates, and yields all that is pending. */
    method Drain() returns (nodes: seq<Metadata>)
      requires Valid()
      modifies this`nextKey, this`md, this`pos
      ensures Valid() && nodes == old(Pending()) && Pending() == []
    {
      nodes := [];
      var more := true;
      while more
        invariant Valid() && old(Pending()) == nodes + Pending()
        invariant !more ==> Pending() == []
        decreases |chain| - pos, more
      {
        more := Next();
        if more {
          nodes := nodes + [md.value];
        }
      }
    }
  }

  /** Repeated Next yields exactly the nodes in range, from the start on, in order. */
  method TraverseAll(
    store: Store, ghost chain: seq<Bytes>, ghost start: nat, startKey: Bytes, lo: int, hi: int)
    returns (nodes: seq<Metadata>)
    requires Chain(store, chain) && start < |chain| && startKey == chain[start]
    requires StartForward(startKey, lo, hi).Started?
    ensures nodes == Filter(store, chain[start..], lo, hi)
  {
    var s := StartForward(startKey, lo, hi);
    SameBounds(store, chain[start..], lo, hi);
    OnwardFilters(store, chain, start, s.fromEpoch, s.toEpoch);
    var it := new ForwardIterator(store, chain, start, startKey, s.fromEpoch, s.toEpoch);
    nodes := it.Drain();
  }

  // ---------------------------------------------------------------- backward

  /** The nodes in range before position left of the chain, the last one first, as far as they can be fetched. */
  function Back(store: Store, chain: seq<Bytes>, left: nat, lo: int, hi: int): seq<Metadata>
    requires left <= |chain|
  {
    if left == 0 || chain[left - 1] !in store then []
    else
      (if InRange(store[chain[left - 1]], lo, hi) then [store[chain[left - 1]]] else []) +
      Back(store, chain, left - 1, lo, hi)
  }

  lemma {:induction false} BackFilters(store: Store, chain: seq<Bytes>, left: nat, lo: int, hi: int)
    requires left <= |chain|
    ensures Back(store, chain, left, lo, hi) == Filter(store, Reverse(chain[..left]), lo, hi)
  {
    if left > 0 {
      var all, rest := Reverse(chain[..left]), Reverse(chain[..left - 1]);
      assert all[0] == chain[left - 1] && all[1..] == rest;
      BackFilters(store, chain, left - 1, lo, hi);
    }
  }

  lemma PreviousOnChain(store: Store, chain: seq<Bytes>, left: nat)
    requires Chain(store, chain) && 0 < left <= |chain| && chain[left - 1] in store
    ensures store[chain[left - 1]].previousKey == (if left > 1 then chain[left - 2] else [])
  {
  }

  /** Once a node is too old, all earlier ones are. */
  lemma {:induction false} NoneEarlier(store: Store, chain: seq<Bytes>, left: nat, lo: int, hi: int, aged: nat)
    requires Chain(store, chain) && left <= aged <= |chain| && 0 < aged && chain[aged - 1] in store
    requires lo > 0 && store[chain[aged - 1]].creationEpoch < lo
    ensures Back(store, chain, left, lo, hi) == []
  {
    if left > 0 && chain[left - 1] in store {
      assert left < aged ==> store[chain[left - 1]].creationEpoch <= store[chain[aged - 1]].creationEpoch;
      NoneEarlier(store, chain, left - 1, lo, hi, aged);
    }
  }

  /** previousKey is empty when the iterator is exhausted. left is how much of the chain is left. */
  class BackwardIterator {
    const store: Store
    const fromEpoch: int
    const toEpoch: int
    var previousKey: Bytes
    var md: Option<Metadata>
    ghost const chain: seq<Bytes>
    ghost var left: nat

    ghost predicate Valid()
      reads this
    {
      && Chain(store, chain) && left <= |chain|
      && previousKey == (if left > 0 then chain[left - 1] else [])
      && (fromEpoch == -1 || fromEpoch > 0) && (toEpoch == -1 || toEpoch > 0)
    }

    /** What the iterator has yet to yield. */
    ghost function Pending(): seq<Metadata>
      requires Valid()
      reads this
    {
      Back(store, chain, left, toEpoch, fromEpoch)
    }

    constructor (store: Store, ghost chain: seq<Bytes>, ghost start: nat, startKey: Bytes, fromEpoch: int, toEpoch: int)
      requires Chain(store, chain) && start < |chain| && startKey == chain[start]
      requires (fromEpoch == -1 || fromEpoch > 0) && (toEpoch == -1 || toEpoch > 0)
      ensures Valid() && this.store == store && this.chain == chain && left == start + 1
      ensures this.fromEpoch == fromEpoch && this.toEpoch == toEpoch
    {
      this.store, this.chain, this.fromEpoch, this.toEpoch := store, chain, fromEpoch, toEpoch;
      previousKey, md, left := startKey, None, start + 1;
    }

    /** A node that cannot be fetched, or is too old, ends the traversal; nodes that are too young are passed by. */
    method Next() returns (ok: bool)
      requires Valid()
      modifies this`previousKey, this`md, this`left
      ensures Valid() && left <= old(left)
      ensures ok ==> md.Some? && old(Pending()) == [md.value] + Pending() && left < old(left)
      ensures !ok ==> old(Pending()) == [] && Pending() == []
    {
      while previousKey != []
        invariant Valid() && Pending() == old(Pending()) && left <= old(left)
        decreases left
      {
        if previousKey !in store {
          return false;
        }
        var m := store[previousKey];
        if toEpoch != -1 && m.creationEpoch < toEpoch {
          NoneEarlier(store, chain, left, toEpoch, fromEpoch, left);
          previousKey, left := [], 0;
          return false;
        }
        PreviousOnChain(store, chain, left);
        previousKey, left := m.previousKey, left - 1;
        if fromEpoch != -1 && m.creationEpoch > fromEpoch {
          continue;
        }
        md := Some(m);
        return true;
      }
      ok := false;
    }

    /** Repeated Next terminates, and yields all that is pending. */
    method Drain() returns (nodes: seq<Metadata>)
      requires Valid()
      modifies this`previousKey, this`md, this`left
      ensures Valid() && nodes == old(Pending()) && Pending() == []
    {
      nodes := [];
      var more := true;
      while more
        invariant Valid() && old(Pending()) == nodes + Pending()
        invariant !more ==> Pending() == []
        decreases left, more
      {
        more := Next();
        if more {
          nodes := nodes + [md.value];
        }
      }
    }
  }

  /** Repeated Next yields exactly the nodes in range, from the start back to the head. */
  method TraversePostOrderAll(
    store: Store, ghost chain: seq<Bytes>, ghost start: nat, startKey: Bytes, hi: int, lo: int)
    returns (nodes: seq<Metadata>)
    requires Chain(store, chain) && start < |chain| && startKey == chain[start]
    requires StartBackward(startKey, hi, lo).Started?
    ensures nodes == Filter(store, Reverse(chain[..start + 1]), lo, hi)
  {
    var s := StartBackward(startKey, hi, lo);
    SameBounds(store, Reverse(chain[..start + 1]), lo, hi);
    BackFilters(store, chain, start + 1, s.toEpoch, s.fromEpoch);
    var it := new BackwardIterator(store, chain, start, startKey, s.fromEpoch, s.toEpoch);
    nodes := it.Drain();
  }

  // ---------------------------------------------------------------- main results

  /** Backward from the tail with the bounds swapped is the reverse of forward from the head. */
  method BackwardMirrorsForward(store: Store, chain: seq<Bytes>, lo: int, hi: int)
    returns (forward: seq<Metadata>, backward: seq<Metadata>)
    requires Chain(store, chain) && Known(store, chain) && chain != [] && !(lo > hi > 0)
    ensures forward == Filter(store, chain, lo, hi)
    ensures backward == Reverse(forward)
  {
    var last := |chain| - 1;
    assert chain[0..] == chain && chain[..last + 1] == chain;
    forward := TraverseAll(store, chain, 0, chain[0], lo, hi);
    backward := TraversePostOrderAll(store, chain, last, chain[last], hi, lo);
    FilterReverse(store, chain, lo, hi);
  }

  /** The nodes of a list that are in range. */
  function Selected(nodes: seq<Metadata>, lo: int, hi: int): seq<Metadata> {
    if nodes == [] then []
    else (if InRange(nodes[0], lo, hi) then [nodes[0]] else []) + Selected(nodes[1..], lo, hi)
  }

  /** The nodes without their links to the next one. */
  function Unlinked(nodes: seq<Metadata>): seq<Metadata> {
    seq(|nodes|, i requires 0 <= i < |nodes| => nodes[i].(nextKey := []))
  }

  /** Linking changes nothing of a node but its link. */
  lemma {:induction false} OnwardSelects(store: Store, nodes: seq<Metadata>, pos: nat, lo: int, hi: int)
    requires Placed(store, nodes) && pos <= |nodes|
    ensures Unlinked(Onward(store, KeysOf(nodes), pos, lo, hi)) == Selected(nodes[pos..], lo, hi)
    decreases |nodes| - pos
  {
    PlacedKeys(store, nodes);
    if pos < |nodes| {
      var keys, rest := KeysOf(nodes), nodes[pos..];
      OnwardSelects(store, nodes, pos + 1, lo, hi);
      assert rest[0] == nodes[pos] && rest[1..] == nodes[pos + 1..];
      assert InRange(store[keys[pos]], lo, hi) == InRange(nodes[pos], lo, hi);
      UnlinkedCons(store[keys[pos]], Onward(store, keys, pos + 1, lo, hi));
      assert [] + Onward(store, keys, pos + 1, lo, hi) == Onward(store, keys, pos + 1, lo, hi);
      assert [] + Selected(nodes[pos + 1..], lo, hi) == Selected(nodes[pos + 1..], lo, hi);
    }
  }

  lemma UnlinkedCons(node: Metadata, rest: seq<Metadata>)
    ensures Unlinked([node] + rest) == [node.(nextKey := [])] + Unlinked(rest)
  {
  }

  /**
   * Traversing a chain that was built by tail appends yields exactly the appended nodes in range, in order and
   * unchanged but for their links to the next node.
   */
  method TraverseAppended(base: Store, nodes: seq<Metadata>, start: nat, lo: int, hi: int)
    returns (yielded: seq<Metadata>)
    requires Appends(base, nodes) && start < |nodes| && !(lo > hi > 0)
    ensures Unlinked(yielded) == Selected(nodes[start..], lo, hi)
  {
    var store, keys := Built(base, nodes), KeysOf(nodes);
    BuiltIsChain(base, nodes);
    NewKeysDistinct(base, nodes);
    OnwardSelects(store, nodes, start, lo, hi);
    OnwardFilters(store, keys, start, lo, hi);
    yielded := TraverseAll(store, keys, start, keys[start], lo, hi);
  }
}
