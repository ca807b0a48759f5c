/**
 * Which shards a write may use, and in which order: the cluster's listed shards without the excluded
 * ones (client/datastor/grpc/cluster.go), handed out by an iterator that draws without replacement
 * (client/datastor/cluster.go).
 */
module ShardCluster {
  import opened Lists
  import opened Metatypes
  import opened Distributed
  import Erasure

  // ---------------------------------------------------------------- the listed shards that remain

  function Filtered(listed: seq<Shard>, except: set<Bytes>): seq<Shard> {
    if listed == [] then []
    else
      var last := listed[|listed| - 1];
      Filtered(listed[..|listed| - 1], except) + if last.id in except then [] else [last]
  }

  function Ids(ids: seq<Bytes>): set<Bytes> { set id | id in ids }

  method FilteredSlice(listed: seq<Shard>, exceptShards: seq<Bytes>) returns (slice: seq<Shard>)
    ensures slice == Filtered(listed, Ids(exceptShards))
  {
    var except: set<Bytes> := {};
    if exceptShards == [] {
      FilteredNone(listed);
      assert Ids(exceptShards) == {};
      return listed;
    }
    for i := 0 to |exceptShards|
      invariant except == Ids(exceptShards[..i])
    {
      assert exceptShards[..i + 1] == exceptShards[..i] + [exceptShards[i]];
      except := except + {exceptShards[i]};
    }
    assert exceptShards[..|exceptShards|] == exceptShards;
    slice := [];
    for i := 0 to |listed|
      invariant slice == Filtered(listed[..i], except)
    {
      assert listed[..i + 1][..i] == listed[..i];
      if listed[i].id !in except {
        slice := slice + [listed[i]];
      }
    }
    assert listed[..|listed|] == listed;
  }

  lemma {:induction false} FilteredNone(listed: seq<Shard>)
    ensures Filtered(listed, {}) == listed
  {
    if listed != [] {
      FilteredNone(listed[..|listed| - 1]);
    }
  }

  /** The slice holds exactly the listed shards that are not excluded. */
  lemma {:induction false} FilteredExact(listed: seq<Shard>, except: set<Bytes>, x: Shard)
    ensures x in Filtered(listed, except) <==> x in listed && x.id !in except
  {
    if listed != [] {
      FilteredExact(listed[..|listed| - 1], except, x);
      assert listed == listed[..|listed| - 1] + [listed[|listed| - 1]];
    }
  }

  /** A cluster without some of its shards still lists no shard twice. */
  lemma {:induction false} FilteredCluster(listed: seq<Shard>, except: set<Bytes>)
    requires Cluster(listed)
    ensures Cluster(Filtered(listed, except))
  {
    if listed != [] {
      var rest, last := listed[..|listed| - 1], listed[|listed| - 1];
      FilteredCluster(rest, except);
      var kept := Filtered(rest, except);
      forall j | 0 <= j < |kept|
        ensures kept[j].id != last.id
      {
        FilteredExact(rest, except, kept[j]);
      }
    }
  }

  // ---------------------------------------------------------------- the random iterator

  /** Draws a random shard among those not drawn yet, by swapping it to the end of that part. */
  class RandomShardIterator {
    const slice: array<Shard>
    var length: nat
    var current: Option<Shard>

    ghost predicate Valid()
      reads this
    {
      length <= slice.Length
    }

    /** What has been handed out, the last one first. */
    ghost function Drawn(): seq<Shard>
      requires Valid()
      reads this, slice
    {
      slice[length..]
    }

    constructor (slice: array<Shard>)
      ensures Valid() && this.slice == slice && Drawn() == [] && length == slice.Length
    {
      this.slice := slice;
      length, current := slice.Length, None;
    }

    /** index is the random choice. */
    method Next(index: nat) returns (ok: bool)
      requires Valid() && (length > 0 ==> index < length)
      modifies this`length, this`current, slice
      ensures Valid()
      ensures ok <==> old(length) > 0
      ensures length == old(length) - if ok then 1 else 0
      ensures ok ==> current == Some(old(slice[index])) && Drawn() == [old(slice[index])] + old(Drawn())
      ensures !ok ==> current == old(current) && Drawn() == old(Drawn())
      ensures multiset(slice[..]) == old(multiset(slice[..]))
    {
      if length < 1 {
        return false;
      }
      length := length - 1;
      slice[index], slice[length] := slice[length], slice[index];
      current := Some(slice[length]);
      ok := true;
    }
  }

  /**
   * The goroutine behind a shard channel, left to run: whatever the random choices, it hands out every
   * shard of the slice exactly once.
   */
  method DrawAll(slice: array<Shard>, pick: nat -> nat) returns (order: seq<Shard>)
    modifies slice
    ensures multiset(order) == old(multiset(slice[..]))
  {
    var it := new RandomShardIterator(slice);
    ghost var all := multiset(slice[..]);
    order := [];
    var more := true;
    while more
      invariant it.Valid() && it.slice == slice && fresh(it)
      invariant |order| == slice.Length - it.length
      invariant forall i :: 0 <= i < |order| ==> order[i] == it.Drawn()[|order| - 1 - i]
      invariant multiset(slice[..]) == all
      invariant !more ==> it.length == 0
      decreases it.length, more
    {
      ghost var drawn := it.Drawn();
      more := it.Next(if it.length == 0 then 0 else pick(it.length) % it.length);
      if more {
        order := order + [it.current.value];
        assert it.Drawn() == [it.current.value] + drawn;
      }
    }
    assert it.Drawn() == slice[..];
    Mirrored(order, slice[..]);
  }

  lemma {:induction false} Mirrored(a: seq<Shard>, b: seq<Shard>)
    requires |a| == |b| && forall i :: 0 <= i < |a| ==> a[i] == b[|a| - 1 - i]
    ensures multiset(a) == multiset(b)
  {
    if a != [] {
      var n := |a| - 1;
      Mirrored(a[1..], b[..n]);
      assert a == [a[0]] + a[1..] && b == b[..n] + [b[n]];
    }
  }

  // ---------------------------------------------------------------- the order does not matter

  /** A possible order in which a write meets the shards it may use. */
  ghost predicate OrderOf(order: seq<Shard>, listed: seq<Shard>, except: set<Bytes>) {
    multiset(order) == multiset(Filtered(listed, except))
  }

  lemma {:induction false} ClusterMultiplicity(shards: seq<Shard>, x: Shard)
    requires Cluster(shards)
    ensures multiset(shards)[x] <= 1
  {
    if shards != [] {
      var rest, last := shards[..|shards| - 1], shards[|shards| - 1];
      ClusterMultiplicity(rest, x);
      assert shards == rest + [last];
      assert last !in rest;
    }
  }

  lemma PairMultiplicity(shards: seq<Shard>, i: nat, j: nat)
    requires i < j < |shards| && shards[i] == shards[j]
    ensures multiset(shards)[shards[i]] >= 2
  {
    assert shards == shards[..j] + [shards[j]] + shards[j + 1..];
    assert shards[i] in shards[..j];
  }

  lemma MemberOf(a: seq<Shard>, b: seq<Shard>, x: Shard)
    requires multiset(a) == multiset(b) && x in a
    ensures x in b
  {
    assert x in multiset(a);
  }

  lemma PermutedCluster(a: seq<Shard>, b: seq<Shard>)
    requires multiset(a) == multiset(b) && Cluster(b)
    ensures Cluster(a)
  {
    forall i, j | 0 <= i < j < |a|
      ensures a[i].id != a[j].id
    {
      MemberOf(a, b, a[i]);
      MemberOf(a, b, a[j]);
      if a[i] == a[j] {
        PairMultiplicity(a, i, j);
        ClusterMultiplicity(b, a[i]);
      }
    }
  }

  lemma {:induction false} AcceptConcat(a: seq<Shard>, b: seq<Shard>)
    ensures AcceptCount(a + b) == AcceptCount(a) + AcceptCount(b)
  {
    if b == [] {
      assert a + b == a;
    } else {
      var last := |b| - 1;
      AcceptConcat(a, b[..last]);
      AcceptSnoc(a + b[..last], b[last]);
      AcceptSnoc(b[..last], b[last]);
      assert a + b == a + b[..last] + [b[last]] && b == b[..last] + [b[last]];
    }
  }

  lemma AcceptSnoc(a: seq<Shard>, x: Shard)
    ensures AcceptCount(a + [x]) == AcceptCount(a) + if x.key.Some? then 1 else 0
  {
    assert Accepting(a + [x]) == Accepting(a) + [x.key.Some?];
    assert Accepting(a + [x])[..|a|] == Accepting(a);
  }

  lemma AcceptWithout(b: seq<Shard>, j: nat)
    requires j < |b|
    ensures AcceptCount(b) == AcceptCount(Without(b, j)) + if b[j].key.Some? then 1 else 0
  {
    assert b == (b[..j] + [b[j]]) + b[j + 1..];
    AcceptConcat(b[..j] + [b[j]], b[j + 1..]);
    AcceptSnoc(b[..j], b[j]);
    AcceptConcat(b[..j], b[j + 1..]);
  }

  lemma MultisetWithout(b: seq<Shard>, j: nat)
    requires j < |b|
    ensures multiset(Without(b, j)) == multiset(b) - multiset{b[j]}
  {
    assert b == b[..j] + ([b[j]] + b[j + 1..]);
  }

  lemma {:induction false} AcceptPermuted(a: seq<Shard>, b: seq<Shard>)
    requires multiset(a) == multiset(b)
    ensures AcceptCount(a) == AcceptCount(b)
    decreases |a|
  {
    if a == [] {
      assert |multiset(b)| == 0;
    } else {
      MemberOf(a, b, a[0]);
      var j :| 0 <= j < |b| && b[j] == a[0];
      MultisetWithout(a, 0);
      MultisetWithout(b, j);
      AcceptPermuted(Without(a, 0), Without(b, j));
      AcceptWithout(a, 0);
      AcceptWithout(b, j);
    }
  }

  /** Every order lists the same distinct shards and has the same number of accepting ones. */
  lemma {:induction false} OrderIrrelevant(order: seq<Shard>, listed: seq<Shard>, except: set<Bytes>)
    requires Cluster(listed) && OrderOf(order, listed, except)
    ensures Cluster(order) && AcceptCount(order) == AcceptCount(Filtered(listed, except))
    ensures forall i :: 0 <= i < |order| ==> order[i] in listed && order[i].id !in except
  {
    var slice := Filtered(listed, except);
    FilteredCluster(listed, except);
    PermutedCluster(order, slice);
    AcceptPermuted(order, slice);
    forall i | 0 <= i < |order|
      ensures order[i] in listed && order[i].id !in except
    {
      MemberOf(order, slice, order[i]);
      FilteredExact(listed, except, order[i]);
    }
  }

  /** WriteChunk on a cluster: the random order of its shards plays no part in whether it succeeds. */
  lemma WriteChunkOnCluster(
    c: Erasure.Code, listed: seq<Shard>, order: seq<Shard>, jobs: nat, data: Bytes,
    world: World, cfg: ChunkConfig, world': World, ok: bool)
    requires Erasure.Sound(c) && Cluster(listed) && OrderOf(order, listed, {}) && jobs >= 1
    requires WriteMayReturn(c, order, jobs, data, world, cfg, world', ok)
    ensures ok <==> data != [] && AcceptCount(listed) >= c.k + c.m
  {
    OrderIrrelevant(order, listed, {});
    FilteredNone(listed);
    WriteChunkExact(c, order, jobs, data, world, cfg, world', ok);
  }
}
