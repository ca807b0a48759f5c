/**
 * Erasure-coded chunks on a cluster of unreliable shards
 * (client/datastor/pipeline/storage/distributed.go).
 */
module Distributed {
  import opened Metatypes
  import opened Erasure
  import opened Network
  import NetworkSafety
  import NetworkProgress
  import Race
  import opened Scatter

  /** What can be read: objects whose shard answers and whose status is OK. */
  type World = map<Object, Bytes>

  function Readable(world: World, objects: seq<Object>): nat {
    if objects == [] then 0 else Readable(world, objects[1..]) + if objects[0] in world then 1 else 0
  }

  /** Whatever is left of the objects of this chunk is what was written there. */
  ghost predicate Holds(world: World, objects: seq<Object>, parts: seq<Bytes>) {
    |objects| == |parts| && forall i :: 0 <= i < |objects| && objects[i] in world ==> world[objects[i]] == parts[i]
  }

  // ---------------------------------------------------------------- reading

  /** A part travels from its object's address to its data. */
  datatype Piece = Wanted(address: Object) | Got(data: Bytes)

  function Fetch(world: World): (nat, nat, Piece) -> Outcome<Piece> {
    (k: nat, i: nat, x: Piece) => if x.Wanted? && x.address in world then Emit(Got(world[x.address])) else Skip
  }

  function EnoughParts(k: nat): seq<Item<Piece>> -> Verdict {
    (q: seq<Item<Piece>>) => if |q| == k then Stop else Continue
  }

  /** The goroutines of ReadChunk: the collector leaves once it has k parts. */
  function ReadPlan(k: nat, world: World, objects: seq<Object>, jobs: nat): Plan<Piece> {
    var n := Limited(jobs, |objects|);
    Plan(seq(|objects|, i requires 0 <= i < |objects| => Wanted(objects[i])), false, n, [StagePlan(n, n)],
         true, true, Fetch(world), EnoughParts(k), NeverFails())
  }

  function SlotOf(): Item<Piece> -> Option<Bytes> {
    (x: Item<Piece>) => if x.value.Got? then Some(x.value.data) else None
  }

  function Empty(n: nat): Slots { seq(n, _ => None) }

  /** The collector of ReadChunk: store the parts in their slots, until k have arrived. */
  method CollectParts(arrivals: seq<Item<Piece>>, n: nat, k: nat) returns (slots: Slots, count: nat)
    requires Fits(n, arrivals, IndexOf())
    requires forall j :: 0 <= j < |arrivals| ==> arrivals[j].value.Got?
    ensures count == if 0 < k <= |arrivals| then k else |arrivals|
    ensures slots == Scattered(Empty(n), arrivals[..count], IndexOf(), SlotOf())
  {
    var parts := new Option<Bytes>[n](_ => None);
    count := 0;
    assert parts[..] == Empty(n);
    for i := 0 to |arrivals|
      invariant count == i && (k > 0 ==> i < k)
      invariant Fits(n, arrivals[..i], IndexOf())
      invariant parts[..] == Scattered(Empty(n), arrivals[..i], IndexOf(), SlotOf())
    {
      var x := arrivals[i];
      ScatteredSnoc(Empty(n), arrivals[..i], x, IndexOf(), SlotOf());
      assert arrivals[..i] + [x] == arrivals[..i + 1];
      parts[x.index] := Some(x.value.data);
      count := count + 1;
      if count == k {
        return parts[..], count;
      }
    }
    assert arrivals[..|arrivals|] == arrivals;
    slots := parts[..];
  }

  /** What ReadChunk returns once its collector has left its loop. */
  ghost function ReadOutcome(c: Code, objects: seq<Object>, size: nat, received: seq<Item<Piece>>): Result<Bytes>
    requires Fits(|objects|, received, IndexOf())
  {
    if |received| < c.k then Failure(ShardsUnavailable)
    else match Decoded(c, Scattered(Empty(|objects|), received, IndexOf(), SlotOf()), size)
      case None => Failure(CodingFailed)
      case Some(data) => Success(data)
  }

  /** r is a possible answer of ReadChunk, under some schedule of its goroutines. */
  ghost predicate ReadMayReturn(c: Code, world: World, cfg: ChunkConfig, jobs: nat, r: Result<Bytes>) {
    if |cfg.objects| != c.k + c.m then r == Failure(UnexpectedObjectCount)
    else
      exists s :: Reachable(ReadPlan(c.k, world, cfg.objects, jobs), s) && !s.sink.Draining? &&
        Fits(|cfg.objects|, s.received, IndexOf()) && cfg.size >= 0 &&
        r == ReadOutcome(c, cfg.objects, cfg.size, s.received)
  }

  ghost function ReadableSet(world: World, objects: seq<Object>): set<nat> {
    set i: nat | i < |objects| && objects[i] in world
  }

  lemma {:induction false} ReadableCount(world: World, objects: seq<Object>)
    ensures |ReadableSet(world, objects)| == Readable(world, objects)
    decreases |objects|
  {
    if objects == [] {
      assert ReadableSet(world, objects) == {};
    } else {
      var last := |objects| - 1;
      ReadableCount(world, objects[..last]);
      ReadableConcat(world, objects[..last], [objects[last]]);
      assert objects[..last] + [objects[last]] == objects;
      var earlier := ReadableSet(world, objects[..last]);
      assert ReadableSet(world, objects) == if objects[last] in world then earlier + {last} else earlier;
    }
  }

  lemma {:induction false} ReadableConcat(world: World, a: seq<Object>, b: seq<Object>)
    ensures Readable(world, a + b) == Readable(world, a) + Readable(world, b)
  {
    if a == [] {
      assert a + b == b;
    } else {
      assert (a + b)[1..] == a[1..] + b;
      ReadableConcat(world, a[1..], b);
    }
  }

  /** What the collector holds comes from distinct readable objects. */
  lemma ReceivedReadable(k: nat, world: World, objects: seq<Object>, jobs: nat, s: State<Piece>)
    requires objects != [] && jobs >= 1 && Reachable(ReadPlan(k, world, objects, jobs), s)
    ensures Fits(|objects|, s.received, IndexOf()) && Distinct(s.received, IndexOf())
    ensures forall j :: 0 <= j < |s.received| ==>
      objects[s.received[j].index] in world && s.received[j].value == Got(world[objects[s.received[j].index]])
    ensures Hits(s.received, IndexOf()) <= ReadableSet(world, objects) && |Hits(s.received, IndexOf())| == |s.received|
  {
    var p := ReadPlan(k, world, objects, jobs);
    NetworkSafety.ReceivedSound(p, s);
    forall j | 0 <= j < |s.received|
      ensures s.received[j].index < |objects|
      ensures objects[s.received[j].index] in world && s.received[j].value == Got(world[objects[s.received[j].index]])
    {
      OneStage(p, s.received[j].index);
    }
    DistinctCount(s.received, IndexOf());
  }

  /** Under every schedule the collector ends up with k parts, or with all there are if they are fewer. */
  lemma {:induction false} ReadCount(k: nat, world: World, objects: seq<Object>, jobs: nat, s: State<Piece>)
    requires objects != [] && jobs >= 1 && k >= 1
    requires Reachable(ReadPlan(k, world, objects, jobs), s) && !s.sink.Draining?
    ensures |s.received| == if Readable(world, objects) >= k then k else Readable(world, objects)
  {
    var p := ReadPlan(k, world, objects, jobs);
    ReceivedReadable(k, world, objects, jobs, s);
    NetworkSafety.ReceivedSound(p, s);
    ReadableCount(world, objects);
    SubsetSize(Hits(s.received, IndexOf()), ReadableSet(world, objects));
    if s.sink.Finished? {
      ShortOfK(k, p, s.received);
      NetworkSafety.InvReachable(p, s);
      forall i | i in ReadableSet(world, objects)
        ensures i in Hits(s.received, IndexOf())
      {
        OneStage(p, i);
        NeverFaulty(k, world, objects, jobs);
        NetworkSafety.OccMember(s.received, i);
        var j :| 0 <= j < |s.received| && s.received[j].index == i;
        assert IndexOf()(s.received[j]) == i;
      }
      SubsetSize(ReadableSet(world, objects), Hits(s.received, IndexOf()));
    }
  }

  /** A collector that was never told to stop has fewer than k parts. */
  lemma ShortOfK(k: nat, p: Plan<Piece>, q: seq<Item<Piece>>)
    requires k >= 1 && p.verdict == EnoughParts(k) && NetworkSafety.Patient(p, q, |q|)
    ensures |q| < k
  {
    var prefix := if k <= |q| then q[..k] else q;
    assert |q| >= k ==> |prefix| == k;
  }

  lemma NeverFaulty(k: nat, world: World, objects: seq<Object>, jobs: nat)
    ensures !NetworkSafety.Faulty(ReadPlan(k, world, objects, jobs))
  {
    var p := ReadPlan(k, world, objects, jobs);
    forall i | 0 <= i < |p.inputs|
      ensures !p.Result(i).Fail?
    {
      OneStage(p, i);
    }
  }

  lemma {:induction false} PresentUpdate(slots: Slots, i: nat, v: Bytes)
    requires i < |slots| && slots[i].None?
    ensures Present(slots[i := Some(v)]) == Present(slots) + 1
  {
    if i == 0 {
      assert slots[i := Some(v)][1..] == slots[1..];
    } else {
      assert slots[i := Some(v)][1..] == slots[1..][i - 1 := Some(v)];
      PresentUpdate(slots[1..], i - 1, v);
    }
  }

  lemma {:induction false} PresentEmpty(n: nat)
    ensures Present(Empty(n)) == 0
  {
    if n > 0 {
      assert Empty(n)[1..] == Empty(n - 1);
      PresentEmpty(n - 1);
    }
  }

  lemma {:induction false} PresentScattered(n: nat, q: seq<Item<Piece>>)
    requires Fits(n, q, IndexOf()) && Distinct(q, IndexOf())
    requires forall j :: 0 <= j < |q| ==> q[j].value.Got?
    ensures Present(Scattered(Empty(n), q, IndexOf(), SlotOf())) == |q|
  {
    if q == [] {
      PresentEmpty(n);
    } else {
      var p, x := q[..|q| - 1], q[|q| - 1];
      PresentScattered(n, p);
      ScatteredMiss(Empty(n), p, IndexOf(), SlotOf(), x.index);
      PresentUpdate(Scattered(Empty(n), p, IndexOf(), SlotOf()), x.index, x.value.data);
    }
  }

  /** The collected slots are survivors of the parts that were written. */
  lemma {:induction false} CollectedSurvive(world: World, objects: seq<Object>, parts: seq<Bytes>, q: seq<Item<Piece>>)
    requires Holds(world, objects, parts)
    requires Fits(|objects|, q, IndexOf()) && Distinct(q, IndexOf())
    requires forall j :: 0 <= j < |q| ==>
      objects[q[j].index] in world && q[j].value == Got(world[objects[q[j].index]])
    ensures Survivors(parts, Scattered(Empty(|objects|), q, IndexOf(), SlotOf()))
  {
    var slots := Scattered(Empty(|objects|), q, IndexOf(), SlotOf());
    forall i | 0 <= i < |slots|
      ensures slots[i] == None || slots[i] == Some(parts[i])
    {
      if j :| 0 <= j < |q| && IndexOf()(q[j]) == i {
        ScatteredHit(Empty(|objects|), q, IndexOf(), SlotOf(), j);
      } else {
        ScatteredMiss(Empty(|objects|), q, IndexOf(), SlotOf(), i);
      }
    }
  }

  /**
   * ReadChunk is exact: whatever the schedule and the jobs, it returns the chunk that was written if at
   * least k of its objects are readable, and reports unavailable shards otherwise.
   */
  lemma {:induction false} ReadChunkExact(
    c: Code, world: World, cfg: ChunkConfig, jobs: nat, data: Bytes, r: Result<Bytes>)
    requires Sound(c) && jobs >= 1 && data != [] && cfg.size == |data|
    requires Holds(world, cfg.objects, Encoded(c, data))
    requires ReadMayReturn(c, world, cfg, jobs, r)
    ensures r == if Readable(world, cfg.objects) >= c.k then Success(data) else Failure(ShardsUnavailable)
  {
    EncodedUniform(c, data);
    var objects := cfg.objects;
    var s :| Reachable(ReadPlan(c.k, world, objects, jobs), s) && !s.sink.Draining? &&
      Fits(|objects|, s.received, IndexOf()) && r == ReadOutcome(c, objects, cfg.size, s.received);
    ReadCount(c.k, world, objects, jobs, s);
    if Readable(world, objects) >= c.k {
      ReceivedReadable(c.k, world, objects, jobs, s);
      CollectedSurvive(world, objects, Encoded(c, data), s.received);
      PresentScattered(|objects|, s.received);
      DecodeInvertsEncode(c, data, Scattered(Empty(|objects|), s.received, IndexOf(), SlotOf()));
    }
  }

  /**
   * ReadChunk, whatever the objects hold: it refuses a wrong number of objects, reports unavailable shards
   * exactly if fewer than k objects are readable, and never returns data of another size.
   */
  lemma {:induction false} ReadRefusesIff(c: Code, world: World, cfg: ChunkConfig, jobs: nat, r: Result<Bytes>)
    requires c.k >= 1 && jobs >= 1 && ReadMayReturn(c, world, cfg, jobs, r)
    ensures r == Failure(UnexpectedObjectCount) <==> |cfg.objects| != c.k + c.m
    ensures r == Failure(ShardsUnavailable) <==> |cfg.objects| == c.k + c.m && Readable(world, cfg.objects) < c.k
    ensures r.Success? ==> |r.value| == cfg.size
  {
    if |cfg.objects| == c.k + c.m {
      var objects := cfg.objects;
      var s :| Reachable(ReadPlan(c.k, world, objects, jobs), s) && !s.sink.Draining? &&
        Fits(|objects|, s.received, IndexOf()) && cfg.size >= 0 &&
        r == ReadOutcome(c, objects, cfg.size, s.received);
      ReadCount(c.k, world, objects, jobs, s);
    }
  }

  // ---------------------------------------------------------------- writing

  /** A listed shard, and the key it gives an object it accepts in this operation. */
  datatype Shard = Shard(id: Bytes, key: Option<Bytes>)

  /** The shards of one iterator: each listed shard once, in some random order. */
  ghost predicate Cluster(shards: seq<Shard>) {
    forall i, j :: 0 <= i < j < |shards| ==> shards[i].id != shards[j].id
  }

  function Accepting(shards: seq<Shard>): seq<bool> {
    seq(|shards|, r requires 0 <= r < |shards| => shards[r].key.Some?)
  }

  /** The goroutines of WriteChunk: parts compete for shards. */
  function WritePlan(n: nat, shards: seq<Shard>, jobs: nat): Race.Plan {
    Race.Plan(n, Accepting(shards), Limited(jobs, n), Limited(jobs, n), true)
  }

  function ReqOf(): Race.Bid -> nat { (b: Race.Bid) => b.req }

  function ObjectOf(shards: seq<Shard>): Race.Bid -> Object {
    (b: Race.Bid) =>
      if b.res < |shards| && shards[b.res].key.Some? then Object(shards[b.res].key.value, shards[b.res].id)
      else Object([], [])
  }

  function Blank(n: nat): seq<Object> { seq(n, _ => Object([], [])) }

  /** The collector of WriteChunk: store the objects in the slots of their parts and count them. */
  method CollectObjects(results: seq<Race.Bid>, shards: seq<Shard>, n: nat) returns (objects: seq<Object>, count: nat)
    requires Fits(n, results, ReqOf())
    ensures count == |results|
    ensures objects == Scattered(Blank(n), results, ReqOf(), ObjectOf(shards))
  {
    var slots := new Object[n](_ => Object([], []));
    count := 0;
    assert slots[..] == Blank(n);
    for i := 0 to |results|
      invariant count == i && Fits(n, results[..i], ReqOf())
      invariant slots[..] == Scattered(Blank(n), results[..i], ReqOf(), ObjectOf(shards))
    {
      ScatteredSnoc(Blank(n), results[..i], results[i], ReqOf(), ObjectOf(shards));
      assert results[..i] + [results[i]] == results[..i + 1];
      slots[results[i].req] := ObjectOf(shards)(results[i]);
      count := count + 1;
    }
    assert results[..|results|] == results;
    objects := slots[..];
  }

  /** The shards after the given parts have been stored. */
  ghost function Stored(world: World, shards: seq<Shard>, parts: seq<Bytes>, bids: seq<Race.Bid>): World
    requires Fits(|parts|, bids, ReqOf())
  {
    if bids == [] then world
    else
      var b := bids[|bids| - 1];
      Stored(world, shards, parts, bids[..|bids| - 1])[ObjectOf(shards)(b) := parts[b.req]]
  }

  /**
   * cfg, world' and ok are a possible outcome of WriteChunk(data), under some schedule of its goroutines.
   * There is nothing to encode in empty data.
   */
  ghost predicate WriteMayReturn(
    c: Code, shards: seq<Shard>, jobs: nat, data: Bytes, world: World, cfg: ChunkConfig, world': World, ok: bool)
    requires c.k >= 1
  {
    var n := c.k + c.m;
    if data == [] then cfg == ChunkConfig(0, []) && world' == world && !ok
    else
      exists s :: Race.Reachable(WritePlan(n, shards, jobs), s) && s.done && Fits(n, s.received, ReqOf()) &&
        |Encoded(c, data)| == n &&
        cfg == ChunkConfig(|data|, Scattered(Blank(n), s.received, ReqOf(), ObjectOf(shards))) &&
        world' == Stored(world, shards, Encoded(c, data), s.received) &&
        ok == (|s.received| >= n)
  }

  function AcceptCount(shards: seq<Shard>): nat {
    Race.GoodCount(Accepting(shards))
  }

  lemma {:induction false} StoredHolds(world: World, shards: seq<Shard>, parts: seq<Bytes>, bids: seq<Race.Bid>, j: nat)
    requires Fits(|parts|, bids, ReqOf()) && j < |bids|
    requires forall i, k :: 0 <= i < k < |bids| ==> ObjectOf(shards)(bids[i]) != ObjectOf(shards)(bids[k])
    ensures ObjectOf(shards)(bids[j]) in Stored(world, shards, parts, bids)
    ensures Stored(world, shards, parts, bids)[ObjectOf(shards)(bids[j])] == parts[bids[j].req]
  {
    if j < |bids| - 1 {
      StoredHolds(world, shards, parts, bids[..|bids| - 1], j);
    }
  }

  /** Objects that were not written are left alone. */
  lemma {:induction false} StoredFrame(
    world: World, shards: seq<Shard>, parts: seq<Bytes>, bids: seq<Race.Bid>, o: Object)
    requires Fits(|parts|, bids, ReqOf())
    requires forall j :: 0 <= j < |bids| ==> ObjectOf(shards)(bids[j]) != o
    ensures Untouched(world, Stored(world, shards, parts, bids), o)
  {
    if bids != [] {
      StoredFrame(world, shards, parts, bids[..|bids| - 1], o);
    }
  }

  ghost predicate Untouched(world: World, world': World, o: Object) {
    (o in world' <==> o in world) && (o in world ==> world'[o] == world[o])
  }

  /** Shards give every object a key of its own. */
  ghost predicate NewKeys(shards: seq<Shard>, world: World) {
    forall i :: 0 <= i < |shards| && shards[i].key.Some? ==> Object(shards[i].key.value, shards[i].id) !in world
  }

  /** Nothing is lost. */
  ghost predicate Grows(world: World, world': World) { forall o :: o in world ==> o in world' && world'[o] == world[o] }

  lemma {:induction false} StoredGrows(
    shards: seq<Shard>, p: Race.Plan, q: seq<Race.Bid>, world: World, parts: seq<Bytes>)
    requires p.good == Accepting(shards) && Race.Matching(p, q) && p.requests == |parts| && NewKeys(shards, world)
    ensures Fits(|parts|, q, ReqOf()) && Grows(world, Stored(world, shards, parts, q))
  {
    assert Fits(|parts|, q, ReqOf());
    forall o | o in world
      ensures Untouched(world, Stored(world, shards, parts, q), o)
    {
      StoredFrame(world, shards, parts, q, o);
    }
  }

  /** Every object that was written is listed. */
  lemma {:induction false} AllListed(shards: seq<Shard>, n: nat, q: seq<Race.Bid>, j: nat)
    requires Fits(n, q, ReqOf()) && Distinct(q, ReqOf()) && j < |q|
    ensures ObjectOf(shards)(q[j]) in Scattered(Blank(n), q, ReqOf(), ObjectOf(shards))
  {
    ScatteredHit(Blank(n), q, ReqOf(), ObjectOf(shards), j);
    assert Scattered(Blank(n), q, ReqOf(), ObjectOf(shards))[q[j].req] == ObjectOf(shards)(q[j]);
  }

  /**
   * WriteChunk is exact: whatever the schedule, it succeeds if and only if there is data and at least k + m
   * listed shards accept the write, and then part i is in slot i and no two parts share a shard. Objects
   * that are not listed in the result are what they were.
   */
  lemma WriteChunkExact(
    c: Code, shards: seq<Shard>, jobs: nat, data: Bytes, world: World, cfg: ChunkConfig, world': World, ok: bool)
    requires Sound(c) && Cluster(shards) && jobs >= 1
    requires WriteMayReturn(c, shards, jobs, data, world, cfg, world', ok)
    ensures ok <==> data != [] && AcceptCount(shards) >= c.k + c.m
    ensures cfg.size == |data| && (data != [] ==> |cfg.objects| == c.k + c.m)
    ensures forall o :: o !in cfg.objects ==> Untouched(world, world', o)
    ensures NewKeys(shards, world) ==> Grows(world, world')
    ensures ok ==> forall i, j :: 0 <= i < j < |cfg.objects| ==> cfg.objects[i].shard != cfg.objects[j].shard
    ensures ok ==> forall i :: 0 <= i < |cfg.objects| ==>
      cfg.objects[i] in world' && world'[cfg.objects[i]] == Encoded(c, data)[i]
  {
    if data != [] {
      var n := c.k + c.m;
      var p := WritePlan(n, shards, jobs);
      var s :| Race.Reachable(p, s) && s.done && Fits(n, s.received, ReqOf()) && |Encoded(c, data)| == n &&
        cfg == ChunkConfig(|data|, Scattered(Blank(n), s.received, ReqOf(), ObjectOf(shards))) &&
        world' == Stored(world, shards, Encoded(c, data), s.received) &&
        ok == (|s.received| >= n);
      Race.RaceResult(p, s);
      Race.ResultsMatch(p, s);
      OthersUntouched(shards, p, s.received, world, Encoded(c, data));
      if NewKeys(shards, world) {
        StoredGrows(shards, p, s.received, world, Encoded(c, data));
      }
      if ok {
        EachPartPlaced(shards, p, s.received);
        EachPartStored(shards, p, s.received, world, Encoded(c, data));
      }
    }
  }

  lemma {:induction false} OthersUntouched(
    shards: seq<Shard>, p: Race.Plan, q: seq<Race.Bid>, world: World, parts: seq<Bytes>)
    requires Race.Matching(p, q) && p.requests == |parts|
    ensures Fits(|parts|, q, ReqOf())
    ensures
      var objects := Scattered(Blank(|parts|), q, ReqOf(), ObjectOf(shards));
      forall o :: o !in objects ==> Untouched(world, Stored(world, shards, parts, q), o)
  {
    assert Fits(|parts|, q, ReqOf()) && Distinct(q, ReqOf());
    var objects := Scattered(Blank(|parts|), q, ReqOf(), ObjectOf(shards));
    forall o | o !in objects
      ensures Untouched(world, Stored(world, shards, parts, q), o)
    {
      forall j | 0 <= j < |q|
        ensures ObjectOf(shards)(q[j]) != o
      {
        AllListed(shards, |parts|, q, j);
      }
      StoredFrame(world, shards, parts, q, o);
    }
  }

  /** With as many matched results as parts, every slot is filled by the result of its own part. */
  lemma SlotFilled(shards: seq<Shard>, p: Race.Plan, q: seq<Race.Bid>, i: nat) returns (j: nat)
    requires Race.Matching(p, q) && i < p.requests == |q|
    ensures Fits(|q|, q, ReqOf()) && j < |q| && q[j].req == i
    ensures Scattered(Blank(|q|), q, ReqOf(), ObjectOf(shards))[i] == ObjectOf(shards)(q[j])
  {
    assert Distinct(q, ReqOf());
    FullCoverage(q, ReqOf(), |q|, i);
    j :| 0 <= j < |q| && ReqOf()(q[j]) == i;
    ScatteredHit(Blank(|q|), q, ReqOf(), ObjectOf(shards), j);
  }

  lemma ShardsDiffer(shards: seq<Shard>, p: Race.Plan, q: seq<Race.Bid>)
    requires Cluster(shards) && p.good == Accepting(shards) && Race.Matching(p, q)
    ensures forall i, k :: 0 <= i < k < |q| ==> ObjectOf(shards)(q[i]).shard != ObjectOf(shards)(q[k]).shard
  {
  }

  lemma {:induction false} EachPartPlaced(shards: seq<Shard>, p: Race.Plan, q: seq<Race.Bid>)
    requires Cluster(shards) && p.good == Accepting(shards) && Race.Matching(p, q) && p.requests == |q|
    ensures Fits(|q|, q, ReqOf())
    ensures
      var objects := Scattered(Blank(|q|), q, ReqOf(), ObjectOf(shards));
      forall i, k :: 0 <= i < k < |q| ==> objects[i].shard != objects[k].shard
  {
    assert Fits(|q|, q, ReqOf());
    var objects := Scattered(Blank(|q|), q, ReqOf(), ObjectOf(shards));
    ShardsDiffer(shards, p, q);
    forall i, k | 0 <= i < k < |q|
      ensures objects[i].shard != objects[k].shard
    {
      var a := SlotFilled(shards, p, q, i);
      var b := SlotFilled(shards, p, q, k);
      assert a != b;
    }
  }

  lemma {:induction false} EachPartStored(
    shards: seq<Shard>, p: Race.Plan, q: seq<Race.Bid>, world: World, parts: seq<Bytes>)
    requires Cluster(shards) && p.good == Accepting(shards) && Race.Matching(p, q) && p.requests == |q| == |parts|
    ensures Fits(|q|, q, ReqOf())
    ensures
      var objects := Scattered(Blank(|q|), q, ReqOf(), ObjectOf(shards));
      var after := Stored(world, shards, parts, q);
      forall i :: 0 <= i < |q| ==> objects[i] in after && after[objects[i]] == parts[i]
  {
    assert Fits(|q|, q, ReqOf());
    var objects := Scattered(Blank(|q|), q, ReqOf(), ObjectOf(shards));
    var after := Stored(world, shards, parts, q);
    ShardsDiffer(shards, p, q);
    forall i | 0 <= i < |q|
      ensures objects[i] in after && after[objects[i]] == parts[i]
    {
      var j := SlotFilled(shards, p, q, i);
      StoredHolds(world, shards, parts, q, j);
    }
  }

  // ---------------------------------------------------------------- checking and repairing

  function Healthy(world: World, objects: seq<Object>): seq<bool> {
    seq(|objects|, i requires 0 <= i < |objects| => objects[i] in world)
  }

  /** The goroutines of CheckChunk: tokens compete for objects to confirm. */
  function CheckPlan(tokens: nat, world: World, objects: seq<Object>, jobs: nat): Race.Plan {
    Race.Plan(tokens, Healthy(world, objects), Limited(jobs, tokens), Limited(jobs, tokens), false)
  }

  function Verdicts(c: Code, confirmed: nat): CheckStatus {
    if confirmed == c.k + c.m then Optimal else if confirmed >= c.k then Valid else Invalid
  }

  /** r is a possible answer of CheckChunk, under some schedule of its goroutines. */
  ghost predicate CheckMayReturn(
    c: Code, world: World, cfg: ChunkConfig, jobs: nat, fast: bool, r: Result<CheckStatus>)
  {
    var tokens := if fast then c.k else c.k + c.m;
    if |cfg.objects| != c.k + c.m then r == Failure(UnexpectedObjectCount)
    else
      exists s :: Race.Reachable(CheckPlan(tokens, world, cfg.objects, jobs), s) && s.done &&
        r == Success(Verdicts(c, |s.received|))
  }

  lemma {:induction false} HealthyCount(world: World, objects: seq<Object>)
    ensures Race.GoodCount(Healthy(world, objects)) == Readable(world, objects)
    decreases |objects|
  {
    if objects != [] {
      var last := |objects| - 1;
      HealthyCount(world, objects[..last]);
      assert Healthy(world, objects)[..last] == Healthy(world, objects[..last]);
      ReadableConcat(world, objects[..last], [objects[last]]);
      assert objects[..last] + [objects[last]] == objects;
    }
  }

  /**
   * CheckChunk is exact: it refuses a wrong number of objects, and otherwise its answer depends on the number
   * of readable objects and on nothing else.
   */
  lemma {:induction false} CheckChunkExact(
    c: Code, world: World, cfg: ChunkConfig, jobs: nat, fast: bool, r: Result<CheckStatus>)
    requires c.k >= 1 && c.m >= 1 && jobs >= 1 && CheckMayReturn(c, world, cfg, jobs, fast, r)
    ensures r.Failure? <==> |cfg.objects| != c.k + c.m
    ensures r.Failure? ==> r.error == UnexpectedObjectCount
    ensures r.Success? ==> (r.value.Optimal? <==> !fast && Readable(world, cfg.objects) == c.k + c.m)
    ensures r.Success? ==> (r.value.Invalid? <==> Readable(world, cfg.objects) < c.k)
  {
    if |cfg.objects| == c.k + c.m {
      var tokens := if fast then c.k else c.k + c.m;
      var p := CheckPlan(tokens, world, cfg.objects, jobs);
      var s :| Race.Reachable(p, s) && s.done && r == Success(Verdicts(c, |s.received|));
      Race.RaceResult(p, s);
      HealthyCount(world, cfg.objects);
      ReadableAtMost(world, cfg.objects);
    }
  }

  lemma {:induction false} ReadableAtMost(world: World, objects: seq<Object>)
    ensures Readable(world, objects) <= |objects|
  {
    if objects != [] {
      ReadableAtMost(world, objects[1..]);
    }
  }

  lemma {:induction false} ReadableAll(world: World, objects: seq<Object>)
    requires forall i :: 0 <= i < |objects| ==> objects[i] in world
    ensures Readable(world, objects) == |objects|
  {
    if objects != [] {
      ReadableAll(world, objects[1..]);
    }
  }

  /** Check agrees with Read: a chunk is reported invalid exactly when reading it fails. */
  lemma CheckAgreesWithRead(
    c: Code, world: World, cfg: ChunkConfig, jobs: nat, fast: bool, status: Result<CheckStatus>, data: Bytes,
    r: Result<Bytes>)
    requires Sound(c) && jobs >= 1 && data != [] && cfg.size == |data|
    requires Holds(world, cfg.objects, Encoded(c, data))
    requires CheckMayReturn(c, world, cfg, jobs, fast, status) && ReadMayReturn(c, world, cfg, jobs, r)
    ensures status == Success(Invalid) <==> r.Failure?
  {
    EncodedUniform(c, data);
    CheckChunkExact(c, world, cfg, jobs, fast, status);
    ReadChunkExact(c, world, cfg, jobs, data, r);
  }

  /** r and world' are a possible outcome of RepairChunk: a read followed by a write of what was read. */
  ghost predicate RepairMayReturn(
    c: Code, world: World, cfg: ChunkConfig, jobs: nat, shards: seq<Shard>, r: Result<ChunkConfig>, world': World)
    requires c.k >= 1
  {
    exists read :: ReadMayReturn(c, world, cfg, jobs, read) &&
      match read
      case Failure(e) => r == Failure(e) && world' == world
      case Success(data) =>
        exists cfg', ok :: WriteMayReturn(c, shards, jobs, data, world, cfg', world', ok) &&
          r == if ok then Success(cfg') else Failure(ShardsUnavailable)
  }

  /**
   * RepairChunk is exact: it succeeds if and only if k objects are readable and k + m shards accept a part.
   * Either way nothing that was stored is lost, and after a success the new objects hold the same data on
   * distinct shards.
   */
  lemma {:induction false} RepairExact(
    c: Code, world: World, cfg: ChunkConfig, jobs: nat, data: Bytes, shards: seq<Shard>,
    r: Result<ChunkConfig>, world': World)
    requires Sound(c) && Cluster(shards) && jobs >= 1 && data != [] && cfg.size == |data|
    requires Holds(world, cfg.objects, Encoded(c, data))
    requires RepairMayReturn(c, world, cfg, jobs, shards, r, world')
    ensures r.Success? <==> Readable(world, cfg.objects) >= c.k && AcceptCount(shards) >= c.k + c.m
    ensures r.Failure? ==> r.error == ShardsUnavailable
    ensures NewKeys(shards, world) ==> Grows(world, world')
    ensures r.Success? ==>
      && r.value.size == |data| && Holds(world', r.value.objects, Encoded(c, data))
      && Readable(world', r.value.objects) == |r.value.objects| == c.k + c.m
      && forall i, j :: 0 <= i < j < |r.value.objects| ==> r.value.objects[i].shard != r.value.objects[j].shard
  {
    EncodedUniform(c, data);
    var read :| ReadMayReturn(c, world, cfg, jobs, read) &&
      match read
      case Failure(e) => r == Failure(e) && world' == world
      case Success(data) =>
        exists cfg', ok :: WriteMayReturn(c, shards, jobs, data, world, cfg', world', ok) &&
          r == if ok then Success(cfg') else Failure(ShardsUnavailable);
    ReadChunkExact(c, world, cfg, jobs, data, read);
    if read.Success? {
      var cfg', ok :| WriteMayReturn(c, shards, jobs, data, world, cfg', world', ok) &&
        r == if ok then Success(cfg') else Failure(ShardsUnavailable);
      WriteChunkExact(c, shards, jobs, data, world, cfg', world', ok);
      if ok {
        ReadableAll(world', cfg'.objects);
      }
    }
  }

  /** A chunk that was repaired is optimal for every later check, and every later read gives the same data. */
  lemma RepairRestores(
    c: Code, world: World, cfg: ChunkConfig, jobs: nat, data: Bytes, shards: seq<Shard>,
    r: Result<ChunkConfig>, world': World, status: Result<CheckStatus>, again: Result<Bytes>)
    requires Sound(c) && Cluster(shards) && jobs >= 1 && data != [] && cfg.size == |data|
    requires Holds(world, cfg.objects, Encoded(c, data))
    requires RepairMayReturn(c, world, cfg, jobs, shards, r, world') && r.Success?
    requires CheckMayReturn(c, world', r.value, jobs, false, status)
    requires ReadMayReturn(c, world', r.value, jobs, again)
    ensures status == Success(Optimal) && again == Success(data)
  {
    RepairExact(c, world, cfg, jobs, data, shards, r, world');
    CheckChunkExact(c, world', r.value, jobs, false, status);
    ReadChunkExact(c, world', r.value, jobs, data, again);
  }

  // ---------------------------------------------------------------- every operation returns

  /** Every schedule of ReadChunk is finite and ends with an answer. */
  lemma {:induction false} ReadReturns(c: Code, world: World, cfg: ChunkConfig, jobs: nat, run: seq<Action>)
    requires c.k >= 1 && jobs >= 1 && cfg.size >= 0 && |cfg.objects| == c.k + c.m
    requires NetworkProgress.Maximal(ReadPlan(c.k, world, cfg.objects, jobs), run)
    ensures
      var p := ReadPlan(c.k, world, cfg.objects, jobs);
      var received := After(p, Init(p), run).received;
      && |run| <= NetworkProgress.Fuel(p, Init(p)) && Fits(|cfg.objects|, received, IndexOf())
      && ReadMayReturn(c, world, cfg, jobs, ReadOutcome(c, cfg.objects, cfg.size, received))
  {
    var p := ReadPlan(c.k, world, cfg.objects, jobs);
    NetworkProgress.MaximalRunsComplete(p, run);
    ReceivedReadable(c.k, world, cfg.objects, jobs, After(p, Init(p), run));
  }

  /** Every schedule of WriteChunk is finite and ends with an answer. */
  lemma WriteReturns(c: Code, shards: seq<Shard>, jobs: nat, data: Bytes, world: World, run: seq<Race.Action>)
    requires Sound(c) && jobs >= 1 && data != [] && Race.Maximal(WritePlan(c.k + c.m, shards, jobs), run)
    ensures
      var n, p := c.k + c.m, WritePlan(c.k + c.m, shards, jobs);
      var received := Race.After(p, Race.Init(p), run).received;
      && |run| <= Race.Fuel(p, Race.Init(p)) && Fits(n, received, ReqOf()) && |Encoded(c, data)| == n
      && WriteMayReturn(
           c, shards, jobs, data, world,
           ChunkConfig(|data|, Scattered(Blank(n), received, ReqOf(), ObjectOf(shards))),
           Stored(world, shards, Encoded(c, data), received), |received| >= n)
  {
    var p := WritePlan(c.k + c.m, shards, jobs);
    Race.MaximalRunsComplete(p, run);
    Race.ResultsMatch(p, Race.After(p, Race.Init(p), run));
    EncodedUniform(c, data);
  }
}
