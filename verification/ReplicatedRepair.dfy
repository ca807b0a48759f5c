/** Repairing a replicated chunk (RepairChunk in client/datastor/pipeline/storage/replicated.go). */
module ReplicatedRepair {
  import opened Metatypes
  import opened Network
  import NetworkProgress
  import opened Scatter
  import opened Distributed
  import opened ShardCluster
  import opened Replicated

  // ---------------------------------------------------------------- finding data to copy

  /** What the last attempt that reached a shard returned. */
  function LastSeen(scene: Scene, objects: seq<Object>): Option<Bytes> {
    if objects == [] then None
    else
      var x := scene(objects[|objects| - 1]);
      if x.reachable then x.content else LastSeen(scene, objects[..|objects| - 1])
  }

  /** What is copied: a good object's content, or else whatever the last attempt left behind. */
  function Source(scene: Scene, valid: seq<Object>, size: int): Option<Bytes> {
    var f := FirstGood(scene, valid, size);
    if f < |valid| then scene(valid[f]).content else LastSeen(scene, valid)
  }

  /** Try the valid objects in turn; each failed attempt drops the head of the list. */
  method PickSource(
    scene: Scene, validObjects: seq<Object>, size: int)
    returns (found: Option<Bytes>, valid: seq<Object>)
    ensures valid == validObjects[FirstGood(scene, validObjects, size)..]
    ensures found == Source(scene, validObjects, size)
  {
    found, valid := None, validObjects;
    for i := 0 to |validObjects|
      invariant valid == validObjects[i..]
      invariant forall j :: 0 <= j < i ==> !Sized(scene(validObjects[j]), size)
      invariant found == LastSeen(scene, validObjects[..i])
    {
      assert validObjects[..i + 1][..i] == validObjects[..i];
      var x := scene(validObjects[i]);
      if !x.reachable {
        valid := valid[1..];
        continue;
      }
      found := x.content;
      if found.None? || |found.value| != size {
        valid := valid[1..];
        continue;
      }
      FirstGoodAfter(scene, validObjects, size, i);
      return;
    }
    FirstGoodAfter(scene, validObjects, size, |validObjects|);
    assert validObjects[..|validObjects|] == validObjects;
  }

  // ---------------------------------------------------------------- the operation

  function ShardsOf(objects: seq<Object>): set<Bytes> { set o | o in objects :: o.shard }

  /** Write n copies outside the excepted shards, and list them after the objects that are kept. */
  ghost predicate RestockMayReturn(
    listed: seq<Shard>, except: set<Bytes>, n: nat, jobs: nat, data: Bytes, world: World,
    rest: seq<Object>, enough: bool, r: Result<ChunkConfig>, world': World)
  {
    exists copies, ok :: CopiesMayReturn(listed, except, n, jobs, data, world, copies, world', ok) &&
      r == if ok && enough then Success(ChunkConfig(|data|, rest + copies)) else Failure(ShardsUnavailable)
  }

  /** Whether the copies can be written depends on the shards alone. */
  lemma {:induction false} RestockCount(
    listed: seq<Shard>, except: set<Bytes>, n: nat, jobs: nat, data: Bytes, world: World,
    rest: seq<Object>, enough: bool, r: Result<ChunkConfig>, world': World)
    requires Cluster(listed) && n >= 1 && jobs >= 1
    requires RestockMayReturn(listed, except, n, jobs, data, world, rest, enough, r, world')
    ensures r.Success? <==> enough && AcceptCount(Filtered(listed, except)) >= n
    ensures r.Success? ==> r.value.size == |data| && |r.value.objects| == |rest| + n
  {
    var copies, ok :| CopiesMayReturn(listed, except, n, jobs, data, world, copies, world', ok) &&
      r == if ok && enough then Success(ChunkConfig(|data|, rest + copies)) else Failure(ShardsUnavailable);
    CopiesExact(listed, except, n, jobs, data, world, copies, world', ok);
  }

  /** Copies written next to kept objects that hold the same data. */
  lemma {:induction false} RestockHolds(
    listed: seq<Shard>, except: set<Bytes>, n: nat, jobs: nat, data: Bytes, world: World,
    rest: seq<Object>, enough: bool, r: Result<ChunkConfig>, world': World)
    requires Cluster(listed) && n >= 1 && jobs >= 1
    requires Apart(rest) && AllHold(world, rest, data) && ShardsOf(rest) <= except
    requires RestockMayReturn(listed, except, n, jobs, data, world, rest, enough, r, world') && r.Success?
    ensures r.value.size == |data| && Apart(r.value.objects) && AllHold(world', r.value.objects, data)
  {
    var copies, ok :| CopiesMayReturn(listed, except, n, jobs, data, world, copies, world', ok) &&
      r == if ok && enough then Success(ChunkConfig(|data|, rest + copies)) else Failure(ShardsUnavailable);
    CopiesExact(listed, except, n, jobs, data, world, copies, world', ok);
    JoinCopies(world, world', rest, copies, except, data);
  }

  /** r and world' are a possible outcome once the objects have been told apart. */
  ghost predicate RefillMayReturn(
    n: nat, jobs: nat, scene: Scene, listed: seq<Shard>, world: World, cfg: ChunkConfig,
    valid: seq<Object>, invalid: seq<Object>, r: Result<ChunkConfig>, world': World)
  {
    if |valid| == 0 then r == Failure(ShardsUnavailable) && world' == world
    else if |valid| >= n then r == Success(ChunkConfig(cfg.size, valid)) && world' == world
    else
      var rest, source := valid[FirstGood(scene, valid, cfg.size)..], Source(scene, valid, cfg.size);
      if source.None? then r == Failure(ShardsUnavailable) && world' == world
      else RestockMayReturn(listed, ShardsOf(invalid) + ShardsOf(rest), n - |rest|, jobs, source.value, world,
                            rest, |cfg.objects| >= n, r, world')
  }

  /** r and world' are a possible outcome of RepairChunk for n wanted copies. */
  ghost predicate RepairMayReturn(
    n: nat, jobs: nat, scene: Scene, listed: seq<Shard>, world: World, cfg: ChunkConfig,
    r: Result<ChunkConfig>, world': World)
  {
    var objects := cfg.objects;
    if |objects| == 0 then r == Failure(UnexpectedObjectCount) && world' == world
    else if |objects| == 1 then
      r == (if scene(objects[0]).Ok() then Success(cfg) else Failure(ShardsUnavailable)) && world' == world
    else
      exists s :: Reachable(SplitPlan(scene, objects, jobs), s) && !s.sink.Draining? &&
        Within(Told(s.received, true), |objects|) && Within(Told(s.received, false), |objects|) &&
        RefillMayReturn(n, jobs, scene, listed, world, cfg, At(objects, Told(s.received, true)),
                        At(objects, Told(s.received, false)), r, world')
  }

  // ---------------------------------------------------------------- main results

  /** Every object with an OK status holds the data, whether or not this operation manages to read it. */
  ghost predicate OkHold(scene: Scene, world: World, objects: seq<Object>, data: Bytes) {
    forall i :: 0 <= i < |objects| && scene(objects[i]).Ok() ==>
      objects[i] in world && world[objects[i]] == data &&
      (scene(objects[i]).content == None || scene(objects[i]).content == Some(data))
  }

  /** valid lists OK objects of a chunk whose objects are on distinct shards. */
  ghost predicate Listed(scene: Scene, world: World, valid: seq<Object>, data: Bytes) {
    Apart(valid) && OkHold(scene, world, valid, data) && forall i :: 0 <= i < |valid| ==> scene(valid[i]).Ok()
  }

  /** The source of a repair is the chunk's data, and only objects that were tried in vain are dropped. */
  lemma {:induction false} SourceIsData(scene: Scene, world: World, valid: seq<Object>, data: Bytes)
    requires OkHold(scene, world, valid, data) && forall i :: 0 <= i < |valid| ==> scene(valid[i]).Ok()
    ensures Source(scene, valid, |data|) == None || Source(scene, valid, |data|) == Some(data)
    ensures Source(scene, valid, |data|).Some? <==> FirstGood(scene, valid, |data|) < |valid|
  {
    if valid != [] {
      assert scene(valid[|valid| - 1]).reachable;
    }
  }

  lemma ApartTail(valid: seq<Object>, f: nat)
    requires Apart(valid) && f <= |valid|
    ensures Apart(valid[f..])
  {
  }

  /** Copies written next to the objects that are kept. */
  lemma JoinCopies(world: World, world': World, rest: seq<Object>, copies: seq<Object>, except: set<Bytes>, data: Bytes)
    requires Apart(rest) && Apart(copies) && AllHold(world, rest, data) && AllHold(world', copies, data)
    requires ShardsOf(rest) <= except && forall i :: 0 <= i < |copies| ==> copies[i].shard !in except
    requires forall o: Object :: o !in copies ==> Untouched(world, world', o)
    ensures Apart(rest + copies) && AllHold(world', rest + copies, data)
  {
    var all := rest + copies;
    forall i | 0 <= i < |rest|
      ensures rest[i].shard in except
    {
      assert rest[i].shard in ShardsOf(rest);
    }
    forall i | 0 <= i < |all|
      ensures all[i] in world' && world'[all[i]] == data
    {
      if i < |rest| {
        assert all[i] == rest[i] && Untouched(world, world', rest[i]);
      } else {
        assert all[i] == copies[i - |rest|];
      }
    }
  }

  lemma RefillRestores(
    n: nat, jobs: nat, scene: Scene, listed: seq<Shard>, world: World, cfg: ChunkConfig, data: Bytes,
    valid: seq<Object>, invalid: seq<Object>, r: Result<ChunkConfig>, world': World)
    requires n >= 1 && jobs >= 1 && Cluster(listed) && cfg.size == |data| && Listed(scene, world, valid, data)
    requires RefillMayReturn(n, jobs, scene, listed, world, cfg, valid, invalid, r, world') && r.Success?
    ensures r.value.size == cfg.size && Apart(r.value.objects) && AllHold(world', r.value.objects, data)
  {
    if |valid| < n {
      SourceIsData(scene, world, valid, data);
      var f := FirstGood(scene, valid, cfg.size);
      var rest := valid[f..];
      ApartTail(valid, f);
      RestockHolds(listed, ShardsOf(invalid) + ShardsOf(rest), n - |rest|, jobs, data, world, rest,
        |cfg.objects| >= n, r, world');
    }
  }

  lemma {:induction false} ValidListed(
    scene: Scene, world: World, objects: seq<Object>, data: Bytes, jobs: nat, s: State<Probe>)
    requires jobs >= 1 && Reachable(SplitPlan(scene, objects, jobs), s) && !s.sink.Draining?
    requires Apart(objects) && OkHold(scene, world, objects, data)
    ensures Within(Told(s.received, true), |objects|) && Listed(scene, world, At(objects, Told(s.received, true)), data)
  {
    SplitExact(scene, objects, jobs, s, true);
    var told := Told(s.received, true);
    var valid := At(objects, told);
    forall j | 0 <= j < |valid|
      ensures scene(valid[j]).Ok() && valid[j] in objects
    {
      assert Self()(told[j]) in Hits(told, Self());
    }
    forall i, j | 0 <= i < j < |valid|
      ensures valid[i].shard != valid[j].shard
    {
      assert Self()(told[i]) != Self()(told[j]);
      assert objects[told[i]].shard != objects[told[j]].shard;
    }
  }

  /**
   * A repair that returns without an error has n objects if and only if the chunk listed at least two or one
   * is enough: a single object is returned as it is.
   */
  lemma RepairCountIff(
    n: nat, jobs: nat, scene: Scene, listed: seq<Shard>, world: World, cfg: ChunkConfig,
    r: Result<ChunkConfig>, world': World)
    requires n >= 1 && jobs >= 1 && Cluster(listed)
    requires RepairMayReturn(n, jobs, scene, listed, world, cfg, r, world') && r.Success?
    ensures |r.value.objects| >= n <==> |cfg.objects| >= 2 || n == 1
  {
  }

  /** Whatever a repair returns, nothing that was stored is lost, and it names the reason of a failure. */
  lemma RepairLosesNothing(
    n: nat, jobs: nat, scene: Scene, listed: seq<Shard>, world: World, cfg: ChunkConfig,
    r: Result<ChunkConfig>, world': World)
    requires n >= 1 && jobs >= 1 && Cluster(listed) && NewKeys(listed, world)
    requires RepairMayReturn(n, jobs, scene, listed, world, cfg, r, world')
    ensures Grows(world, world')
    ensures r.Failure? ==> r.error == if cfg.objects == [] then UnexpectedObjectCount else ShardsUnavailable
  {
    if |cfg.objects| >= 2 {
      var s := Splitting(n, jobs, scene, listed, world, cfg, r, world');
      RefillLosesNothing(n, jobs, scene, listed, world, cfg, At(cfg.objects, Told(s.received, true)),
                         At(cfg.objects, Told(s.received, false)), r, world');
    }
  }

  lemma RefillLosesNothing(
    n: nat, jobs: nat, scene: Scene, listed: seq<Shard>, world: World, cfg: ChunkConfig,
    valid: seq<Object>, invalid: seq<Object>, r: Result<ChunkConfig>, world': World)
    requires n >= 1 && jobs >= 1 && Cluster(listed) && NewKeys(listed, world)
    requires RefillMayReturn(n, jobs, scene, listed, world, cfg, valid, invalid, r, world')
    ensures Grows(world, world') && (r.Failure? ==> r.error == ShardsUnavailable)
  {
    if 0 < |valid| < n {
      var rest, source := valid[FirstGood(scene, valid, cfg.size)..], Source(scene, valid, cfg.size);
      if source.Some? {
        RestockGrows(listed, ShardsOf(invalid) + ShardsOf(rest), n - |rest|, jobs, source.value, world, rest,
                     |cfg.objects| >= n, r, world');
      }
    }
  }

  lemma RestockGrows(
    listed: seq<Shard>, except: set<Bytes>, n: nat, jobs: nat, data: Bytes, world: World,
    rest: seq<Object>, enough: bool, r: Result<ChunkConfig>, world': World)
    requires Cluster(listed) && n >= 1 && jobs >= 1 && NewKeys(listed, world)
    requires RestockMayReturn(listed, except, n, jobs, data, world, rest, enough, r, world')
    ensures Grows(world, world') && (r.Failure? ==> r.error == ShardsUnavailable)
  {
    var copies, ok :| CopiesMayReturn(listed, except, n, jobs, data, world, copies, world', ok) &&
      r == if ok && enough then Success(ChunkConfig(|data|, rest + copies)) else Failure(ShardsUnavailable);
    CopiesExact(listed, except, n, jobs, data, world, copies, world', ok);
  }

  /** The run that told the objects of a repair apart. */
  lemma Splitting(
    n: nat, jobs: nat, scene: Scene, listed: seq<Shard>, world: World, cfg: ChunkConfig,
    r: Result<ChunkConfig>, world': World)
    returns (s: State<Probe>)
    requires |cfg.objects| >= 2 && RepairMayReturn(n, jobs, scene, listed, world, cfg, r, world')
    ensures Reachable(SplitPlan(scene, cfg.objects, jobs), s) && !s.sink.Draining?
    ensures Within(Told(s.received, true), |cfg.objects|) && Within(Told(s.received, false), |cfg.objects|)
    ensures RefillMayReturn(n, jobs, scene, listed, world, cfg, At(cfg.objects, Told(s.received, true)),
                            At(cfg.objects, Told(s.received, false)), r, world')
  {
    s :| Reachable(SplitPlan(scene, cfg.objects, jobs), s) && !s.sink.Draining? &&
      Within(Told(s.received, true), |cfg.objects|) && Within(Told(s.received, false), |cfg.objects|) &&
      RefillMayReturn(n, jobs, scene, listed, world, cfg, At(cfg.objects, Told(s.received, true)),
                      At(cfg.objects, Told(s.received, false)), r, world');
  }

  /**
   * A repair of objects on distinct shards that returns without an error, whatever order the goroutines
   * report and write in: same size, and objects on distinct shards, each of which holds the data. There are
   * at least n of them if and only if the chunk listed at least two objects or one is enough.
   */
  lemma RepairRestores(
    n: nat, jobs: nat, scene: Scene, listed: seq<Shard>, world: World, cfg: ChunkConfig, data: Bytes,
    r: Result<ChunkConfig>, world': World)
    requires n >= 1 && jobs >= 1 && Cluster(listed) && Apart(cfg.objects)
    requires cfg.size == |data| && OkHold(scene, world, cfg.objects, data)
    requires RepairMayReturn(n, jobs, scene, listed, world, cfg, r, world') && r.Success?
    ensures r.value.size == cfg.size && Apart(r.value.objects) && AllHold(world', r.value.objects, data)
    ensures |r.value.objects| >= n <==> |cfg.objects| >= 2 || n == 1
  {
    RepairCountIff(n, jobs, scene, listed, world, cfg, r, world');
    if |cfg.objects| >= 2 {
      var s := Splitting(n, jobs, scene, listed, world, cfg, r, world');
      ValidListed(scene, world, cfg.objects, data, jobs, s);
      RefillRestores(n, jobs, scene, listed, world, cfg, data, At(cfg.objects, Told(s.received, true)),
                     At(cfg.objects, Told(s.received, false)), r, world');
    }
  }

  /** The shards of the objects with these numbers. */
  ghost function IndexShards(objects: seq<Object>, ids: set<nat>): set<Bytes> {
    set i | i in ids && i < |objects| :: objects[i].shard
  }

  lemma ShardsOfTold(objects: seq<Object>, told: seq<nat>)
    requires Within(told, |objects|)
    ensures ShardsOf(At(objects, told)) == IndexShards(objects, Hits(told, Self()))
  {
    HitsSelf(told);
    var at := At(objects, told);
    forall id | id in IndexShards(objects, Hits(told, Self()))
      ensures id in ShardsOf(at)
    {
      var i :| i in Hits(told, Self()) && i < |objects| && objects[i].shard == id;
      var j :| 0 <= j < |told| && told[j] == i;
      assert at[j] == objects[i];
    }
    forall id | id in ShardsOf(at)
      ensures id in IndexShards(objects, Hits(told, Self()))
    {
      var o :| o in at && o.shard == id;
      var j :| 0 <= j < |at| && at[j] == o;
      assert told[j] in told;
    }
  }

  /** Dropping the first f of distinct numbers. */
  lemma DroppedHits(told: seq<nat>, f: nat)
    requires Distinct(told, Self()) && f <= |told|
    ensures Hits(told[f..], Self()) == Hits(told, Self()) - Hits(told[..f], Self())
    ensures |Hits(told[..f], Self())| == f && |Hits(told, Self())| == |told|
  {
    DistinctCount(told[..f], Self());
    DistinctCount(told, Self());
    HitsSelf(told);
    HitsSelf(told[f..]);
    HitsSelf(told[..f]);
    assert told == told[..f] + told[f..];
  }

  /** The objects that look OK and do not give the data when a repair asks for it. */
  ghost function Unread(scene: Scene, cfg: ChunkConfig): set<nat> {
    set i | i in Group(scene, cfg.objects, true) && i < |cfg.objects| && !Sized(scene(cfg.objects[i]), cfg.size)
  }

  /**
   * What a repair needs of the cluster when it has tried the dropped objects in vain: for a single object,
   * that it is OK; otherwise n OK objects, or one that gives the data, at least n listed objects, and a shard
   * for each missing copy, outside those of the OK objects that are kept and of the silent ones.
   */
  ghost predicate Repairable(n: nat, scene: Scene, listed: seq<Shard>, cfg: ChunkConfig, dropped: set<nat>) {
    var ok, silent := Group(scene, cfg.objects, true), Group(scene, cfg.objects, false);
    if |cfg.objects| < 2 then ok != {}
    else
      || |ok| >= n
      || (&& SomeSized(scene, cfg) && |cfg.objects| >= n
          && AcceptCount(Filtered(listed, IndexShards(cfg.objects, silent) + IndexShards(cfg.objects, ok - dropped)))
             >= n - |ok| + |dropped|)
  }

  /**
   * The outcome depends on nothing but the cluster and on which unreadable objects were reported before
   * the first one that gives the data.
   */
  lemma {:induction false} RepairExact(
    n: nat, jobs: nat, scene: Scene, listed: seq<Shard>, world: World, cfg: ChunkConfig, data: Bytes,
    r: Result<ChunkConfig>, world': World)
    requires n >= 1 && jobs >= 1 && Cluster(listed) && Apart(cfg.objects)
    requires cfg.size == |data| && OkHold(scene, world, cfg.objects, data)
    requires RepairMayReturn(n, jobs, scene, listed, world, cfg, r, world')
    ensures
      exists dropped :: dropped <= Unread(scene, cfg) && (r.Success? <==> Repairable(n, scene, listed, cfg, dropped))
  {
    var objects := cfg.objects;
    if |objects| < 2 {
      assert |objects| == 1 && scene(objects[0]).Ok() ==> 0 in Group(scene, objects, true);
      assert {} <= Unread(scene, cfg) && (r.Success? <==> Repairable(n, scene, listed, cfg, {}));
    } else {
      var s := Splitting(n, jobs, scene, listed, world, cfg, r, world');
      var told, silent := Told(s.received, true), Told(s.received, false);
      ValidListed(scene, world, objects, data, jobs, s);
      SplitExact(scene, objects, jobs, s, true);
      SplitExact(scene, objects, jobs, s, false);
      RefillExact(n, jobs, scene, listed, world, cfg, data, At(objects, told), At(objects, silent), r, world');
      var dropped := RepairableWhenTold(n, scene, listed, cfg, told, silent);
      assert dropped <= Unread(scene, cfg) && (r.Success? <==> Repairable(n, scene, listed, cfg, dropped));
    }
  }

  /** The condition in terms of the lists of objects is the one in terms of the cluster. */
  lemma RepairableWhenTold(
    n: nat, scene: Scene, listed: seq<Shard>, cfg: ChunkConfig, told: seq<nat>, silent: seq<nat>)
    returns (dropped: set<nat>)
    requires |cfg.objects| >= 2 && Within(told, |cfg.objects|) && Within(silent, |cfg.objects|)
    requires Distinct(told, Self()) && Hits(told, Self()) == Group(scene, cfg.objects, true)
    requires Hits(silent, Self()) == Group(scene, cfg.objects, false)
    ensures dropped <= Unread(scene, cfg)
    ensures
      var valid, invalid := At(cfg.objects, told), At(cfg.objects, silent);
      var f := FirstGood(scene, valid, cfg.size);
      var except := ShardsOf(invalid) + ShardsOf(valid[f..]);
      Repairable(n, scene, listed, cfg, dropped) <==>
        || |valid| >= n
        || (f < |valid| && |cfg.objects| >= n && AcceptCount(Filtered(listed, except)) >= n - |valid| + f)
  {
    var f := FirstGood(scene, At(cfg.objects, told), cfg.size);
    dropped := Hits(told[..f], Self());
    DroppedHits(told, f);
    DroppedUnread(scene, cfg, told);
    GoodAmongTold(scene, cfg, told);
    assert At(cfg.objects, told)[f..] == At(cfg.objects, told[f..]);
    ShardsOfTold(cfg.objects, told[f..]);
    ShardsOfTold(cfg.objects, silent);
  }

  lemma DroppedUnread(scene: Scene, cfg: ChunkConfig, told: seq<nat>)
    requires Within(told, |cfg.objects|) && Hits(told, Self()) == Group(scene, cfg.objects, true)
    ensures Hits(told[..FirstGood(scene, At(cfg.objects, told), cfg.size)], Self()) <= Unread(scene, cfg)
  {
    var valid := At(cfg.objects, told);
    var f := FirstGood(scene, valid, cfg.size);
    HitsSelf(told);
    HitsSelf(told[..f]);
    forall i | i in Hits(told[..f], Self())
      ensures i in Unread(scene, cfg)
    {
      var j :| 0 <= j < f && told[..f][j] == i;
      assert told[j] in told && !Sized(scene(valid[j]), cfg.size);
    }
  }

  /** When every OK object can be read, the outcome depends on the cluster alone. */
  lemma {:induction false} RepairExactWhenRead(
    n: nat, jobs: nat, scene: Scene, listed: seq<Shard>, world: World, cfg: ChunkConfig, data: Bytes,
    r: Result<ChunkConfig>, world': World)
    requires n >= 1 && jobs >= 1 && Cluster(listed) && Apart(cfg.objects)
    requires cfg.size == |data| && OkHold(scene, world, cfg.objects, data)
    requires forall i :: 0 <= i < |cfg.objects| && scene(cfg.objects[i]).Ok() ==> scene(cfg.objects[i]).content.Some?
    requires RepairMayReturn(n, jobs, scene, listed, world, cfg, r, world')
    ensures r.Success? <==> Repairable(n, scene, listed, cfg, {})
  {
    RepairExact(n, jobs, scene, listed, world, cfg, data, r, world');
    assert Unread(scene, cfg) == {};
  }

  lemma {:induction false} RefillExact(
    n: nat, jobs: nat, scene: Scene, listed: seq<Shard>, world: World, cfg: ChunkConfig, data: Bytes,
    valid: seq<Object>, invalid: seq<Object>, r: Result<ChunkConfig>, world': World)
    requires n >= 1 && jobs >= 1 && Cluster(listed) && cfg.size == |data| && Listed(scene, world, valid, data)
    requires RefillMayReturn(n, jobs, scene, listed, world, cfg, valid, invalid, r, world')
    ensures
      var f := FirstGood(scene, valid, cfg.size);
      var except := ShardsOf(invalid) + ShardsOf(valid[f..]);
      r.Success? <==>
        || |valid| >= n
        || (f < |valid| && |cfg.objects| >= n && AcceptCount(Filtered(listed, except)) >= n - |valid| + f)
  {
    if 0 < |valid| < n {
      SourceIsData(scene, world, valid, data);
      var f := FirstGood(scene, valid, cfg.size);
      var rest := valid[f..];
      if f < |valid| {
        RestockCount(listed, ShardsOf(invalid) + ShardsOf(rest), n - |rest|, jobs, data, world, rest,
          |cfg.objects| >= n, r, world');
      }
    }
  }

  /** When enough objects are OK, exactly these are kept and nothing is written; a single one is returned as it is. */
  lemma {:induction false} EnoughIsKept(
    n: nat, jobs: nat, scene: Scene, listed: seq<Shard>, world: World, cfg: ChunkConfig,
    r: Result<ChunkConfig>, world': World)
    requires n >= 1 && jobs >= 1 && RepairMayReturn(n, jobs, scene, listed, world, cfg, r, world')
    requires |cfg.objects| < 2 || |Group(scene, cfg.objects, true)| >= n
    ensures world' == world
    ensures |cfg.objects| < 2 && r.Success? ==> r.value == cfg
    ensures |cfg.objects| >= 2 ==>
      && r.Success? && r.value.size == cfg.size && |r.value.objects| == |Group(scene, cfg.objects, true)|
      && forall o :: o in r.value.objects <==> exists i :: i in Group(scene, cfg.objects, true) && cfg.objects[i] == o
  {
    if |cfg.objects| >= 2 {
      var s := Splitting(n, jobs, scene, listed, world, cfg, r, world');
      var told := Told(s.received, true);
      SplitExact(scene, cfg.objects, jobs, s, true);
      DistinctCount(told, Self());
      HitsSelf(told);
      var valid := At(cfg.objects, told);
      forall o
        ensures o in valid <==> exists i :: i in Group(scene, cfg.objects, true) && cfg.objects[i] == o
      {
        if o in valid {
          var j :| 0 <= j < |valid| && valid[j] == o;
          assert told[j] in told && cfg.objects[told[j]] == o;
        }
        if i :| i in Group(scene, cfg.objects, true) && cfg.objects[i] == o {
          var j :| 0 <= j < |told| && told[j] == i;
          assert valid[j] == o;
        }
      }
    }
  }

  /**
   * For every later check that sees the objects which the shards hold after the repair as OK, a repaired chunk
   * is optimal if and only if it listed at least two objects or one is enough.
   */
  lemma RepairedIsOptimal(
    n: nat, jobs: nat, scene: Scene, listed: seq<Shard>, world: World, cfg: ChunkConfig, data: Bytes,
    r: Result<ChunkConfig>, world': World, later: Scene, status: Result<CheckStatus>)
    requires n >= 1 && jobs >= 1 && Cluster(listed) && Apart(cfg.objects)
    requires cfg.size == |data| && OkHold(scene, world, cfg.objects, data)
    requires RepairMayReturn(n, jobs, scene, listed, world, cfg, r, world') && r.Success?
    requires forall o :: o in world' ==> later(o).Ok()
    requires CheckCopiesMayReturn(n, later, r.value, jobs, false, status)
    ensures status == Success(Optimal) <==> |cfg.objects| >= 2 || n == 1
  {
    RepairRestores(n, jobs, scene, listed, world, cfg, data, r, world');
    ReadableAll(OkWorld(later, r.value.objects), r.value.objects);
    CheckCopiesExact(n, later, r.value, jobs, false, status);
  }

  /** The stage after the objects have been told apart. */
  lemma {:induction false} RefillKeepsSizeIff(
    n: nat, jobs: nat, scene: Scene, listed: seq<Shard>, world: World, cfg: ChunkConfig,
    valid: seq<Object>, invalid: seq<Object>, r: Result<ChunkConfig>, world': World)
    requires n >= 1 && jobs >= 1
    requires RefillMayReturn(n, jobs, scene, listed, world, cfg, valid, invalid, r, world') && r.Success?
    ensures r.value.size == cfg.size <==> |valid| >= n || FirstGood(scene, valid, cfg.size) < |valid|
  {
    if |valid| < n && FirstGood(scene, valid, cfg.size) == |valid| {
      WrongSize(scene, valid, cfg.size);
    }
  }

  /** Some object that looks OK has the size the chunk claims. */
  ghost predicate SomeSized(scene: Scene, cfg: ChunkConfig) {
    exists i :: i in Group(scene, cfg.objects, true) && Sized(scene(cfg.objects[i]), cfg.size)
  }

  lemma GoodAmongTold(scene: Scene, cfg: ChunkConfig, told: seq<nat>)
    requires Within(told, |cfg.objects|) && Hits(told, Self()) == Group(scene, cfg.objects, true)
    ensures
      var valid := At(cfg.objects, told);
      FirstGood(scene, valid, cfg.size) < |valid| <==> SomeSized(scene, cfg)
  {
    var valid := At(cfg.objects, told);
    var f := FirstGood(scene, valid, cfg.size);
    HitsSelf(told);
    if f < |valid| {
      assert told[f] in told;
      assert Sized(scene(cfg.objects[told[f]]), cfg.size);
    }
    if SomeSized(scene, cfg) {
      var i :| i in Group(scene, cfg.objects, true) && Sized(scene(cfg.objects[i]), cfg.size);
      var j :| 0 <= j < |told| && told[j] == i;
      assert Sized(scene(valid[j]), cfg.size);
    }
  }

  /**
   * Without the assumption that OK objects hold the data, a repair may spread data of another size: the
   * size is kept if and only if no copy is made or some OK object has the size the chunk claims.
   */
  lemma RepairKeepsSizeIff(
    n: nat, jobs: nat, scene: Scene, listed: seq<Shard>, world: World, cfg: ChunkConfig,
    r: Result<ChunkConfig>, world': World)
    requires n >= 1 && jobs >= 1
    requires RepairMayReturn(n, jobs, scene, listed, world, cfg, r, world') && r.Success?
    ensures
      r.value.size == cfg.size <==>
        |cfg.objects| < 2 || |Group(scene, cfg.objects, true)| >= n || SomeSized(scene, cfg)
  {
    var objects := cfg.objects;
    if |objects| >= 2 {
      var s := Splitting(n, jobs, scene, listed, world, cfg, r, world');
      var told := Told(s.received, true);
      SplitExact(scene, objects, jobs, s, true);
      DistinctCount(told, Self());
      GoodAmongTold(scene, cfg, told);
      RefillKeepsSizeIff(n, jobs, scene, listed, world, cfg, At(objects, told),
                         At(objects, Told(s.received, false)), r, world');
    }
  }

  /** What is left behind when no object is good is never of the right size. */
  lemma {:induction false} WrongSize(scene: Scene, valid: seq<Object>, size: int)
    requires forall i :: 0 <= i < |valid| ==> !Sized(scene(valid[i]), size)
    ensures LastSeen(scene, valid).Some? ==> |LastSeen(scene, valid).value| != size
  {
    if valid != [] && !scene(valid[|valid| - 1]).reachable {
      WrongSize(scene, valid[..|valid| - 1], size);
    }
  }

  /** Copies can always be written when enough shards accept them. */
  lemma Restockable(
    listed: seq<Shard>, n: nat, jobs: nat, data: Bytes, world: World)
    returns (r: Result<ChunkConfig>, world': World)
    requires Cluster(listed) && n >= 1 && jobs >= 1 && AcceptCount(listed) >= n
    ensures RestockMayReturn(listed, {}, n, jobs, data, world, [], true, r, world')
    ensures r.Success? && r.value.size == |data|
  {
    var copies, ok;
    copies, world', ok := SomeCopies(listed, {}, n, jobs, data, world);
    CopiesExact(listed, {}, n, jobs, data, world, copies, world', ok);
    FilteredNone(listed);
    r := Success(ChunkConfig(|data|, [] + copies));
  }

  lemma OnlyZero(told: seq<nat>)
    requires Distinct(told, Self()) && Hits(told, Self()) == {0}
    ensures told == [0]
  {
    DistinctCount(told, Self());
    HitsSelf(told);
  }

  lemma NoneTold(told: seq<nat>)
    requires Hits(told, Self()) == {}
    ensures told == []
  {
    HitsSelf(told);
    var first := if told == [] then 0 else told[0];
    assert told == [] || first in told;
  }

  /** When the first of two objects is OK and the other one is known to be bad, one is told and none is silent. */
  lemma FirstOfTwoTold(scene: Scene, o: Object, p: Object, jobs: nat, s: State<Probe>)
    requires scene(o).Ok() && !scene(p).Ok() && !scene(o).Silent() && !scene(p).Silent() && jobs >= 1
    requires Reachable(SplitPlan(scene, [o, p], jobs), s) && !s.sink.Draining?
    ensures Told(s.received, true) == [0] && Told(s.received, false) == []
  {
    SplitExact(scene, [o, p], jobs, s, true);
    SplitExact(scene, [o, p], jobs, s, false);
    assert Group(scene, [o, p], true) == {0} && Group(scene, [o, p], false) == {};
    OnlyZero(Told(s.received, true));
    NoneTold(Told(s.received, false));
  }

  /**
   * Such a repair exists: of two objects, one is OK but not of the size the chunk claims. The repair
   * succeeds, and what it returns is two copies of that wrong data.
   */
  lemma RepairCanSpreadWrongData(
    o: Object, p: Object, data: Bytes, size: nat, jobs: nat, listed: seq<Shard>, world: World)
    returns (scene: Scene, r: Result<ChunkConfig>, world': World)
    requires o != p && |data| != size && jobs >= 1 && Cluster(listed) && AcceptCount(listed) >= 2
    ensures scene(o) == Sight(true, Some(true), Some(data)) && scene(p) == Sight(true, Some(false), None)
    ensures RepairMayReturn(2, jobs, scene, listed, world, ChunkConfig(size, [o, p]), r, world')
    ensures r.Success? && r.value.size != size
  {
    scene := (x: Object) => if x == o then Sight(true, Some(true), Some(data)) else Sight(true, Some(false), None);
    var objects := [o, p];
    var s := NetworkProgress.SomeRunCompletes(SplitPlan(scene, objects, jobs));
    FirstOfTwoTold(scene, o, p, jobs, s);
    r, world' := Restockable(listed, 2, jobs, data, world);
    SpreadRefill(scene, o, data, size, jobs, listed, world, ChunkConfig(size, objects), r, world');
    assert At(objects, [0]) == [o] && At(objects, []) == [];
    SplitThenRefill(2, jobs, scene, listed, world, ChunkConfig(size, objects), r, world', s);
  }

  /** Telling the objects apart and refilling makes a repair. */
  lemma SplitThenRefill(
    n: nat, jobs: nat, scene: Scene, listed: seq<Shard>, world: World, cfg: ChunkConfig,
    r: Result<ChunkConfig>, world': World, s: State<Probe>)
    requires |cfg.objects| >= 2 && Reachable(SplitPlan(scene, cfg.objects, jobs), s) && !s.sink.Draining?
    requires Within(Told(s.received, true), |cfg.objects|) && Within(Told(s.received, false), |cfg.objects|)
    requires RefillMayReturn(n, jobs, scene, listed, world, cfg, At(cfg.objects, Told(s.received, true)),
                             At(cfg.objects, Told(s.received, false)), r, world')
    ensures RepairMayReturn(n, jobs, scene, listed, world, cfg, r, world')
  {
  }

  lemma SpreadRefill(
    scene: Scene, o: Object, data: Bytes, size: nat, jobs: nat, listed: seq<Shard>, world: World, cfg: ChunkConfig,
    r: Result<ChunkConfig>, world': World)
    requires scene(o) == Sight(true, Some(true), Some(data)) && |data| != size == cfg.size && |cfg.objects| == 2
    requires RestockMayReturn(listed, {}, 2, jobs, data, world, [], true, r, world')
    ensures RefillMayReturn(2, jobs, scene, listed, world, cfg, [o], [], r, world')
  {
    assert !Sized(scene([o][0]), size);
    assert FirstGood(scene, [o], size) == 1 && [o][1..] == [];
    assert ShardsOf([]) + ShardsOf([]) == {};
    assert Source(scene, [o], size) == Some(data);
  }
}
