/**
 * Chunks stored as several copies (client/datastor/pipeline/storage/replicated.go): writing copies,
 * reading one back, counting the good ones, and repairing.
 */
module Replicated {
  import opened Metatypes
  import opened Network
  import NetworkSafety
  import Race
  import opened Scatter
  import opened Distributed
  import opened ShardCluster

  /**
   * How an object looks during one operation: whether its shard can be reached, what the shard says
   * about its status (if it answers), and what reading it returns.
   */
  datatype Sight = Sight(reachable: bool, status: Option<bool>, content: Option<Bytes>) {
    predicate Ok() { reachable && status == Some(true) }
    predicate Silent() { reachable && status == None }
  }

  type Scene = Object -> Sight

  // ---------------------------------------------------------------- reading

  predicate Sized(x: Sight, size: int) {
    x.reachable && x.content.Some? && |x.content.value| == size
  }

  /** The first object that can be read and has the right size, or |objects|. */
  function FirstGood(scene: Scene, objects: seq<Object>, size: int): (f: nat)
    ensures f <= |objects| && (f < |objects| ==> Sized(scene(objects[f]), size))
    ensures forall i :: 0 <= i < f ==> !Sized(scene(objects[i]), size)
  {
    if objects == [] || Sized(scene(objects[0]), size) then 0 else 1 + FirstGood(scene, objects[1..], size)
  }

  lemma {:induction false} FirstGoodAfter(scene: Scene, objects: seq<Object>, size: int, n: nat)
    requires n <= |objects| && forall i :: 0 <= i < n ==> !Sized(scene(objects[i]), size)
    ensures FirstGood(scene, objects, size) == n + FirstGood(scene, objects[n..], size)
  {
    if n > 0 {
      FirstGoodAfter(scene, objects[1..], size, n - 1);
      assert objects[1..][n - 1..] == objects[n..];
    }
  }

  /** ReadChunk: the content of the first good object. */
  method ReadChunk(scene: Scene, cfg: ChunkConfig) returns (r: Result<Bytes>)
    ensures cfg.objects == [] ==> r == Failure(UnexpectedObjectCount)
    ensures cfg.objects != [] ==>
      var f := FirstGood(scene, cfg.objects, cfg.size);
      r == if f < |cfg.objects| then Success(scene(cfg.objects[f]).content.value) else Failure(ShardsUnavailable)
  {
    if |cfg.objects| == 0 {
      return Failure(UnexpectedObjectCount);
    }
    for i := 0 to |cfg.objects|
      invariant forall j :: 0 <= j < i ==> !Sized(scene(cfg.objects[j]), cfg.size)
    {
      var x := scene(cfg.objects[i]);
      if !x.reachable || x.content.None? {
        continue;
      }
      if |x.content.value| == cfg.size {
        FirstGoodAfter(scene, cfg.objects, cfg.size, i);
        return Success(x.content.value);
      }
    }
    FirstGoodAfter(scene, cfg.objects, cfg.size, |cfg.objects|);
    r := Failure(ShardsUnavailable);
  }

  // ---------------------------------------------------------------- writing

  function Copies(n: nat, data: Bytes): seq<Bytes> { seq(n, _ => data) }

  function Objects(order: seq<Shard>, bids: seq<Race.Bid>): seq<Object> {
    seq(|bids|, j requires 0 <= j < |bids| => ObjectOf(order)(bids[j]))
  }

  /**
   * copies, world' and ok are a possible outcome of writing n copies outside the excepted shards, for
   * some random order of the shards and some schedule of the goroutines.
   */
  ghost predicate CopiesMayReturn(
    listed: seq<Shard>, except: set<Bytes>, n: nat, jobs: nat, data: Bytes,
    world: World, copies: seq<Object>, world': World, ok: bool)
  {
    exists order, s :: OrderOf(order, listed, except) && Race.Reachable(WritePlan(n, order, jobs), s) && s.done &&
      Fits(n, s.received, ReqOf()) && copies == Objects(order, s.received) &&
      world' == Stored(world, order, Copies(n, data), s.received) && ok == (|copies| >= n)
  }

  ghost predicate Apart(objects: seq<Object>) {
    forall i, j :: 0 <= i < j < |objects| ==> objects[i].shard != objects[j].shard
  }

  ghost predicate AllHold(world: World, objects: seq<Object>, data: Bytes) {
    forall i :: 0 <= i < |objects| ==> objects[i] in world && world[objects[i]] == data
  }

  /**
   * Writing copies is exact: whatever the order and the schedule, it succeeds if and only if at least n
   * shards outside the exception accept the write. The copies are then n objects on distinct shards,
   * none of them excepted, and each holds the data. Other objects are what they were.
   */
  lemma {:induction false} CopiesExact(
    listed: seq<Shard>, except: set<Bytes>, n: nat, jobs: nat, data: Bytes,
    world: World, copies: seq<Object>, world': World, ok: bool)
    requires Cluster(listed) && n >= 1 && jobs >= 1
    requires CopiesMayReturn(listed, except, n, jobs, data, world, copies, world', ok)
    ensures ok <==> AcceptCount(Filtered(listed, except)) >= n
    ensures ok ==> |copies| == n
    ensures Apart(copies) && AllHold(world', copies, data)
    ensures forall i :: 0 <= i < |copies| ==> copies[i].shard !in except
    ensures forall o: Object :: o !in copies ==> Untouched(world, world', o)
    ensures NewKeys(listed, world) ==> Grows(world, world')
  {
    var order: seq<Shard>, s: Race.State :| OrderOf(order, listed, except) &&
      Race.Reachable(WritePlan(n, order, jobs), s) && s.done &&
      Fits(n, s.received, ReqOf()) && copies == Objects(order, s.received) &&
      world' == Stored(world, order, Copies(n, data), s.received) && ok == (|copies| >= n);
    OrderIrrelevant(order, listed, except);
    Race.RaceResult(WritePlan(n, order, jobs), s);
    Race.ResultsMatch(WritePlan(n, order, jobs), s);
    CopiesPlaced(order, n, jobs, data, world, s.received);
    forall j | 0 <= j < |copies|
      ensures copies[j].shard !in except
    {
      assert order[s.received[j].res].id !in except;
    }
    CopiesFrame(order, n, jobs, data, world, s.received);
    if NewKeys(listed, world) {
      OrderKeys(order, listed, world);
      StoredGrows(order, WritePlan(n, order, jobs), s.received, world, Copies(n, data));
    }
  }

  /** A chunk that was written as copies is read back as long as one of them can be read. */
  lemma {:induction false} CopySurvives(
    listed: seq<Shard>, except: set<Bytes>, n: nat, jobs: nat, data: Bytes,
    world: World, copies: seq<Object>, world': World, ok: bool, scene: Scene)
    requires Cluster(listed) && n >= 1 && jobs >= 1
    requires CopiesMayReturn(listed, except, n, jobs, data, world, copies, world', ok)
    requires forall o :: o in world' ==> scene(o).content == None || scene(o).content == Some(world'[o])
    ensures
      var f := FirstGood(scene, copies, |data|);
      if exists o :: o in copies && scene(o).reachable && scene(o).content.Some?
      then f < |copies| && scene(copies[f]).content == Some(data)
      else f == |copies|
  {
    CopiesExact(listed, except, n, jobs, data, world, copies, world', ok);
    if o :| o in copies && scene(o).reachable && scene(o).content.Some? {
      var i :| 0 <= i < |copies| && copies[i] == o;
      assert Sized(scene(copies[i]), |data|);
    }
  }

  lemma OrderKeys(order: seq<Shard>, listed: seq<Shard>, world: World)
    requires NewKeys(listed, world) && forall i :: 0 <= i < |order| ==> order[i] in listed
    ensures NewKeys(order, world)
  {
    forall i | 0 <= i < |order| && order[i].key.Some?
      ensures Object(order[i].key.value, order[i].id) !in world
    {
      var k :| 0 <= k < |listed| && listed[k] == order[i];
    }
  }

  /** Writing copies leaves all other objects alone. */
  lemma {:induction false} CopiesFrame(
    order: seq<Shard>, n: nat, jobs: nat, data: Bytes, world: World, bids: seq<Race.Bid>)
    requires Fits(n, bids, ReqOf())
    ensures forall o :: o !in Objects(order, bids) ==> Untouched(world, Stored(world, order, Copies(n, data), bids), o)
  {
    var copies := Objects(order, bids);
    forall o | o !in copies
      ensures Untouched(world, Stored(world, order, Copies(n, data), bids), o)
    {
      assert forall j :: 0 <= j < |bids| ==> copies[j] == ObjectOf(order)(bids[j]);
      StoredFrame(world, order, Copies(n, data), bids, o);
    }
  }

  /** Matched copies are on distinct shards and hold the data. */
  lemma {:induction false} CopiesPlaced(
    order: seq<Shard>, n: nat, jobs: nat, data: Bytes, world: World, bids: seq<Race.Bid>)
    requires Cluster(order) && Race.Matching(WritePlan(n, order, jobs), bids)
    ensures Fits(n, bids, ReqOf())
    ensures Apart(Objects(order, bids))
    ensures AllHold(Stored(world, order, Copies(n, data), bids), Objects(order, bids), data)
  {
    ShardsDiffer(order, WritePlan(n, order, jobs), bids);
    forall j | 0 <= j < |bids|
      ensures Objects(order, bids)[j] in Stored(world, order, Copies(n, data), bids)
      ensures Stored(world, order, Copies(n, data), bids)[Objects(order, bids)[j]] == data
    {
      StoredHolds(world, order, Copies(n, data), bids, j);
    }
  }

  /** For every order of the shards, every schedule of the write is finite and ends with an answer. */
  lemma {:induction false} CopiesReturn(
    listed: seq<Shard>, except: set<Bytes>, order: seq<Shard>, n: nat, jobs: nat, data: Bytes, world: World,
    run: seq<Race.Action>)
    requires n >= 1 && jobs >= 1 && OrderOf(order, listed, except) && Race.Maximal(WritePlan(n, order, jobs), run)
    ensures
      var p := WritePlan(n, order, jobs);
      var received := Race.After(p, Race.Init(p), run).received;
      && |run| <= Race.Fuel(p, Race.Init(p)) && Fits(n, received, ReqOf())
      && CopiesMayReturn(listed, except, n, jobs, data, world, Objects(order, received),
                         Stored(world, order, Copies(n, data), received), |received| >= n)
  {
    var p := WritePlan(n, order, jobs);
    Race.MaximalRunsComplete(p, run);
    CopiesOutcome(listed, except, order, n, jobs, data, world, Race.After(p, Race.Init(p), run));
  }

  lemma {:induction false} CopiesOutcome(
    listed: seq<Shard>, except: set<Bytes>, order: seq<Shard>, n: nat, jobs: nat, data: Bytes, world: World,
    s: Race.State)
    requires n >= 1 && jobs >= 1 && OrderOf(order, listed, except)
    requires Race.Reachable(WritePlan(n, order, jobs), s) && Race.Quiescent(s)
    ensures Fits(n, s.received, ReqOf())
    ensures CopiesMayReturn(listed, except, n, jobs, data, world, Objects(order, s.received),
                            Stored(world, order, Copies(n, data), s.received), |s.received| >= n)
  {
    Race.ResultsMatch(WritePlan(n, order, jobs), s);
  }

  /** Some outcome of a write. */
  lemma SomeCopies(listed: seq<Shard>, except: set<Bytes>, n: nat, jobs: nat, data: Bytes, world: World)
    returns (copies: seq<Object>, world': World, ok: bool)
    requires n >= 1 && jobs >= 1
    ensures CopiesMayReturn(listed, except, n, jobs, data, world, copies, world', ok)
  {
    var order := Filtered(listed, except);
    var s := Race.SomeRunCompletes(WritePlan(n, order, jobs));
    CopiesOutcome(listed, except, order, n, jobs, data, world, s);
    copies, world', ok :=
      Objects(order, s.received), Stored(world, order, Copies(n, data), s.received), |s.received| >= n;
  }

  // ---------------------------------------------------------------- checking

  /** The objects whose status is OK; the check does not look at what they hold. */
  function OkWorld(scene: Scene, objects: seq<Object>): World {
    map o | o in objects && scene(o).Ok() :: []
  }

  function OkCount(scene: Scene, objects: seq<Object>): nat { Readable(OkWorld(scene, objects), objects) }

  /** What the number of confirmed objects says about n wanted copies. */
  function CopiesStatus(n: nat, confirmed: nat): CheckStatus {
    if confirmed == 0 then Invalid else if confirmed >= n then Optimal else Valid
  }

  /** r is a possible answer of CheckChunk for n wanted copies, under some schedule. */
  ghost predicate CheckCopiesMayReturn(
    n: nat, scene: Scene, cfg: ChunkConfig, jobs: nat, fast: bool, r: Result<CheckStatus>)
  {
    if cfg.objects == [] then r == Failure(UnexpectedObjectCount)
    else
      exists s :: Reachable(ReadPlan(if fast then 1 else n, OkWorld(scene, cfg.objects), cfg.objects, jobs), s) &&
        !s.sink.Draining? && r == Success(CopiesStatus(n, |s.received|))
  }

  /**
   * CheckChunk is exact: it refuses a chunk without objects, and otherwise answers Invalid if no object is OK
   * and Optimal if at least n are. A fast check stops at the first, so it only ever answers Optimal when one
   * copy is all that is wanted.
   */
  lemma CheckCopiesExact(n: nat, scene: Scene, cfg: ChunkConfig, jobs: nat, fast: bool, r: Result<CheckStatus>)
    requires n >= 1 && jobs >= 1 && CheckCopiesMayReturn(n, scene, cfg, jobs, fast, r)
    ensures r.Failure? <==> cfg.objects == []
    ensures r.Failure? ==> r.error == UnexpectedObjectCount
    ensures r.Success? ==> (r.value.Invalid? <==> OkCount(scene, cfg.objects) == 0)
    ensures r.Success? ==> (r.value.Optimal? <==> OkCount(scene, cfg.objects) >= n && (fast ==> n == 1))
  {
    if cfg.objects != [] {
      var world, k := OkWorld(scene, cfg.objects), if fast then 1 else n;
      var s :| Reachable(ReadPlan(k, world, cfg.objects, jobs), s) && !s.sink.Draining? &&
        r == Success(CopiesStatus(n, |s.received|));
      ReadCount(k, world, cfg.objects, jobs, s);
    }
  }

  // ---------------------------------------------------------------- telling good from bad

  /** A question about an object, and a worker's answer; index -1 means neither valid nor invalid. */
  datatype Probe = Ask(address: Object) | Tell(valid: bool, index: int)

  function Examine(scene: Scene): (nat, nat, Probe) -> Outcome<Probe> {
    (k: nat, i: nat, x: Probe) =>
      if !x.Ask? || !scene(x.address).reachable then Skip
      else match scene(x.address).status {
        case Some(ok) => Emit(if ok then Tell(true, i) else Tell(false, -1))
        case None => Emit(Tell(false, i))
      }
  }

  /** The goroutines of splitObjects. */
  function SplitPlan(scene: Scene, objects: seq<Object>, jobs: nat): Plan<Probe> {
    Plan(seq(|objects|, i requires 0 <= i < |objects| => Ask(objects[i])), false, jobs, [StagePlan(jobs, jobs)],
         false, false, Examine(scene), NeverStops(), NeverFails())
  }

  predicate Says(x: Probe, valid: bool) { x.Tell? && x.valid == valid && x.index >= 0 }

  /** The objects reported valid, or invalid, in the order of the reports. */
  function Told(q: seq<Item<Probe>>, valid: bool): seq<nat> {
    if q == [] then []
    else
      var x := q[|q| - 1].value;
      Told(q[..|q| - 1], valid) + if Says(x, valid) then [x.index] else []
  }

  ghost predicate Within(idx: seq<nat>, n: nat) {
    forall j :: 0 <= j < |idx| ==> idx[j] < n
  }

  function At(objects: seq<Object>, idx: seq<nat>): seq<Object>
    requires Within(idx, |objects|)
  {
    seq(|idx|, j requires 0 <= j < |idx| => objects[idx[j]])
  }

  /** The collector of splitObjects. */
  method SplitResults(objects: seq<Object>, q: seq<Item<Probe>>) returns (valid: seq<Object>, invalid: seq<Object>)
    requires Within(Told(q, true), |objects|) && Within(Told(q, false), |objects|)
    requires forall j :: 0 <= j < |q| ==> q[j].value.Tell? && q[j].value.index < |objects|
    requires forall j :: 0 <= j < |q| && q[j].value.valid ==> q[j].value.index >= 0
    ensures valid == At(objects, Told(q, true)) && invalid == At(objects, Told(q, false))
  {
    valid, invalid := [], [];
    for i := 0 to |q|
      invariant Within(Told(q[..i], true), |objects|) && Within(Told(q[..i], false), |objects|)
      invariant valid == At(objects, Told(q[..i], true)) && invalid == At(objects, Told(q[..i], false))
    {
      assert q[..i + 1][..i] == q[..i];
      var x := q[i].value;
      if x.valid {
        valid := valid + [objects[x.index]];
      } else if x.index >= 0 {
        invalid := invalid + [objects[x.index]];
      }
    }
    assert q[..|q|] == q;
  }

  lemma {:induction false} ToldMember(q: seq<Item<Probe>>, valid: bool, i: nat)
    ensures i in Told(q, valid) <==> exists j :: 0 <= j < |q| && q[j].value == Tell(valid, i)
  {
    if q != [] {
      ToldMember(q[..|q| - 1], valid, i);
      if q[|q| - 1].value == Tell(valid, i) {
        assert i in Told(q, valid);
      }
    }
  }

  function Self(): nat -> nat { (i: nat) => i }

  /** A worker's report carries the number of the object it is about, or -1. */
  ghost predicate Honest(q: seq<Item<Probe>>) {
    && (forall j :: 0 <= j < |q| ==>
          q[j].value.Tell? && (q[j].value.index == q[j].index || q[j].value == Tell(false, -1)))
    && (forall i, j :: 0 <= i < j < |q| ==> q[i].index != q[j].index)
  }

  lemma {:induction false} ToldDistinct(q: seq<Item<Probe>>, valid: bool)
    requires Honest(q)
    ensures Distinct(Told(q, valid), Self())
  {
    if q != [] {
      var rest, x := q[..|q| - 1], q[|q| - 1].value;
      ToldDistinct(rest, valid);
      if Says(x, valid) {
        ToldMember(rest, valid, x.index);
      }
    }
  }

  /** The objects a worker reports as valid, or as invalid. */
  ghost function Group(scene: Scene, objects: seq<Object>, valid: bool): set<nat> {
    set i: nat | i < |objects| && if valid then scene(objects[i]).Ok() else scene(objects[i]).Silent()
  }

  lemma SplitResult(scene: Scene, objects: seq<Object>, jobs: nat, i: nat)
    requires i < |objects|
    ensures SplitPlan(scene, objects, jobs).Result(i) == Examine(scene)(0, i, Ask(objects[i]))
  {
    OneStage(SplitPlan(scene, objects, jobs), i);
  }

  lemma {:induction false} SplitComplete(scene: Scene, objects: seq<Object>, jobs: nat, s: State<Probe>)
    requires jobs >= 1 && Reachable(SplitPlan(scene, objects, jobs), s) && !s.sink.Draining?
    ensures Honest(s.received) && NetworkSafety.Sound(SplitPlan(scene, objects, jobs), s.received)
    ensures NetworkSafety.Complete(SplitPlan(scene, objects, jobs), s.received)
  {
    var p := SplitPlan(scene, objects, jobs);
    NetworkSafety.ReceivedSound(p, s);
    NetworkSafety.InvReachable(p, s);
    forall i | 0 <= i < |p.inputs|
      ensures !p.Result(i).Fail?
    {
      SplitResult(scene, objects, jobs, i);
    }
    forall j | 0 <= j < |s.received|
      ensures s.received[j].value.Tell?
      ensures s.received[j].value.index == s.received[j].index || s.received[j].value == Tell(false, -1)
    {
      SplitResult(scene, objects, jobs, s.received[j].index);
    }
  }

  /** Under every schedule, exactly the objects of a group are reported, each once. */
  lemma {:induction false} SplitExact(scene: Scene, objects: seq<Object>, jobs: nat, s: State<Probe>, valid: bool)
    requires jobs >= 1 && Reachable(SplitPlan(scene, objects, jobs), s) && !s.sink.Draining?
    ensures var told := Told(s.received, valid);
      Distinct(told, Self()) && Hits(told, Self()) == Group(scene, objects, valid) && Within(told, |objects|)
  {
    var p, q := SplitPlan(scene, objects, jobs), s.received;
    var told := Told(q, valid);
    SplitComplete(scene, objects, jobs, s);
    ToldDistinct(q, valid);
    forall i: nat
      ensures i in told <==> i in Group(scene, objects, valid)
    {
      ToldMember(q, valid, i);
      if i in told {
        var j :| 0 <= j < |q| && q[j].value == Tell(valid, i);
        SplitResult(scene, objects, jobs, i);
      }
      if i in Group(scene, objects, valid) {
        SplitResult(scene, objects, jobs, i);
        NetworkSafety.OccMember(q, i);
        var j :| 0 <= j < |q| && q[j].index == i;
        assert q[j].value == Tell(valid, i);
      }
    }
    HitsSelf(told);
    forall j | 0 <= j < |told|
      ensures told[j] < |objects|
    {
      assert told[j] in told;
    }
  }

  lemma HitsSelf(idx: seq<nat>)
    ensures forall i: nat :: i in Hits(idx, Self()) <==> i in idx
  {
    forall i: nat
      ensures i in Hits(idx, Self()) <==> i in idx
    {
      if i in idx {
        var j :| 0 <= j < |idx| && idx[j] == i;
        assert Self()(idx[j]) == i;
      }
    }
  }
}
