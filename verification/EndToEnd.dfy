/** What is written can be read back, through both pipelines and the erasure-coded storage. */
module EndToEnd {
  import opened Metatypes
  import opened Network
  import NetworkSafety
  import NetworkProgress
  import Erasure
  import Distributed
  import opened Splitter
  import opened SplitterWrite
  import opened SplitterRead

  /** Unprocessing undoes processing. */
  ghost predicate Inverse(env: Env) {
    forall d, e :: env.write(d) == Some(e) ==> env.read(e) == Some(d)
  }

  /** The shards and the stored objects around one WriteChunk call. */
  datatype Call = Call(shards: seq<Distributed.Shard>, before: Distributed.World, after: Distributed.World)

  /** Each answer of the storage to a write is a possible outcome of WriteChunk. */
  ghost predicate StoresBy(c: Erasure.Code, jobs: nat, calls: nat -> Call, store: (nat, Bytes) -> Option<ChunkConfig>)
    requires c.k >= 1
  {
    forall i: nat, d :: store(i, d).Some? ==>
      Distributed.Cluster(calls(i).shards) &&
      Distributed.WriteMayReturn(c, calls(i).shards, jobs, d, calls(i).before, store(i, d).value, calls(i).after, true)
  }

  /** Each answer of the storage to a read is a possible outcome of ReadChunk. */
  ghost predicate FetchesBy(
    c: Erasure.Code, jobs: nat, world: Distributed.World, fetch: (nat, ChunkConfig) -> Option<Bytes>)
  {
    forall i: nat, cfg: ChunkConfig :: cfg.size >= 0 ==> Fetched(c, jobs, world, cfg, fetch(i, cfg))
  }

  ghost predicate Fetched(
    c: Erasure.Code, jobs: nat, world: Distributed.World, cfg: ChunkConfig, answer: Option<Bytes>)
  {
    exists r :: Distributed.ReadMayReturn(c, world, cfg, jobs, r) &&
      answer == if r.Success? then Some(r.value) else None
  }

  /**
   * Between writing and reading a chunk, at most m of its objects have been lost, and the others hold
   * what they held.
   */
  ghost predicate Survived(c: Erasure.Code, after: Distributed.World, world: Distributed.World, cfg: ChunkConfig) {
    && (forall j :: 0 <= j < |cfg.objects| && cfg.objects[j] in world ==>
          cfg.objects[j] in after && world[cfg.objects[j]] == after[cfg.objects[j]])
    && Distributed.Readable(world, cfg.objects) + c.m >= |cfg.objects|
  }

  /** A chunk written by one call and damaged in at most m places is read back, whatever the schedules. */
  lemma ChunkSurvives(
    c: Erasure.Code, jobs: nat, call: Call, data: Bytes, cfg: ChunkConfig, world: Distributed.World, r: Result<Bytes>)
    requires Erasure.Sound(c) && jobs >= 1 && Distributed.Cluster(call.shards)
    requires Distributed.WriteMayReturn(c, call.shards, jobs, data, call.before, cfg, call.after, true)
    requires Survived(c, call.after, world, cfg)
    requires Distributed.ReadMayReturn(c, world, cfg, jobs, r)
    ensures r == Success(data)
  {
    Distributed.WriteChunkExact(c, call.shards, jobs, data, call.before, cfg, call.after, true);
    Erasure.EncodedUniform(c, data);
    Distributed.ReadChunkExact(c, world, cfg, jobs, data, r);
  }

  /** The chunk of block i is fetched, restored and verified. */
  lemma BlockComesBack(
    env: Env, c: Erasure.Code, jobs: nat, calls: nat -> Call, store: (nat, Bytes) -> Option<ChunkConfig>, r: Passed,
    world: Distributed.World, fetch: (nat, ChunkConfig) -> Option<Bytes>, i: nat, j: nat, chunk: Chunk)
    requires Erasure.Sound(c) && jobs >= 1 && Inverse(env)
    requires StoresBy(c, jobs, calls, store) && FetchesBy(c, jobs, world, fetch)
    requires BlockStored(env, store, r, i, chunk) && Survived(c, calls(i).after, world, chunk.Config())
    ensures fetch(j, chunk.Config()) == env.write(r.blocks[i]) &&
      env.read(env.write(r.blocks[i]).value) == Some(r.blocks[i])
    ensures env.hash(r.blocks[i]) == chunk.hash
  {
    var e := env.write(r.blocks[i]).value;
    var cfg := store(i, e).value;
    assert chunk.Config() == cfg;
    Distributed.WriteChunkExact(c, calls(i).shards, jobs, e, calls(i).before, cfg, calls(i).after, true);
    assert Fetched(c, jobs, world, cfg, fetch(j, cfg));
    var answer :| Distributed.ReadMayReturn(c, world, cfg, jobs, answer) &&
      fetch(j, cfg) == if answer.Success? then Some(answer.value) else None;
    ChunkSurvives(c, jobs, calls(i), e, cfg, world, answer);
  }

  ghost predicate AllSurvived(c: Erasure.Code, calls: nat -> Call, world: Distributed.World, chunks: seq<Chunk>) {
    forall i :: 0 <= i < |chunks| ==> Survived(c, calls(i).after, world, chunks[i].Config())
  }

  /**
   * End to end: for every stream, every interleaving of the write and the read pipeline and of the chunk
   * operations inside them, any processor with an inverse, and the loss of up to m objects per chunk in
   * between, take a Write without error and then a Read into a writer that accepts everything. The Read
   * succeeds if and only if the stream was cut into any blocks, and then its output is these blocks. It
   * gives back all bytes of the stream if and only if there is a block and the read that ended the stream
   * carried no bytes.
   */
  lemma {:induction false} WrittenIsReadBack(
    env: Env, c: Erasure.Code, jobs: nat, calls: nat -> Call, store: (nat, Bytes) -> Option<ChunkConfig>,
    stream: seq<Reading>, s: State<Payload>, world: Distributed.World,
    fetch: (nat, ChunkConfig) -> Option<Bytes>, w: Writer, output: Bytes, ok: bool)
    requires Erasure.Sound(c) && jobs >= 1 && Inverse(env) && Ending(stream) < |stream|
    requires StoresBy(c, jobs, calls, store) && FetchesBy(c, jobs, world, fetch)
    requires Reachable(WritePlan(env, store, Cut(stream), jobs), s) && Quiescent(s) && !s.err
    requires AllSurvived(c, calls, world, Ordered(s.received))
    requires forall n :: !w.fails(n)
    requires ReadMayReturn(env, fetch, Ordered(s.received), w, jobs, output, ok)
    ensures ok <==> Cut(stream).blocks != []
    ensures ok ==> output == Concat(Cut(stream).blocks)
    ensures ok && output == Delivered(stream) <==> Cut(stream).blocks != [] && stream[Ending(stream)].bytes == []
  {
    SplitterKeepsAllIff(stream);
    WriteExact(env, store, Cut(stream), jobs, s);
    BlocksComeBack(env, c, jobs, calls, store, Cut(stream), s, world, fetch);
    ReadCallExact(env, fetch, Ordered(s.received), w, jobs, output, ok);
  }

  /** Every chunk that was written can be fetched and verified, and gives its block back. */
  lemma BlocksComeBack(
    env: Env, c: Erasure.Code, jobs: nat, calls: nat -> Call, store: (nat, Bytes) -> Option<ChunkConfig>,
    r: Passed, s: State<Payload>, world: Distributed.World, fetch: (nat, ChunkConfig) -> Option<Bytes>)
    requires Erasure.Sound(c) && jobs >= 1 && Inverse(env)
    requires StoresBy(c, jobs, calls, store) && FetchesBy(c, jobs, world, fetch)
    requires Reachable(WritePlan(env, store, r, jobs), s) && Quiescent(s) && !s.err
    requires AllSurvived(c, calls, world, Ordered(s.received))
    ensures AllVerified(env, fetch, Ordered(s.received), r.blocks)
  {
    WriteExact(env, store, r, jobs, s);
    var chunks := Ordered(s.received);
    forall i | 0 <= i < |chunks|
      ensures Verified(env, fetch, chunks, i, r.blocks[i])
    {
      BlockComesBack(env, c, jobs, calls, store, r, world, fetch, i, i, chunks[i]);
    }
  }

  /** A stream whose first read ends it is written without error, whatever it carried, and Read refuses it. */
  lemma {:induction false} VanishedIsNotReadBack(
    env: Env, store: (nat, Bytes) -> Option<ChunkConfig>, jobs: nat, stream: seq<Reading>, s: State<Payload>,
    fetch: (nat, ChunkConfig) -> Option<Bytes>, w: Writer, output: Bytes, ok: bool)
    requires jobs >= 1 && Ending(stream) == 0 < |stream| && stream[0].end.Eof?
    requires Reachable(WritePlan(env, store, Cut(stream), jobs), s) && Quiescent(s)
    requires ReadMayReturn(env, fetch, Ordered(s.received), w, jobs, output, ok)
    ensures !s.err && !ok && output == []
  {
    WriteExact(env, store, Cut(stream), jobs, s);
    assert Cut(stream) == Passed([], false);
    assert !NetworkSafety.Faulty(WritePlan(env, store, Cut(stream), jobs));
  }

  // ---------------------------------------------------------------- the pipelines always come to an end

  /**
   * Write never hangs, whatever fails: in every reachable state in which some goroutine has not returned
   * some goroutine can move, no run is longer than the bound of its first state, and every schedule that
   * cannot be continued has all goroutines returned.
   */
  lemma {:induction false} WriteNeverHangs(
    env: Env, store: (nat, Bytes) -> Option<ChunkConfig>, stream: seq<Reading>, jobs: nat,
    s: State<Payload>, run: seq<Action>)
    requires jobs >= 1 && Ending(stream) < |stream| && Reachable(WritePlan(env, store, Cut(stream), jobs), s)
    ensures
      var p := WritePlan(env, store, Cut(stream), jobs);
      && Shaped(p, s) && (Quiescent(s) || exists a :: Enabled(p, s, a))
      && (Legal(p, s, run) ==> |run| <= NetworkProgress.Fuel(p, s))
      && (NetworkProgress.Maximal(p, run) ==> Quiescent(After(p, Init(p), run)))
  {
    NetworkProgress.NeverHangs(WritePlan(env, store, Cut(stream), jobs), s, run);
  }

  /** Neither does Read. */
  lemma {:induction false} ReadNeverHangs(
    env: Env, fetch: (nat, ChunkConfig) -> Option<Bytes>, chunks: seq<Chunk>, w: Writer, jobs: nat,
    s: State<Payload>, run: seq<Action>)
    requires jobs >= 1 && |chunks| >= 2 && Reachable(ReadPlan(env, fetch, chunks, w, jobs), s)
    ensures
      var p := ReadPlan(env, fetch, chunks, w, jobs);
      && Shaped(p, s) && (Quiescent(s) || exists a :: Enabled(p, s, a))
      && (Legal(p, s, run) ==> |run| <= NetworkProgress.Fuel(p, s))
      && (NetworkProgress.Maximal(p, run) ==> Quiescent(After(p, Init(p), run)))
  {
    NetworkProgress.NeverHangs(ReadPlan(env, fetch, chunks, w, jobs), s, run);
  }
}
