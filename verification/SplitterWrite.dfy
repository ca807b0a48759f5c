/**
 * Writing a stream: it is cut into blocks, the blocks are hashed, processed and stored by
 * goroutines, and the resulting chunks are collected in order
 * (client/datastor/pipeline/async_splitter.go).
 */
module SplitterWrite {
  import opened Metatypes
  import opened Network
  import NetworkSafety
  import opened Scatter
  import opened Splitter

  /** What travels through the pipelines' channels. */
  datatype Payload =
    | Raw(data: Bytes)
    | Sealed(hash: Bytes, data: Bytes)
    | Stored(chunk: Chunk)
    | Flag(optimal: bool)
    | Moved(config: ChunkConfig)

  /** The hasher and the processor; a processor may refuse. */
  datatype Env = Env(hash: Bytes -> Bytes, write: Bytes -> Option<Bytes>, read: Bytes -> Option<Bytes>)

  function WriteWork(env: Env, store: (nat, Bytes) -> Option<ChunkConfig>): (nat, nat, Payload) -> Outcome<Payload> {
    (k: nat, i: nat, x: Payload) =>
      if k == 0 && x.Raw? then
        match env.write(x.data) {
          case None => Fail
          case Some(e) => Emit(Sealed(env.hash(x.data), e))
        }
      else if k == 1 && x.Sealed? then
        match store(i, x.data) {
          case None => Fail
          case Some(cfg) => Emit(Stored(Chunk(cfg.size, cfg.objects, x.hash)))
        }
      else Fail
  }

  /** One past the largest index that arrived. */
  function Width(q: seq<Item<Payload>>): nat {
    if q == [] then 0
    else
      var w, i := Width(q[..|q| - 1]), q[|q| - 1].index;
      if i >= w then i + 1 else w
  }

  /** The collector's test for missing chunks. */
  function HasGaps(): seq<Item<Payload>> -> bool { (q: seq<Item<Payload>>) => |q| != Width(q) }

  /** The goroutines of Write: `jobs` processors, twice as many storage goroutines, and the collector. */
  function WritePlan(env: Env, store: (nat, Bytes) -> Option<ChunkConfig>, r: Passed, jobs: nat): Plan<Payload> {
    Plan(seq(|r.blocks|, i requires 0 <= i < |r.blocks| => Raw(r.blocks[i])), r.failing, jobs,
         [StagePlan(jobs, 2 * jobs), StagePlan(2 * jobs, 2 * jobs)],
         false, false, WriteWork(env, store), NeverStops(), HasGaps())
  }

  // ---------------------------------------------------------------- collector

  function ChunkOf(): Item<Payload> -> Chunk {
    (x: Item<Payload>) => if x.value.Stored? then x.value.chunk else NO_CHUNK
  }

  function Zeroed(n: nat): seq<Chunk> { seq(n, _ => NO_CHUNK) }

  /** The chunks in the order of their blocks. */
  ghost function Ordered(q: seq<Item<Payload>>): seq<Chunk> {
    WidthFits(q);
    Scattered(Zeroed(Width(q)), q, IndexOf(), ChunkOf())
  }

  lemma {:induction false} WidthFits(q: seq<Item<Payload>>)
    ensures Fits(Width(q), q, IndexOf())
    ensures q != [] ==> exists j :: 0 <= j < |q| && q[j].index == Width(q) - 1
  {
    if q != [] {
      WidthFits(q[..|q| - 1]);
      if q[|q| - 1].index < Width(q[..|q| - 1]) {
        var j :| 0 <= j < |q| - 1 && q[..|q| - 1][j].index == Width(q[..|q| - 1]) - 1;
        assert q[j].index == Width(q) - 1;
      }
    }
  }

  /** Growing the buffer never loses a slot. */
  lemma {:induction false} GrowKeeps(base: seq<Chunk>, ext: seq<Chunk>, q: seq<Item<Payload>>)
    requires Fits(|base|, q, IndexOf())
    ensures Scattered(base + ext, q, IndexOf(), ChunkOf()) == Scattered(base, q, IndexOf(), ChunkOf()) + ext
  {
    if q != [] {
      GrowKeeps(base, ext, q[..|q| - 1]);
    }
  }

  lemma ZeroedSplit(a: nat, b: nat)
    requires a <= b
    ensures Zeroed(b) == Zeroed(a) + Zeroed(b - a)
  {
  }

  /** A buffer of n slots that holds the chunks that arrived. */
  ghost function Slots(n: nat, q: seq<Item<Payload>>): (r: seq<Chunk>)
    requires Fits(n, q, IndexOf())
    ensures |r| == n
  {
    Scattered(Zeroed(n), q, IndexOf(), ChunkOf())
  }

  lemma Regrown(a: nat, b: nat, q: seq<Item<Payload>>)
    requires a <= b && Fits(a, q, IndexOf())
    ensures Fits(b, q, IndexOf()) && Slots(b, q) == Slots(a, q) + Zeroed(b - a)
  {
    ZeroedSplit(a, b);
    GrowKeeps(Zeroed(a), Zeroed(b - a), q);
  }

  lemma SlotFilled(n: nat, arrivals: seq<Item<Payload>>, i: nat)
    requires i < |arrivals| && Fits(n, arrivals[..i], IndexOf()) && arrivals[i].index < n && arrivals[i].value.Stored?
    ensures Fits(n, arrivals[..i + 1], IndexOf())
    ensures Slots(n, arrivals[..i + 1]) == Slots(n, arrivals[..i])[arrivals[i].index := arrivals[i].value.chunk]
  {
    ScatteredSnoc(Zeroed(n), arrivals[..i], arrivals[i], IndexOf(), ChunkOf());
    assert arrivals[..i + 1] == arrivals[..i] + [arrivals[i]];
  }

  lemma WidthNext(arrivals: seq<Item<Payload>>, i: nat)
    requires i < |arrivals|
    ensures var w, x := Width(arrivals[..i]), arrivals[i].index;
      Width(arrivals[..i + 1]) == if x >= w then x + 1 else w
  {
    assert arrivals[..i + 1][..i] == arrivals[..i];
  }

  /** A larger buffer with the same content. */
  method Grow(buffer: array<Chunk>, size: nat) returns (next: array<Chunk>)
    requires buffer.Length <= size
    ensures fresh(next) && next.Length == size && next[..] == buffer[..] + Zeroed(size - buffer.Length)
  {
    next := new Chunk[size](j requires 0 <= j < size reads buffer => if j < buffer.Length then buffer[j] else NO_CHUNK);
  }

  /** Collect the chunks, growing the buffer as needed, and test for gaps at the end. */
  method CollectChunks(arrivals: seq<Item<Payload>>, jobs: nat) returns (chunks: seq<Chunk>, ok: bool)
    requires jobs >= 1
    requires forall j :: 0 <= j < |arrivals| ==> arrivals[j].value.Stored?
    ensures ok <==> !HasGaps()(arrivals)
    ensures chunks == Ordered(arrivals)
  {
    var buffer := new Chunk[jobs](_ => NO_CHUNK);
    var receivedCount, chunkSize := 0, 0;
    assert buffer[..] == Zeroed(jobs);
    for i := 0 to |arrivals|
      invariant receivedCount == i && chunkSize == Width(arrivals[..i]) <= buffer.Length
      invariant buffer.Length >= 1 && fresh(buffer)
      invariant Fits(buffer.Length, arrivals[..i], IndexOf()) && buffer[..] == Slots(buffer.Length, arrivals[..i])
    {
      var x := arrivals[i];
      if x.index >= buffer.Length {
        var size := x.index + buffer.Length * 2;
        Regrown(buffer.Length, size, arrivals[..i]);
        buffer := Grow(buffer, size);
      }
      SlotFilled(buffer.Length, arrivals, i);
      WidthNext(arrivals, i);
      buffer[x.index] := x.value.chunk;
      receivedCount := receivedCount + 1;
      if x.index >= chunkSize {
        chunkSize := x.index + 1;
      }
    }
    assert arrivals[..|arrivals|] == arrivals;
    ok := receivedCount == chunkSize;
    WidthFits(arrivals);
    Regrown(chunkSize, buffer.Length, arrivals);
    chunks := buffer[..chunkSize];
  }

  ghost predicate Arrived(q: seq<Item<Payload>>, i: nat) {
    exists j :: 0 <= j < |q| && q[j].index == i
  }

  /** For distinct indices, the collector's count test is exactly the absence of gaps. */
  lemma {:induction false} GapTestExact(q: seq<Item<Payload>>)
    requires Distinct(q, IndexOf())
    ensures !HasGaps()(q) <==> forall i :: 0 <= i < Width(q) ==> Arrived(q, i)
  {
    WidthFits(q);
    DistinctCount(q, IndexOf());
    BelowSize(Width(q));
    if |q| == Width(q) {
      forall i | 0 <= i < Width(q)
        ensures Arrived(q, i)
      {
        FullCoverage(q, IndexOf(), |q|, i);
        var j :| 0 <= j < |q| && IndexOf()(q[j]) == i;
        assert q[j].index == i;
      }
    } else if forall i :: 0 <= i < Width(q) ==> Arrived(q, i) {
      assert Hits(q, IndexOf()) == Below(Width(q)) by {
        forall i: nat
          ensures i in Hits(q, IndexOf()) <==> i in Below(Width(q))
        {
          if i < Width(q) {
            assert Arrived(q, i);
            var j :| 0 <= j < |q| && q[j].index == i;
            assert IndexOf()(q[j]) == i;
          }
        }
      }
    }
  }

  // ---------------------------------------------------------------- main results

  lemma WriteResult(env: Env, store: (nat, Bytes) -> Option<ChunkConfig>, r: Passed, jobs: nat, i: nat)
    requires i < |r.blocks|
    ensures var p := WritePlan(env, store, r, jobs);
      p.Result(i) == match env.write(r.blocks[i])
        case None => Fail
        case Some(e) => match store(i, e)
          case None => Fail
          case Some(cfg) => Emit(Stored(Chunk(cfg.size, cfg.objects, env.hash(r.blocks[i]))))
  {
    var p := WritePlan(env, store, r, jobs);
    assert p.Trace(0, i) == Emit(Raw(r.blocks[i]));
    assert p.Trace(1, i) == p.work(0, i, Raw(r.blocks[i])) by {
      assert p.Trace(1, i) == match p.Trace(0, i) case Emit(v) => p.work(0, i, v) case Skip => Skip case Fail => Fail;
    }
    assert p.Trace(2, i) == match p.Trace(1, i) case Emit(v) => p.work(1, i, v) case Skip => Skip case Fail => Fail;
  }

  /** Block i was processed into `sealed` and stored as described by cfg. */
  ghost predicate BlockStored(
    env: Env, store: (nat, Bytes) -> Option<ChunkConfig>, r: Passed, i: nat, chunk: Chunk)
  {
    i < |r.blocks| && env.write(r.blocks[i]).Some? && store(i, env.write(r.blocks[i]).value).Some? &&
    var cfg := store(i, env.write(r.blocks[i]).value).value;
    chunk == Chunk(cfg.size, cfg.objects, env.hash(r.blocks[i]))
  }

  /** A complete delivery has no gaps, and holds one result for every block. */
  lemma {:induction false} CompleteHasNoGaps(
    env: Env, store: (nat, Bytes) -> Option<ChunkConfig>, r: Passed, jobs: nat, q: seq<Item<Payload>>)
    requires var p := WritePlan(env, store, r, jobs); NetworkSafety.Complete(p, q) && NetworkSafety.Sound(p, q)
    ensures Width(q) == |r.blocks| && !HasGaps()(q) && Distinct(q, IndexOf())
  {
    var p := WritePlan(env, store, r, jobs);
    WidthFits(q);
    assert Distinct(q, IndexOf());
    forall i | 0 <= i < |r.blocks|
      ensures Arrived(q, i)
    {
      WriteResult(env, store, r, jobs, i);
      assert !p.Result(i).Fail?;
      NetworkSafety.OccMember(q, i);
    }
    assert Width(q) <= |r.blocks|;
    if |r.blocks| > 0 {
      assert Arrived(q, |r.blocks| - 1);
      var j :| 0 <= j < |q| && q[j].index == |r.blocks| - 1;
      assert IndexOf()(q[j]) < Width(q);
    }
    GapTestExact(q);
  }

  /**
   * Write, over every interleaving: it reports an error exactly when the reader, a processor or the
   * storage does, and otherwise chunk i is the stored form and the hash of the i-th block read.
   */
  lemma WriteExact(env: Env, store: (nat, Bytes) -> Option<ChunkConfig>, r: Passed, jobs: nat, s: State<Payload>)
    requires jobs >= 1
    requires Reachable(WritePlan(env, store, r, jobs), s) && Quiescent(s)
    ensures s.err <==> NetworkSafety.Faulty(WritePlan(env, store, r, jobs))
    ensures !s.err ==> |Ordered(s.received)| == |r.blocks| && !r.failing
    ensures !s.err ==> forall i :: 0 <= i < |r.blocks| ==> BlockStored(env, store, r, i, Ordered(s.received)[i])
  {
    var p := WritePlan(env, store, r, jobs);
    NetworkSafety.ReceivedSound(p, s);
    if s.err {
      NetworkSafety.ErrorHasCause(p, s);
      if s.sink.Finished? && NetworkSafety.Complete(p, s.received) {
        CompleteHasNoGaps(env, store, r, jobs, s.received);
      }
    } else {
      NetworkSafety.NoErrorNoLoss(p, s);
      CompleteHasNoGaps(env, store, r, jobs, s.received);
      forall i | 0 <= i < |r.blocks|
        ensures BlockStored(env, store, r, i, Ordered(s.received)[i])
      {
        WriteResult(env, store, r, jobs, i);
        NetworkSafety.OccMember(s.received, i);
        var j :| 0 <= j < |s.received| && s.received[j].index == i;
        WidthFits(s.received);
        ScatteredHit(Zeroed(|r.blocks|), s.received, IndexOf(), ChunkOf(), j);
      }
    }
  }

  /** The processor or the storage refuses this block. */
  predicate Refused(env: Env, store: (nat, Bytes) -> Option<ChunkConfig>, i: nat, data: Bytes) {
    env.write(data).None? || store(i, env.write(data).value).None?
  }

  /** The chunk of this block: where its processed form is stored, and the hash of its original form. */
  predicate ChunkFor(env: Env, store: (nat, Bytes) -> Option<ChunkConfig>, i: nat, data: Bytes, chunk: Chunk) {
    !Refused(env, store, i, data) && store(i, env.write(data).value) == Some(ChunkConfig(chunk.size, chunk.objects)) &&
    chunk.hash == env.hash(data)
  }

  /**
   * Write of a stream, in terms of what the reader returned: there is an error if and only if the reader
   * broke off or some block was refused, and otherwise there is one chunk for every read before the ending
   * one, in the order of the reads.
   */
  lemma {:induction false} WriteStreamExact(
    env: Env, store: (nat, Bytes) -> Option<ChunkConfig>, stream: seq<Reading>, jobs: nat, s: State<Payload>)
    requires jobs >= 1 && Ending(stream) < |stream|
    requires Reachable(WritePlan(env, store, Cut(stream), jobs), s) && Quiescent(s)
    ensures s.err <==>
      || stream[Ending(stream)].end.Broken?
      || exists i :: 0 <= i < Ending(stream) && Refused(env, store, i, stream[i].bytes)
    ensures !s.err ==> |Ordered(s.received)| == Ending(stream)
    ensures !s.err ==> forall i :: 0 <= i < Ending(stream) ==>
      ChunkFor(env, store, i, stream[i].bytes, Ordered(s.received)[i])
  {
    var r, p := Cut(stream), WritePlan(env, store, Cut(stream), jobs);
    WriteExact(env, store, r, jobs, s);
    forall i | 0 <= i < Ending(stream)
      ensures p.Result(i).Fail? <==> Refused(env, store, i, stream[i].bytes)
    {
      WriteResult(env, store, r, jobs, i);
    }
    if !s.err {
      forall i | 0 <= i < Ending(stream)
        ensures ChunkFor(env, store, i, stream[i].bytes, Ordered(s.received)[i])
      {
        assert BlockStored(env, store, r, i, Ordered(s.received)[i]);
      }
    }
  }
}
