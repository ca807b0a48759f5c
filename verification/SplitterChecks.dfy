/**
 * Checking and repairing many chunks in parallel (client/datastor/pipeline/async_splitter.go). One
 * group of goroutines calls the storage; a goroutine's error cancels the others at once.
 */
module SplitterChecks {
  import opened Metatypes
  import opened Network
  import NetworkSafety
  import NetworkProgress
  import opened Scatter
  import opened SplitterWrite

  /** Chunks, a single group of goroutines, and a sink that takes all results. */
  function PerChunk(chunks: seq<Chunk>, jobs: nat, work: (nat, nat, Payload) -> Outcome<Payload>): Plan<Payload> {
    var n := |chunks|;
    Plan(seq(n, i requires 0 <= i < n => Stored(chunks[i])), false, Limited(jobs, n),
         [StagePlan(Limited(jobs, n), Limited(jobs, n))], true, false, work, NeverStops(), NeverFails())
  }

  lemma PerChunkResult(chunks: seq<Chunk>, jobs: nat, work: (nat, nat, Payload) -> Outcome<Payload>, i: nat)
    requires i < |chunks|
    ensures PerChunk(chunks, jobs, work).Result(i) == work(0, i, Stored(chunks[i]))
  {
    OneStage(PerChunk(chunks, jobs, work), i);
  }

  /** There is an error exactly if one of the calls fails, and otherwise every result arrives once. */
  lemma PerChunkExact(chunks: seq<Chunk>, jobs: nat, work: (nat, nat, Payload) -> Outcome<Payload>, s: State<Payload>)
    requires |chunks| >= 1 && jobs >= 1
    requires Reachable(PerChunk(chunks, jobs, work), s) && Quiescent(s)
    ensures s.err <==> exists i :: 0 <= i < |chunks| && work(0, i, Stored(chunks[i])).Fail?
    ensures !s.err ==> NetworkSafety.Complete(PerChunk(chunks, jobs, work), s.received)
    ensures NetworkSafety.Sound(PerChunk(chunks, jobs, work), s.received)
  {
    var p := PerChunk(chunks, jobs, work);
    NetworkSafety.ReceivedSound(p, s);
    forall i | 0 <= i < |chunks|
      ensures p.Result(i) == work(0, i, Stored(chunks[i]))
    {
      PerChunkResult(chunks, jobs, work, i);
    }
    if s.err {
      NetworkSafety.ErrorHasCause(p, s);
    } else {
      NetworkSafety.NoErrorNoLoss(p, s);
    }
  }

  // ---------------------------------------------------------------- check

  /** A goroutine of Check: an invalid chunk is reported as an error. */
  function CheckWork(check: (nat, ChunkConfig) -> Option<CheckStatus>): (nat, nat, Payload) -> Outcome<Payload> {
    (k: nat, i: nat, x: Payload) =>
      if x.Stored? then
        match check(i, x.chunk.Config()) {
          case None => Fail
          case Some(status) => if status.Invalid? then Fail else Emit(Flag(status.Optimal?))
        }
      else Fail
  }

  ghost predicate AllOptimal(q: seq<Item<Payload>>) {
    forall j :: 0 <= j < |q| ==> q[j].value == Flag(true)
  }

  /** The result fetcher of Check. */
  method FoldFlags(arrivals: seq<Item<Payload>>) returns (optimal: bool)
    requires forall j :: 0 <= j < |arrivals| ==> arrivals[j].value.Flag?
    ensures optimal <==> AllOptimal(arrivals)
  {
    optimal := true;
    for i := 0 to |arrivals|
      invariant optimal <==> AllOptimal(arrivals[..i])
    {
      assert arrivals[..i + 1] == arrivals[..i] + [arrivals[i]];
      optimal := optimal && arrivals[i].value.optimal;
    }
    assert arrivals[..|arrivals|] == arrivals;
  }

  /** The worst of the chunks' statuses. */
  function Worst(check: (nat, ChunkConfig) -> Option<CheckStatus>, chunks: seq<Chunk>, n: nat): (r: CheckStatus)
    requires n <= |chunks|
    requires forall i :: 0 <= i < n ==> check(i, chunks[i].Config()).Some?
    ensures forall i :: 0 <= i < n ==> r.Rank() <= check(i, chunks[i].Config()).value.Rank()
    ensures r == Optimal || exists i :: 0 <= i < n && r == check(i, chunks[i].Config()).value
  {
    if n == 0 then Optimal
    else
      var r, last := Worst(check, chunks, n - 1), check(n - 1, chunks[n - 1].Config()).value;
      if last.Rank() < r.Rank() then last else r
  }

  /** The answer of a pipeline: the error of the pipeline itself, or that of a call to the storage. */
  datatype Answer<+T> = Answer(value: T) | NoChunks | StorageFailed

  /**
   * What Check answers once all goroutines have returned. The error that is kept, that of the first call
   * that failed, tells an invalid chunk from a call that could not be made.
   */
  ghost function CheckAnswer(
    check: (nat, ChunkConfig) -> Option<CheckStatus>, chunks: seq<Chunk>, s: State<Payload>, first: Option<nat>)
    : Answer<CheckStatus>
  {
    if !s.err then Answer(if AllOptimal(s.received) then Optimal else Valid)
    else if first.Some? && first.value < |chunks| && check(first.value, chunks[first.value].Config()).Some? then
      Answer(Invalid)
    else StorageFailed
  }

  /** r is a possible answer of Check: a single chunk is checked without goroutines. */
  ghost predicate CheckMayReturn(
    check: (nat, ChunkConfig) -> Option<CheckStatus>, chunks: seq<Chunk>, jobs: nat, r: Answer<CheckStatus>)
  {
    if chunks == [] then r == NoChunks
    else if |chunks| == 1 then
      r == match check(0, chunks[0].Config()) case None => StorageFailed case Some(status) => Answer(status)
    else
      var p := PerChunk(chunks, jobs, CheckWork(check));
      exists run ::
        && Legal(p, Init(p), run) && Quiescent(After(p, Init(p), run))
        && r == CheckAnswer(check, chunks, After(p, Init(p), run), NetworkSafety.FirstFail(p, Init(p), run))
  }

  /** The storage has an answer for every chunk. */
  ghost predicate AllAnswered(check: (nat, ChunkConfig) -> Option<CheckStatus>, chunks: seq<Chunk>) {
    forall i :: 0 <= i < |chunks| ==> check(i, chunks[i].Config()).Some?
  }

  /** The storage has this answer for some chunk. */
  ghost predicate Someone(
    check: (nat, ChunkConfig) -> Option<CheckStatus>, chunks: seq<Chunk>, answer: Option<CheckStatus>)
  {
    exists i :: 0 <= i < |chunks| && check(i, chunks[i].Config()) == answer
  }

  /** The network of Check ends with an error exactly if some call fails or some chunk is invalid. */
  lemma {:induction false} CheckFails(
    check: (nat, ChunkConfig) -> Option<CheckStatus>, chunks: seq<Chunk>, jobs: nat, s: State<Payload>)
    requires |chunks| >= 1 && jobs >= 1
    requires Reachable(PerChunk(chunks, jobs, CheckWork(check)), s) && Quiescent(s)
    ensures s.err <==> Someone(check, chunks, None) || Someone(check, chunks, Some(Invalid))
    ensures !s.err ==> (AllOptimal(s.received) <==> !Someone(check, chunks, Some(Valid)))
  {
    var work, p := CheckWork(check), PerChunk(chunks, jobs, CheckWork(check));
    PerChunkExact(chunks, jobs, work, s);
    forall i | 0 <= i < |chunks|
      ensures work(0, i, Stored(chunks[i])).Fail? <==>
        check(i, chunks[i].Config()).None? || check(i, chunks[i].Config()) == Some(Invalid)
    {
    }
    if !s.err {
      forall i | 0 <= i < |chunks|
        ensures check(i, chunks[i].Config()).Some? && Occ(s.received, i) > 0
      {
        assert !work(0, i, Stored(chunks[i])).Fail?;
        PerChunkResult(chunks, jobs, work, i);
      }
      FlagsAgree(check, chunks, jobs, s.received);
    }
  }

  lemma KnownAnswers(answer: Option<CheckStatus>)
    ensures answer in {None, Some(Invalid), Some(Valid), Some(Optimal)}
  {
    if answer.Some? {
      match answer.value
      case Invalid =>
      case Valid =>
      case Optimal =>
    }
  }

  /** An answer of the network. */
  lemma {:induction false} CheckNetworkExact(
    check: (nat, ChunkConfig) -> Option<CheckStatus>, chunks: seq<Chunk>, jobs: nat, run: seq<Action>)
    requires |chunks| >= 1 && jobs >= 1 && Legal(PerChunk(chunks, jobs, CheckWork(check)),
      Init(PerChunk(chunks, jobs, CheckWork(check))), run)
    requires
      var p := PerChunk(chunks, jobs, CheckWork(check));
      Quiescent(After(p, Init(p), run))
    ensures
      var p := PerChunk(chunks, jobs, CheckWork(check));
      var r := CheckAnswer(check, chunks, After(p, Init(p), run), NetworkSafety.FirstFail(p, Init(p), run));
      CheckFits(check, chunks, r)
  {
    var p := PerChunk(chunks, jobs, CheckWork(check));
    var s := After(p, Init(p), run);
    CheckFails(check, chunks, jobs, s);
    if s.err {
      NetworkSafety.FirstErrorIsKept(p, run);
      PerChunkResult(chunks, jobs, CheckWork(check), NetworkSafety.FirstFail(p, Init(p), run).value);
    } else {
      var answer := check(0, chunks[0].Config());
      assert Someone(check, chunks, answer);
      KnownAnswers(answer);
    }
  }

  /**
   * An answer that fits the storage: a status that is not Invalid is the worst of all statuses, Invalid is
   * that of some chunk, and an error that of some call.
   */
  ghost predicate CheckFits(
    check: (nat, ChunkConfig) -> Option<CheckStatus>, chunks: seq<Chunk>, r: Answer<CheckStatus>)
  {
    match r
    case NoChunks => chunks == []
    case StorageFailed => Someone(check, chunks, None)
    case Answer(status) =>
      && chunks != [] && Someone(check, chunks, Some(status))
      && (!status.Invalid? ==> AllAnswered(check, chunks) && !Someone(check, chunks, Some(Invalid)))
      && (status.Optimal? ==> !Someone(check, chunks, Some(Valid)))
  }

  /** Check, for any number of chunks, any answers of the storage and any schedule. */
  lemma {:induction false} CheckExact(
    check: (nat, ChunkConfig) -> Option<CheckStatus>, chunks: seq<Chunk>, jobs: nat, r: Answer<CheckStatus>)
    requires jobs >= 1 && CheckMayReturn(check, chunks, jobs, r)
    ensures CheckFits(check, chunks, r)
  {
    if |chunks| == 1 {
      assert check(0, chunks[0].Config()).None? ==> Someone(check, chunks, None);
    } else if |chunks| >= 2 {
      var p := PerChunk(chunks, jobs, CheckWork(check));
      var run :|
        && Legal(p, Init(p), run) && Quiescent(After(p, Init(p), run))
        && r == CheckAnswer(check, chunks, After(p, Init(p), run), NetworkSafety.FirstFail(p, Init(p), run));
      CheckNetworkExact(check, chunks, jobs, run);
    }
  }

  /** When no call to the storage fails, Check answers the worst of the statuses under every schedule. */
  lemma {:induction false} CheckIsWorst(
    check: (nat, ChunkConfig) -> Option<CheckStatus>, chunks: seq<Chunk>, jobs: nat, r: Answer<CheckStatus>)
    requires jobs >= 1 && chunks != [] && AllAnswered(check, chunks) && CheckMayReturn(check, chunks, jobs, r)
    ensures r == Answer(Worst(check, chunks, |chunks|))
  {
    CheckExact(check, chunks, jobs, r);
  }

  /** All flags are set exactly if all chunks are optimal. */
  lemma {:induction false} FlagsAgree(
    check: (nat, ChunkConfig) -> Option<CheckStatus>, chunks: seq<Chunk>, jobs: nat, q: seq<Item<Payload>>)
    requires forall i :: 0 <= i < |chunks| ==> check(i, chunks[i].Config()).Some?
    requires forall i :: 0 <= i < |chunks| ==> Occ(q, i) > 0
    requires NetworkSafety.Sound(PerChunk(chunks, jobs, CheckWork(check)), q)
    ensures AllOptimal(q) <==> forall i :: 0 <= i < |chunks| ==> check(i, chunks[i].Config()).value.Optimal?
  {
    forall j | 0 <= j < |q|
      ensures q[j].index < |chunks|
      ensures q[j].value == Flag(check(q[j].index, chunks[q[j].index].Config()).value.Optimal?)
    {
      PerChunkResult(chunks, jobs, CheckWork(check), q[j].index);
    }
    if AllOptimal(q) {
      forall i | 0 <= i < |chunks|
        ensures check(i, chunks[i].Config()).value.Optimal?
      {
        NetworkSafety.OccMember(q, i);
      }
    }
  }

  // ---------------------------------------------------------------- repair

  function RepairWork(repair: (nat, ChunkConfig) -> Option<ChunkConfig>): (nat, nat, Payload) -> Outcome<Payload> {
    (k: nat, i: nat, x: Payload) =>
      if x.Stored? then
        match repair(i, x.chunk.Config()) {
          case None => Fail
          case Some(cfg) => Emit(Moved(cfg))
        }
      else Fail
  }

  /** The repaired chunk: a new place for the data, and the hash it always had. */
  function Rehashed(chunks: seq<Chunk>): Item<Payload> -> Chunk {
    (x: Item<Payload>) =>
      if x.value.Moved? && x.index < |chunks| then
        Chunk(x.value.config.size, x.value.config.objects, chunks[x.index].hash)
      else NO_CHUNK
  }

  ghost function RepairedChunks(chunks: seq<Chunk>, q: seq<Item<Payload>>): seq<Chunk>
    requires Fits(|chunks|, q, IndexOf())
  {
    Scattered(Zeroed(|chunks|), q, IndexOf(), Rehashed(chunks))
  }

  /** The result fetcher of Repair. */
  method CollectRepaired(chunks: seq<Chunk>, arrivals: seq<Item<Payload>>) returns (output: seq<Chunk>)
    requires Fits(|chunks|, arrivals, IndexOf())
    requires forall j :: 0 <= j < |arrivals| ==> arrivals[j].value.Moved?
    ensures output == RepairedChunks(chunks, arrivals)
  {
    var n := |chunks|;
    var slots := new Chunk[n](_ => NO_CHUNK);
    assert slots[..] == Zeroed(n);
    for i := 0 to |arrivals|
      invariant Fits(n, arrivals[..i], IndexOf())
      invariant slots[..] == RepairedChunks(chunks, arrivals[..i])
    {
      var x := arrivals[i];
      ScatteredSnoc(Zeroed(n), arrivals[..i], x, IndexOf(), Rehashed(chunks));
      assert arrivals[..i + 1] == arrivals[..i] + [x] && IndexOf()(x) < n;
      slots[x.index] := Chunk(x.value.config.size, x.value.config.objects, chunks[x.index].hash);
    }
    assert arrivals[..|arrivals|] == arrivals;
    output := slots[..];
  }

  /**
   * Repair, over every interleaving: it fails exactly if the repair of some chunk does, and otherwise
   * chunk i of the result is the repaired configuration of chunk i, with the hash of chunk i.
   */
  lemma RepairExact(repair: (nat, ChunkConfig) -> Option<ChunkConfig>, chunks: seq<Chunk>, jobs: nat, s: State<Payload>)
    requires |chunks| >= 1 && jobs >= 1
    requires Reachable(PerChunk(chunks, jobs, RepairWork(repair)), s) && Quiescent(s)
    ensures Fits(|chunks|, s.received, IndexOf())
    ensures s.err <==> exists i :: 0 <= i < |chunks| && repair(i, chunks[i].Config()).None?
    ensures !s.err ==> forall i :: 0 <= i < |chunks| ==>
      repair(i, chunks[i].Config()).Some? &&
      RepairedChunks(chunks, s.received)[i].Config() == repair(i, chunks[i].Config()).value &&
      RepairedChunks(chunks, s.received)[i].hash == chunks[i].hash
  {
    var work := RepairWork(repair);
    var p := PerChunk(chunks, jobs, work);
    PerChunkExact(chunks, jobs, work, s);
    var q := s.received;
    assert Fits(|chunks|, q, IndexOf());
    assert forall i :: 0 <= i < |chunks| ==>
      (work(0, i, Stored(chunks[i])).Fail? <==> repair(i, chunks[i].Config()).None?);
    if !s.err {
      assert Distinct(q, IndexOf());
      forall i | 0 <= i < |chunks|
        ensures repair(i, chunks[i].Config()).Some? && RepairedChunks(chunks, q)[i] ==
          Chunk(repair(i, chunks[i].Config()).value.size, repair(i, chunks[i].Config()).value.objects, chunks[i].hash)
      {
        PerChunkResult(chunks, jobs, work, i);
        NetworkSafety.OccMember(q, i);
        var j :| 0 <= j < |q| && q[j].index == i;
        ScatteredHit(Zeroed(|chunks|), q, IndexOf(), Rehashed(chunks), j);
      }
    }
  }

  /** r is a possible answer of Repair: a single chunk is repaired without goroutines. */
  ghost predicate RepairMayReturn(
    repair: (nat, ChunkConfig) -> Option<ChunkConfig>, chunks: seq<Chunk>, jobs: nat, r: Answer<seq<Chunk>>)
  {
    if chunks == [] then r == NoChunks
    else if |chunks| == 1 then
      r == match repair(0, chunks[0].Config())
        case None => StorageFailed
        case Some(cfg) => Answer([Chunk(cfg.size, cfg.objects, chunks[0].hash)])
    else
      exists s ::
        && Reachable(PerChunk(chunks, jobs, RepairWork(repair)), s) && Quiescent(s)
        && Fits(|chunks|, s.received, IndexOf())
        && r == if s.err then StorageFailed else Answer(RepairedChunks(chunks, s.received))
  }

  /** The repaired form of a chunk: where the repair says it is, and the hash it always had. */
  ghost predicate RepairedInto(repair: (nat, ChunkConfig) -> Option<ChunkConfig>, i: nat, chunk: Chunk, moved: Chunk) {
    repair(i, chunk.Config()) == Some(moved.Config()) && moved.hash == chunk.hash
  }

  /** Repair, for any number of chunks and any schedule. */
  lemma {:induction false} RepairCallExact(
    repair: (nat, ChunkConfig) -> Option<ChunkConfig>, chunks: seq<Chunk>, jobs: nat, r: Answer<seq<Chunk>>)
    requires jobs >= 1 && RepairMayReturn(repair, chunks, jobs, r)
    ensures r == NoChunks <==> chunks == []
    ensures r == StorageFailed <==> exists i :: 0 <= i < |chunks| && repair(i, chunks[i].Config()).None?
    ensures r.Answer? ==> |r.value| == |chunks|
    ensures r.Answer? ==> forall i :: 0 <= i < |chunks| ==> RepairedInto(repair, i, chunks[i], r.value[i])
  {
    if |chunks| >= 2 {
      var s :|
        && Reachable(PerChunk(chunks, jobs, RepairWork(repair)), s) && Quiescent(s)
        && Fits(|chunks|, s.received, IndexOf())
        && r == if s.err then StorageFailed else Answer(RepairedChunks(chunks, s.received));
      RepairExact(repair, chunks, jobs, s);
    }
  }

  /**
   * Both operations return under every schedule: they make progress in every reachable state, no run is
   * longer than the bound of its first state, and a schedule that cannot be continued has all returned.
   */
  lemma {:induction false} PerChunkReturns(
    chunks: seq<Chunk>, jobs: nat, work: (nat, nat, Payload) -> Outcome<Payload>, s: State<Payload>, run: seq<Action>)
    requires |chunks| >= 1 && jobs >= 1 && Reachable(PerChunk(chunks, jobs, work), s)
    ensures
      var p := PerChunk(chunks, jobs, work);
      && Shaped(p, s) && (Quiescent(s) || exists a :: Enabled(p, s, a))
      && (Legal(p, s, run) ==> |run| <= NetworkProgress.Fuel(p, s))
      && (NetworkProgress.Maximal(p, run) ==> Quiescent(After(p, Init(p), run)))
  {
    NetworkProgress.NeverHangs(PerChunk(chunks, jobs, work), s, run);
  }
}
