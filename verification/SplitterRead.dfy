/**
 * Reading chunks back: they are fetched, unprocessed and verified by goroutines, and composed into
 * the output in their original order (client/datastor/pipeline/async_splitter.go).
 */
module SplitterRead {
  import opened Metatypes
  import opened Network
  import NetworkSafety
  import opened Scatter
  import opened SplitterWrite

  /** An output stream: whether the n-th write fails, and how many bytes a failing write still takes. */
  datatype Writer = Writer(fails: nat -> bool, partial: nat -> nat)

  /** The first failing write below n, or n. */
  function FirstFailure(w: Writer, n: nat): (f: nat)
    ensures f <= n && (f < n ==> w.fails(f)) && forall i :: 0 <= i < f ==> !w.fails(i)
  {
    if n == 0 then 0
    else
      var f := FirstFailure(w, n - 1);
      if f < n - 1 || w.fails(n - 1) then f else n
  }

  function ReadWork(env: Env, fetch: (nat, ChunkConfig) -> Option<Bytes>): (nat, nat, Payload) -> Outcome<Payload> {
    (k: nat, i: nat, x: Payload) =>
      if k == 0 && x.Stored? then
        match fetch(i, x.chunk.Config()) {
          case None => Fail
          case Some(d) => Emit(Sealed(x.chunk.hash, d))
        }
      else if k == 1 && x.Sealed? then
        match env.read(x.data) {
          case None => Fail
          case Some(d) => if env.hash(d) == x.hash then Emit(Raw(d)) else Fail
        }
      else Fail
  }

  /** The first block, counting from 0, that has not arrived. */
  function Front(q: seq<Item<Payload>>): nat { FrontFrom(q, 0) }

  function FrontFrom(q: seq<Item<Payload>>, i: nat): nat
    decreases |q| - i
  {
    if i < |q| && Occ(q, i) > 0 then FrontFrom(q, i + 1) else i
  }

  /** The composer returns an error when one of the writes it makes fails. */
  function ComposerVerdict(w: Writer): seq<Item<Payload>> -> Verdict {
    (q: seq<Item<Payload>>) => if FirstFailure(w, Front(q)) < Front(q) then Reject else Continue
  }

  /** The goroutines of Read for at least two chunks; there are never more of a kind than chunks. */
  function ReadPlan(
    env: Env, fetch: (nat, ChunkConfig) -> Option<Bytes>, chunks: seq<Chunk>, w: Writer, jobs: nat): Plan<Payload>
  {
    var n := |chunks|;
    var storers := if 2 * jobs > n then n else 2 * jobs;
    var processors := if jobs > n || 2 * jobs > n then n else jobs;
    Plan(seq(n, i requires 0 <= i < n => Stored(chunks[i])), false, storers,
         [StagePlan(storers, processors), StagePlan(processors, processors)],
         false, false, ReadWork(env, fetch), ComposerVerdict(w), NeverFails())
  }

  // ---------------------------------------------------------------- composer

  /** The data of block i among the arrivals. */
  function Lookup(q: seq<Item<Payload>>, i: nat): Bytes {
    if q == [] then []
    else if q[0].index == i then (if q[0].value.Raw? then q[0].value.data else [])
    else Lookup(q[1..], i)
  }

  /** Blocks 0 to n - 1, in order. */
  function Blocks(q: seq<Item<Payload>>, n: nat): seq<Bytes> {
    seq(n, i requires 0 <= i < n => Lookup(q, i))
  }

  function Taken(w: Writer, n: nat, data: Bytes): Bytes {
    if w.partial(n) < |data| then data[..w.partial(n)] else data
  }

  /** What has reached the output once the composer has handled these arrivals. */
  function Composed(w: Writer, q: seq<Item<Payload>>): Bytes {
    var n := Front(q);
    var f := FirstFailure(w, n);
    Concat(Blocks(q, f)) + if f < n then Taken(w, f, Lookup(q, f)) else []
  }

  ghost predicate Arrivals(q: seq<Item<Payload>>) {
    Distinct(q, IndexOf()) && forall j :: 0 <= j < |q| ==> q[j].value.Raw?
  }

  lemma {:induction false} LookupHit(q: seq<Item<Payload>>, j: nat)
    requires Arrivals(q) && j < |q|
    ensures Lookup(q, q[j].index) == q[j].value.data && Occ(q, q[j].index) > 0
  {
    if j > 0 {
      assert IndexOf()(q[0]) != IndexOf()(q[j]);
      TailArrivals(q);
      LookupHit(q[1..], j - 1);
    }
  }

  lemma TailArrivals(q: seq<Item<Payload>>)
    requires Arrivals(q) && q != []
    ensures Arrivals(q[1..])
  {
  }

  lemma {:induction false} LookupSnoc(q: seq<Item<Payload>>, x: Item<Payload>, i: nat)
    requires Occ(q, i) > 0
    ensures Lookup(q + [x], i) == Lookup(q, i)
  {
    if q[0].index != i {
      assert (q + [x])[1..] == q[1..] + [x];
      LookupSnoc(q[1..], x, i);
    }
  }

  lemma {:induction false} FrontBelow(q: seq<Item<Payload>>, i: nat, j: nat)
    requires i <= j < FrontFrom(q, i)
    ensures Occ(q, j) > 0
    decreases |q| - i
  {
    if i < j {
      FrontBelow(q, i + 1, j);
    }
  }

  lemma {:induction false} FrontIs(q: seq<Item<Payload>>, i: nat, n: nat)
    requires i <= n <= |q| && (forall j :: i <= j < n ==> Occ(q, j) > 0) && (n < |q| ==> Occ(q, n) == 0)
    ensures FrontFrom(q, i) == n
    decreases |q| - i
  {
    if i < n {
      FrontIs(q, i + 1, n);
    }
  }

  /** A run of n distinct blocks needs n arrivals. */
  lemma {:induction false} RunFits(q: seq<Item<Payload>>, n: nat)
    requires Arrivals(q) && forall i :: 0 <= i < n ==> Occ(q, i) > 0
    ensures n <= |q|
    ensures n == |q| ==> Occ(q, n) == 0
  {
    BelowSize(n);
    DistinctCount(q, IndexOf());
    var hits := Hits(q, IndexOf());
    forall i | i in Below(n)
      ensures i in hits
    {
      NetworkSafety.OccMember(q, i);
      var j :| 0 <= j < |q| && q[j].index == i;
      assert IndexOf()(q[j]) == i;
    }
    SubsetSize(Below(n), hits);
    if n == |q| && Occ(q, n) > 0 {
      NetworkSafety.OccMember(q, n);
      var j :| 0 <= j < |q| && q[j].index == n;
      assert IndexOf()(q[j]) == n;
      SubsetSize(Below(n) + {n}, hits);
    }
  }

  lemma BlocksSnoc(q: seq<Item<Payload>>, n: nat)
    ensures Concat(Blocks(q, n + 1)) == Concat(Blocks(q, n)) + Lookup(q, n)
  {
    ConcatAppend(Blocks(q, n), [Lookup(q, n)]);
    assert Blocks(q, n + 1) == Blocks(q, n) + [Lookup(q, n)];
    assert Concat([Lookup(q, n)]) == Lookup(q, n);
  }

  /** Earlier blocks stay what they were when another one arrives. */
  lemma {:induction false} BlocksGrow(q: seq<Item<Payload>>, x: Item<Payload>, n: nat)
    requires forall i :: 0 <= i < n ==> Occ(q, i) > 0
    ensures Blocks(q + [x], n) == Blocks(q, n)
  {
    forall i | 0 <= i < n
      ensures Lookup(q + [x], i) == Lookup(q, i)
    {
      LookupSnoc(q, x, i);
    }
  }

  lemma {:induction false} FrontAbsentFrom(q: seq<Item<Payload>>, i: nat)
    ensures FrontFrom(q, i) < |q| ==> Occ(q, FrontFrom(q, i)) == 0
    decreases |q| - i
  {
    if i < |q| && Occ(q, i) > 0 {
      FrontAbsentFrom(q, i + 1);
    }
  }

  /** The buffer knows every block from n on that has arrived, and nothing that has not. */
  ghost predicate Buffered(buffer: map<nat, Bytes>, q: seq<Item<Payload>>, n: nat) {
    && (forall i :: i >= n && Occ(q, i) > 0 ==> i in buffer)
    && (forall i :: i in buffer ==> Occ(q, i) > 0 && buffer[i] == Lookup(q, i))
  }

  /** An early block goes to the buffer; the block that is due need not. */
  lemma BufferedSnoc(buffer: map<nat, Bytes>, q: seq<Item<Payload>>, x: Item<Payload>, n: nat)
    requires Buffered(buffer, q, n) && Arrivals(q + [x])
    ensures x.value.Raw? && Buffered(buffer[x.index := x.value.data], q + [x], n)
    ensures x.index == n ==> Buffered(buffer, q + [x], n + 1)
  {
    var t := q + [x];
    assert t[|q|] == x;
    LookupHit(t, |q|);
    forall i: nat
      ensures Occ(t, i) > 0 <==> Occ(q, i) > 0 || i == x.index
    {
      OccSnoc(q, x, i);
    }
    forall i | i in buffer
      ensures Lookup(t, i) == Lookup(q, i)
    {
      LookupSnoc(q, x, i);
    }
  }

  /** A failing write ends the run of blocks at its number. */
  lemma {:induction false} FailsAt(w: Writer, q: seq<Item<Payload>>, n: nat)
    requires Arrivals(q) && forall i :: 0 <= i <= n ==> Occ(q, i) > 0
    requires FirstFailure(w, n) == n && w.fails(n)
    ensures Front(q) > n && FirstFailure(w, Front(q)) == n
  {
    RunFits(q, n + 1);
    FrontAbsentFrom(q, 0);
  }

  /** The composer's state between two writes: blocks below `expected` are out, block `expected` may be due. */
  ghost predicate Writing(w: Writer, q: seq<Item<Payload>>, expected: nat, buffer: map<nat, Bytes>, written: Bytes) {
    && Arrivals(q)
    && (forall i :: 0 <= i < expected ==> Occ(q, i) > 0)
    && FirstFailure(w, expected) == expected
    && Buffered(buffer, q, expected + 1)
    && written == Concat(Blocks(q, expected))
  }

  lemma NoFailureYet(w: Writer, n: nat)
    requires FirstFailure(w, n) == n && !w.fails(n)
    ensures FirstFailure(w, n + 1) == n + 1
  {
  }

  lemma BufferedNext(buffer: map<nat, Bytes>, q: seq<Item<Payload>>, n: nat)
    requires Buffered(buffer, q, n)
    ensures Buffered(buffer, q, n + 1)
  {
  }

  lemma {:induction false} WritingOn(
    w: Writer, q: seq<Item<Payload>>, expected: nat, buffer: map<nat, Bytes>, written: Bytes)
    requires Writing(w, q, expected, buffer, written) && Occ(q, expected) > 0 && !w.fails(expected)
    ensures Writing(w, q, expected + 1, buffer, written + Lookup(q, expected))
    ensures Buffered(buffer, q, expected + 1) && expected + 1 <= |q|
  {
    var n := expected + 1;
    BlocksSnoc(q, expected);
    RunFits(q, n);
    NoFailureYet(w, expected);
    BufferedNext(buffer, q, n);
    assert forall i :: 0 <= i < n ==> Occ(q, i) > 0;
  }

  lemma {:induction false} WritingFails(
    w: Writer, q: seq<Item<Payload>>, expected: nat, buffer: map<nat, Bytes>, written: Bytes)
    requires Writing(w, q, expected, buffer, written) && Occ(q, expected) > 0 && w.fails(expected)
    ensures written + Taken(w, expected, Lookup(q, expected)) == Composed(w, q) && ComposerVerdict(w)(q) == Reject
  {
    FailsAt(w, q, expected);
  }

  lemma {:induction false} NextDue(buffer: map<nat, Bytes>, q: seq<Item<Payload>>, n: nat)
    requires Buffered(buffer, q, n)
    ensures if n in buffer then Occ(q, n) > 0 && buffer[n] == Lookup(q, n) else Occ(q, n) == 0
  {
  }

  lemma {:induction false} WritingDone(
    w: Writer, q: seq<Item<Payload>>, expected: nat, buffer: map<nat, Bytes>, written: Bytes)
    requires Writing(w, q, expected, buffer, written) && Occ(q, expected) == 0
    ensures expected == Front(q) && written == Composed(w, q) && ComposerVerdict(w)(q) == Continue
  {
    RunFits(q, expected);
    FrontIs(q, 0, expected);
    assert written + [] == written;
  }

  /**
   * The output goroutine: blocks that come too early are buffered, and written as soon as all blocks
   * before them have been. Entries of the buffer are not removed when they are written.
   */
  class Composer {
    const writer: Writer
    var expected: nat
    var buffer: map<nat, Bytes>
    var written: Bytes
    ghost var seen: seq<Item<Payload>>

    ghost predicate Valid()
      reads this
    {
      Writing(writer, seen, expected, buffer, written) && Occ(seen, expected) == 0 && Buffered(buffer, seen, expected)
    }

    constructor (writer: Writer)
      ensures Valid() && seen == [] && this.writer == writer && written == []
    {
      this.writer := writer;
      expected, buffer, written, seen := 0, map[], [], [];
      new;
      assert Blocks(seen, 0) == [];
    }

    /** One arrival; ok is false when a write fails, and the goroutine then returns that error. */
    method Accept(x: Item<Payload>) returns (ok: bool)
      requires Valid() && Arrivals(seen + [x])
      modifies this
      ensures seen == old(seen) + [x]
      ensures written == Composed(writer, seen)
      ensures ok <==> ComposerVerdict(writer)(seen) == Continue
      ensures ok ==> Valid()
    {
      ghost var before := seen;
      BufferedSnoc(buffer, before, x, expected);
      BlocksGrow(before, x, expected);
      forall i: nat
        ensures Occ(before + [x], i) == Occ(before, i) + if x.index == i then 1 else 0
      {
        OccSnoc(before, x, i);
      }
      seen := seen + [x];
      if x.index != expected {
        buffer := buffer[x.index := x.value.data];
        WritingDone(writer, seen, expected, buffer, written);
        ok := true;
      } else {
        assert seen[|before|] == x;
        LookupHit(seen, |before|);
        ok := Flush(x.value.data);
      }
    }

    /** Write the block that is due, and all buffered blocks that follow it. */
    method Flush(block: Bytes) returns (ok: bool)
      requires Writing(writer, seen, expected, buffer, written)
      requires Occ(seen, expected) > 0 && block == Lookup(seen, expected)
      modifies this`expected, this`written
      ensures written == Composed(writer, seen)
      ensures ok <==> ComposerVerdict(writer)(seen) == Continue
      ensures ok ==> Valid()
    {
      var data, more := block, true;
      while more
        invariant Writing(writer, seen, expected, buffer, written)
        invariant more ==> Occ(seen, expected) > 0 && data == Lookup(seen, expected)
        invariant !more ==> Occ(seen, expected) == 0 && Buffered(buffer, seen, expected)
        decreases |seen| - expected, more
      {
        if writer.fails(expected) {
          WritingFails(writer, seen, expected, buffer, written);
          written := written + Taken(writer, expected, data);
          return false;
        }
        WritingOn(writer, seen, expected, buffer, written);
        written := written + data;
        expected := expected + 1;
        NextDue(buffer, seen, expected);
        if expected in buffer {
          data := buffer[expected];
        } else {
          more := false;
        }
      }
      WritingDone(writer, seen, expected, buffer, written);
      ok := true;
    }
  }

  // ---------------------------------------------------------------- main results

  /** Block i as fetched, unprocessed and found to match the chunk's hash. */
  ghost predicate Verified(
    env: Env, fetch: (nat, ChunkConfig) -> Option<Bytes>, chunks: seq<Chunk>, i: nat, data: Bytes)
  {
    i < |chunks| && fetch(i, chunks[i].Config()).Some? &&
    env.read(fetch(i, chunks[i].Config()).value) == Some(data) && env.hash(data) == chunks[i].hash
  }

  lemma ReadResult(
    env: Env, fetch: (nat, ChunkConfig) -> Option<Bytes>, chunks: seq<Chunk>, w: Writer, jobs: nat, i: nat)
    requires i < |chunks|
    ensures var o := ReadPlan(env, fetch, chunks, w, jobs).Result(i);
      !o.Skip? && (o.Emit? ==> o.value.Raw?) && forall d :: o == Emit(Raw(d)) <==> Verified(env, fetch, chunks, i, d)
  {
    var p := ReadPlan(env, fetch, chunks, w, jobs);
    assert p.Trace(0, i) == Emit(Stored(chunks[i]));
    assert p.Trace(1, i) == match p.Trace(0, i) case Emit(v) => p.work(0, i, v) case Skip => Skip case Fail => Fail;
    assert p.Trace(2, i) == match p.Trace(1, i) case Emit(v) => p.work(1, i, v) case Skip => Skip case Fail => Fail;
  }

  lemma ArrivalsInOrder(
    env: Env, fetch: (nat, ChunkConfig) -> Option<Bytes>, chunks: seq<Chunk>, w: Writer, jobs: nat, s: State<Payload>)
    requires |chunks| >= 1 && jobs >= 1 && Reachable(ReadPlan(env, fetch, chunks, w, jobs), s)
    ensures Arrivals(s.received)
    ensures forall i :: 0 <= i && Occ(s.received, i) > 0 ==> Verified(env, fetch, chunks, i, Lookup(s.received, i))
  {
    var p := ReadPlan(env, fetch, chunks, w, jobs);
    NetworkSafety.ReceivedSound(p, s);
    var q := s.received;
    forall j | 0 <= j < |q|
      ensures q[j].value.Raw? && Verified(env, fetch, chunks, q[j].index, q[j].value.data)
    {
      ReadResult(env, fetch, chunks, w, jobs, q[j].index);
      var d := q[j].value.data;
      assert p.Result(q[j].index) == Emit(Raw(d));
    }
    assert Distinct(q, IndexOf());
    forall i | 0 <= i && Occ(q, i) > 0
      ensures Verified(env, fetch, chunks, i, Lookup(q, i))
    {
      NetworkSafety.OccMember(q, i);
      var j :| 0 <= j < |q| && q[j].index == i;
      LookupHit(q, j);
    }
  }

  /** Fewer blocks are a prefix of more blocks. */
  lemma BlocksPrefix(q: seq<Item<Payload>>, m: nat, n: nat)
    requires m <= n
    ensures Concat(Blocks(q, m)) <= Concat(Blocks(q, n))
  {
    assert Blocks(q, n) == Blocks(q, m) + Blocks(q, n)[m..];
    ConcatAppend(Blocks(q, m), Blocks(q, n)[m..]);
  }

  /**
   * Prefix safety: at every step of every run, failing ones included, the output is a prefix of the
   * verified blocks 0 to Front - 1, in order.
   */
  lemma OutputIsPrefix(
    env: Env, fetch: (nat, ChunkConfig) -> Option<Bytes>, chunks: seq<Chunk>, w: Writer, jobs: nat, s: State<Payload>)
    requires |chunks| >= 1 && jobs >= 1 && Reachable(ReadPlan(env, fetch, chunks, w, jobs), s)
    ensures var n := Front(s.received);
      && n <= |chunks|
      && (forall i :: 0 <= i < n ==> Verified(env, fetch, chunks, i, Blocks(s.received, n)[i]))
      && Composed(w, s.received) <= Concat(Blocks(s.received, n))
  {
    var q := s.received;
    var n := Front(q);
    ArrivalsInOrder(env, fetch, chunks, w, jobs, s);
    forall i | 0 <= i < n
      ensures Verified(env, fetch, chunks, i, Blocks(q, n)[i])
    {
      FrontBelow(q, 0, i);
    }
    if n > |chunks| {
      FrontBelow(q, 0, |chunks|);
    }
    var f := FirstFailure(w, n);
    BlocksPrefix(q, f, n);
    if f < n {
      BlocksSnoc(q, f);
      BlocksPrefix(q, f + 1, n);
    }
  }

  /** Everything that arrived is out when all chunks have. */
  lemma FrontWhenComplete(
    env: Env, fetch: (nat, ChunkConfig) -> Option<Bytes>, chunks: seq<Chunk>, w: Writer, jobs: nat, s: State<Payload>)
    requires |chunks| >= 1 && jobs >= 1 && Reachable(ReadPlan(env, fetch, chunks, w, jobs), s)
    requires NetworkSafety.Complete(ReadPlan(env, fetch, chunks, w, jobs), s.received)
    ensures Front(s.received) == |chunks|
  {
    var q := s.received;
    ArrivalsInOrder(env, fetch, chunks, w, jobs, s);
    forall i | 0 <= i < |chunks|
      ensures Occ(q, i) > 0
    {
      ReadResult(env, fetch, chunks, w, jobs, i);
    }
    RunFits(q, |chunks|);
    FrontIs(q, 0, |chunks|);
  }

  /**
   * Read, over every interleaving: without an error the output is exactly all blocks in order, and
   * there is an error exactly if a chunk cannot be fetched, restored or verified, or a write fails.
   */
  lemma {:induction false} ReadExact(
    env: Env, fetch: (nat, ChunkConfig) -> Option<Bytes>, chunks: seq<Chunk>, w: Writer, jobs: nat, s: State<Payload>)
    requires |chunks| >= 1 && jobs >= 1
    requires Reachable(ReadPlan(env, fetch, chunks, w, jobs), s) && Quiescent(s)
    ensures !s.err ==> Front(s.received) == |chunks|
    ensures !s.err ==> Composed(w, s.received) == Concat(Blocks(s.received, |chunks|))
    ensures s.err <==>
      NetworkSafety.Faulty(ReadPlan(env, fetch, chunks, w, jobs)) || FirstFailure(w, |chunks|) < |chunks|
  {
    var p := ReadPlan(env, fetch, chunks, w, jobs);
    NetworkSafety.ReceivedSound(p, s);
    if s.err {
      NetworkSafety.ErrorHasCause(p, s);
      OutputIsPrefix(env, fetch, chunks, w, jobs, s);
    } else {
      NetworkSafety.NoErrorNoLoss(p, s);
      FrontWhenComplete(env, fetch, chunks, w, jobs, s);
      var q := s.received;
      assert q[..|q|] == q;
      assert Concat(Blocks(q, |chunks|)) + [] == Concat(Blocks(q, |chunks|));
    }
  }

  /** A single chunk is read without goroutines: what reaches the output, and whether there is no error. */
  function SingleRead(
    env: Env, fetch: (nat, ChunkConfig) -> Option<Bytes>, chunk: Chunk, w: Writer): (Bytes, bool)
  {
    match fetch(0, chunk.Config())
    case None => ([], false)
    case Some(d) =>
      match env.read(d)
      case None => ([], false)
      case Some(data) =>
        if env.hash(data) != chunk.hash then ([], false)
        else if w.fails(0) then (Taken(w, 0, data), false)
        else (data, true)
  }

  /**
   * What a call of Read may put out and whether it succeeds: no chunks are refused, a single one is read
   * without goroutines, and more are read by the network of ReadPlan.
   */
  ghost predicate ReadMayReturn(
    env: Env, fetch: (nat, ChunkConfig) -> Option<Bytes>, chunks: seq<Chunk>, w: Writer, jobs: nat,
    output: Bytes, ok: bool)
  {
    if chunks == [] then output == [] && !ok
    else if |chunks| == 1 then (output, ok) == SingleRead(env, fetch, chunks[0], w)
    else
      exists t ::
        && Reachable(ReadPlan(env, fetch, chunks, w, jobs), t) && Quiescent(t)
        && output == Composed(w, t.received) && ok == !t.err
  }

  /** Every chunk can be fetched and verified, and these are the blocks. */
  ghost predicate AllVerified(
    env: Env, fetch: (nat, ChunkConfig) -> Option<Bytes>, chunks: seq<Chunk>, blocks: seq<Bytes>)
  {
    |blocks| == |chunks| && forall i :: 0 <= i < |chunks| ==> Verified(env, fetch, chunks, i, blocks[i])
  }

  /** A network without failing call has a block for each chunk. */
  lemma FaultlessIsVerified(
    env: Env, fetch: (nat, ChunkConfig) -> Option<Bytes>, chunks: seq<Chunk>, w: Writer, jobs: nat)
    ensures !NetworkSafety.Faulty(ReadPlan(env, fetch, chunks, w, jobs)) <==>
      exists blocks :: AllVerified(env, fetch, chunks, blocks)
  {
    var p := ReadPlan(env, fetch, chunks, w, jobs);
    forall i | 0 <= i < |chunks|
      ensures !p.Result(i).Fail? <==> exists d :: Verified(env, fetch, chunks, i, d)
    {
      ReadResult(env, fetch, chunks, w, jobs, i);
      if !p.Result(i).Fail? {
        assert Verified(env, fetch, chunks, i, p.Result(i).value.data);
      }
    }
    if !NetworkSafety.Faulty(p) {
      var blocks := seq(|chunks|, i requires 0 <= i < |chunks| =>
        if p.Result(i).Emit? && p.Result(i).value.Raw? then p.Result(i).value.data else []);
      forall i | 0 <= i < |chunks|
        ensures Verified(env, fetch, chunks, i, blocks[i])
      {
        ReadResult(env, fetch, chunks, w, jobs, i);
        assert !p.Result(i).Fail?;
      }
      assert AllVerified(env, fetch, chunks, blocks);
    }
    if blocks :| AllVerified(env, fetch, chunks, blocks) {
      forall i | 0 <= i < |chunks|
        ensures !p.Result(i).Fail?
      {
        assert Verified(env, fetch, chunks, i, blocks[i]);
      }
    }
  }

  /**
   * Every call of Read, whatever the number of chunks and the interleaving: it succeeds if and only if there
   * is a chunk, every chunk can be fetched and verified and no write fails, and then the output is the
   * blocks in order.
   */
  lemma {:induction false} ReadCallExact(
    env: Env, fetch: (nat, ChunkConfig) -> Option<Bytes>, chunks: seq<Chunk>, w: Writer, jobs: nat,
    output: Bytes, ok: bool)
    requires jobs >= 1 && ReadMayReturn(env, fetch, chunks, w, jobs, output, ok)
    ensures
      ok <==>
        && chunks != [] && FirstFailure(w, |chunks|) == |chunks|
        && exists blocks :: AllVerified(env, fetch, chunks, blocks)
    ensures forall blocks :: ok && AllVerified(env, fetch, chunks, blocks) ==> output == Concat(blocks)
  {
    if |chunks| == 1 {
      SingleReadExact(env, fetch, chunks, w);
    } else if |chunks| >= 2 {
      var t :| Reachable(ReadPlan(env, fetch, chunks, w, jobs), t) && Quiescent(t) &&
        output == Composed(w, t.received) && ok == !t.err;
      ReadExact(env, fetch, chunks, w, jobs, t);
      FaultlessIsVerified(env, fetch, chunks, w, jobs);
      OutputIsPrefix(env, fetch, chunks, w, jobs, t);
      forall blocks | ok && AllVerified(env, fetch, chunks, blocks)
        ensures output == Concat(blocks)
      {
        assert Blocks(t.received, |chunks|) == blocks;
      }
    }
  }

  lemma {:induction false} SingleReadExact(
    env: Env, fetch: (nat, ChunkConfig) -> Option<Bytes>, chunks: seq<Chunk>, w: Writer)
    requires |chunks| == 1
    ensures
      SingleRead(env, fetch, chunks[0], w).1 <==>
        FirstFailure(w, 1) == 1 && exists blocks :: AllVerified(env, fetch, chunks, blocks)
    ensures forall blocks :: SingleRead(env, fetch, chunks[0], w).1 && AllVerified(env, fetch, chunks, blocks) ==>
      SingleRead(env, fetch, chunks[0], w).0 == Concat(blocks)
  {
    var r := SingleRead(env, fetch, chunks[0], w);
    assert FirstFailure(w, 1) == 1 <==> !w.fails(0);
    if r.1 {
      assert AllVerified(env, fetch, chunks, [r.0]);
    }
    forall blocks | AllVerified(env, fetch, chunks, blocks)
      ensures !w.fails(0) ==> r == (Concat(blocks), true)
    {
      assert Verified(env, fetch, chunks, 0, blocks[0]);
      assert Concat(blocks[1..]) == [] && blocks[0] + [] == blocks[0];
    }
  }
}
