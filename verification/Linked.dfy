/**
 * Concurrent writers and repairers of metadata (client/client.go, client/client_linked_data.go), whose
 * callbacks run inside transactions that are retried on conflict (client/metastor/client.go,
 * client/metastor/db/badger/badger.go).
 *
 * A call is a process. Reading a key, writing data, storing a node and committing are separate steps,
 * and the steps of all processes interleave in any way. A commit conflicts exactly if the key has been
 * written since it was read; the transaction then starts over, with everything the callback remembers.
 */
module Linked {
  import opened Metatypes
  import Marshal
  import Wire
  import opened Traverse

  function Total(chunks: seq<Chunk>): int {
    if chunks == [] then 0 else Total(chunks[..|chunks| - 1]) + chunks[|chunks| - 1].size
  }

  /** The loop that adds up the sizes of the chunks. */
  method AddSizes(start: int, chunks: seq<Chunk>) returns (size: int)
    ensures size == start + Total(chunks)
  {
    size := start;
    for i := 0 to |chunks|
      invariant size == start + Total(chunks[..i])
    {
      assert chunks[..i + 1][..i] == chunks[..i];
      size := size + chunks[i].size;
    }
    assert chunks[..|chunks|] == chunks;
  }

  /** The sum of sizes of chunks: that of each list added to that of the other. */
  lemma {:induction false} TotalSum(a: seq<Chunk>, b: seq<Chunk>, c: Chunk)
    ensures Total([c]) == c.size && Total(a + b) == Total(a) + Total(b)
  {
    if b == [] {
      assert a + b == a;
    } else {
      TotalSum(a, b[..|b| - 1], c);
      assert (a + b)[..|a + b| - 1] == a + b[..|b| - 1];
    }
  }

  // ---------------------------------------------------------------- processes

  datatype Job =
    | LinkJob(key: Bytes, previous: Bytes)
    | WriteJob(key: Bytes)
    | RepairJob(key: Bytes)
  {
    /** The key whose metadata the transaction reads and writes. */
    function Target(): Bytes { if LinkJob? then previous else key }
  }

  /**
   * Open: the transaction has read its key and the callback starts. Storing: the new node is about to be
   * stored. Closing: the callback has returned.
   */
  datatype Phase = Ready | Open(version: nat) | Storing(version: nat) | Closing(version: nat) | Finished | Failed

  /**
   * seen is the structure into which every attempt decodes; made, chunks, total and epoch are what the
   * callback remembers between attempts. The other fields are history: dataWrites, nodeWrites and repairs
   * count what has been done, read tells which Write the metadata of this attempt stems from, and repaired
   * which Write the repaired data does.
   */
  datatype Process = Process(
    phase: Phase, seen: Metadata, made: Option<Metadata>, chunks: seq<Chunk>, total: int, epoch: int,
    dataWrites: nat, nodeWrites: nat, repairs: nat, read: nat, repaired: nat)

  /** writes counts the nodes stored under a key, and born tells which of them the data found there is of. */
  datatype State = State(
    store: map<Bytes, Metadata>, versions: map<Bytes, nat>, procs: seq<Process>,
    writes: map<Bytes, nat>, born: map<Bytes, nat>)

  datatype Action =
    | Begin(p: nat)
    | WriteData(p: nat, chunks: seq<Chunk>, epoch: int)
    | StoreNode(p: nat)
    | RepairData(p: nat, chunks: seq<Chunk>, epoch: int)
    | Reuse(p: nat)
    | Commit(p: nat)
    | Abort(p: nat)

  const NEW := Process(Ready, NO_METADATA, None, [], 0, 0, 0, 0, 0, 0, 0)

  function Start(jobs: seq<Job>, store: map<Bytes, Metadata>): State {
    State(store, map[], seq(|jobs|, _ => NEW), map[], map[])
  }

  function Count(counts: map<Bytes, nat>, key: Bytes): nat { if key in counts then counts[key] else 0 }

  function Version(s: State, key: Bytes): nat { Count(s.versions, key) }

  /** Decoding m into a structure that still holds md: chunks stay if m has none. */
  function Into(m: Metadata, md: Metadata): Metadata { if m.chunks == [] then m.(chunks := md.chunks) else m }

  /** This is what unmarshalling the stored bytes does. */
  lemma IntoIsUnmarshal(m: Metadata, md: Metadata)
    requires Marshal.Storable(m)
    ensures Marshal.UnmarshalInto(Marshal.Marshalled(m), md) == Wire.Ok(Into(m, md), |Marshal.Marshalled(m)|)
  {
    Marshal.RoundTrip(m);
  }

  /** Old chunks that stay break the size. */
  lemma IntoKeepsSizeIff(m: Metadata, md: Metadata)
    requires m.size == Total(m.chunks)
    ensures Into(m, md).size == Total(Into(m, md).chunks) <==> m.chunks != [] || Total(md.chunks) == 0
  {
  }

  /** The metadata that Write and WriteLinked make of the chunks they have written. */
  function Node(job: Job, chunks: seq<Chunk>, epoch: int): Metadata {
    Metadata(job.key, Total(chunks), epoch, epoch, chunks, if job.LinkJob? then job.previous else [], [])
  }

  /** What a call writes: the chunks the pipeline returned, and when. */
  datatype Content = Content(chunks: seq<Chunk>, epoch: int)

  /** Field by field, the metadata of a call that has written this. */
  ghost predicate Describes(m: Metadata, job: Job, content: Content) {
    && m.key == job.key && m.chunks == content.chunks && m.size == Total(content.chunks)
    && m.creationEpoch == content.epoch && m.lastWriteEpoch == content.epoch
    && (job.LinkJob? ==> m.previousKey == job.previous) && (!job.LinkJob? ==> m.previousKey == []) && m.nextKey == []
  }

  /** What the callback returns. */
  function Updated(job: Job, q: Process): Metadata {
    if job.LinkJob? then q.seen.(nextKey := job.key)
    else q.seen.(chunks := q.chunks, size := q.total, lastWriteEpoch := q.epoch)
  }

  predicate Enabled(jobs: seq<Job>, s: State, a: Action) {
    a.p < |jobs| && |s.procs| == |jobs| &&
    var job, q := jobs[a.p], s.procs[a.p];
    match a
    case Begin(_) => q.phase.Ready? && !job.WriteJob? && job.Target() in s.store
    case WriteData(_, chunks, epoch) =>
      q.made.None? && ((job.WriteJob? && q.phase.Ready?) || (job.LinkJob? && q.phase.Open?))
    case StoreNode(_) => q.phase.Storing? && q.made.Some?
    case RepairData(_, chunks, epoch) =>
      job.RepairJob? && q.phase.Open? && q.epoch == 0 && epoch != 0 && |chunks| == |q.seen.chunks| > 0
    case Reuse(_) => q.phase.Open? && if job.LinkJob? then q.made.Some? else q.epoch != 0
    case Commit(_) => q.phase.Closing?
    case Abort(_) => !q.phase.Finished?
  }

  function Put(s: State, key: Bytes, m: Metadata): State {
    s.(store := s.store[key := m], versions := s.versions[key := Version(s, key) + 1])
  }

  /** The data under the key is now that of a new node. */
  function Born(s: State, key: Bytes): State {
    var n := Count(s.writes, key) + 1;
    s.(writes := s.writes[key := n], born := s.born[key := n])
  }

  function SetProc(s: State, p: nat, q: Process): State
    requires p < |s.procs|
  {
    s.(procs := s.procs[p := q])
  }

  function Stepped(job: Job, s: State, q: Process, a: Action): Process
    requires !job.WriteJob? && a.Begin? ==> job.Target() in s.store
    requires a.Commit? ==> q.phase.Closing?
    requires (a.StoreNode? ==> q.phase.Storing?) && (a.RepairData? || a.Reuse? ==> q.phase.Open?)
    requires a.WriteData? && job.LinkJob? ==> q.phase.Open?
    requires a.Begin? ==> !job.WriteJob?
  {
    match a
    case Begin(_) =>
      q.(phase := Open(Version(s, job.Target())), seen := Into(s.store[job.Target()], q.seen),
         read := Count(s.born, job.Target()))
    case WriteData(_, chunks, epoch) =>
      q.(phase := Storing(if job.LinkJob? then q.phase.version else 0), made := Some(Node(job, chunks, epoch)),
         dataWrites := q.dataWrites + 1)
    case StoreNode(_) =>
      q.(phase := if job.LinkJob? then Closing(q.phase.version) else Finished, nodeWrites := q.nodeWrites + 1)
    case RepairData(_, chunks, epoch) =>
      q.(phase := Closing(q.phase.version), chunks := chunks, total := q.total + Total(chunks), epoch := epoch,
         repairs := q.repairs + 1, repaired := q.read)
    case Reuse(_) => q.(phase := Closing(q.phase.version))
    case Commit(_) =>
      if q.phase.version == Version(s, job.Target()) then q.(phase := Finished, seen := Updated(job, q))
      else q.(phase := Ready, seen := Updated(job, q))
    case Abort(_) => q.(phase := Failed)
  }

  function Apply(jobs: seq<Job>, s: State, a: Action): State
    requires Enabled(jobs, s, a)
  {
    var job, q := jobs[a.p], s.procs[a.p];
    var t := SetProc(s, a.p, Stepped(job, s, q, a));
    if a.StoreNode? then Born(Put(t, job.key, q.made.value), job.key)
    else if a.Commit? && q.phase.version == Version(s, job.Target()) then
      var u := Put(t, job.Target(), Updated(job, q));
      if job.RepairJob? then u.(born := u.born[job.key := q.repaired]) else u
    else t
  }

  ghost predicate Legal(jobs: seq<Job>, s: State, run: seq<Action>)
    decreases |run|
  {
    run != [] ==> Enabled(jobs, s, run[0]) && Legal(jobs, Apply(jobs, s, run[0]), run[1..])
  }

  ghost function After(jobs: seq<Job>, s: State, run: seq<Action>): State
    requires Legal(jobs, s, run)
    decreases |run|
  {
    if run == [] then s else After(jobs, Apply(jobs, s, run[0]), run[1..])
  }

  /** A run in which no step is bad in the state in which it is taken. */
  ghost predicate Avoids(jobs: seq<Job>, s: State, run: seq<Action>, bad: (State, Action) -> bool)
    requires Legal(jobs, s, run)
    decreases |run|
  {
    run != [] ==> !bad(s, run[0]) && Avoids(jobs, Apply(jobs, s, run[0]), run[1..], bad)
  }

  /** No process but p has done anything. */
  ghost predicate OnlyProc(s: State, t: State, p: nat) {
    p < |s.procs| == |t.procs| && t.procs == s.procs[p := t.procs[p]]
  }

  // ---------------------------------------------------------------- what every process keeps

  predicate Holding(q: Process) { q.phase.Open? || q.phase.Storing? || q.phase.Closing? }

  ghost predicate MadeOk(job: Job, q: Process) {
    && (q.made.Some? ==> exists chunks: seq<Chunk>, epoch :: q.made.value == Node(job, chunks, epoch))
    && (q.phase.Storing? ==> q.made.Some? && q.nodeWrites == 0 && !job.RepairJob?)
    && (q.made.None? ==> q.nodeWrites == 0)
    && q.dataWrites == (if q.made.Some? then 1 else 0)
    && q.nodeWrites <= 1
    && (job.WriteJob? ==> !q.phase.Open? && !q.phase.Closing?)
    && (q.phase.Ready? && q.made.None? && job.LinkJob? ==> q.seen == NO_METADATA)
    && (job.LinkJob? && q.phase.Closing? ==> q.made.Some?)
  }

  ghost predicate RepairOk(job: Job, q: Process) {
    && (job.RepairJob? ==> q.made.None?)
    && (q.epoch == 0 ==> q.total == 0 && q.repairs == 0)
    && (q.epoch != 0 ==> q.repairs == 1 && q.chunks != [] && q.total == Total(q.chunks))
    && (job.RepairJob? && (q.phase.Closing? || q.phase.Finished?) ==> q.epoch != 0)
    && (!job.RepairJob? ==> q.epoch == 0)
  }

  ghost predicate LocalOk(job: Job, q: Process) { MadeOk(job, q) && RepairOk(job, q) }

  /** Holds in every run. */
  ghost predicate Local(jobs: seq<Job>, s: State) {
    |s.procs| == |jobs| && forall i :: 0 <= i < |jobs| ==> LocalOk(jobs[i], s.procs[i])
  }

  lemma OneMoves(jobs: seq<Job>, s: State, a: Action)
    requires Enabled(jobs, s, a)
    ensures OnlyProc(s, Apply(jobs, s, a), a.p)
    ensures Apply(jobs, s, a).procs[a.p] == Stepped(jobs[a.p], s, s.procs[a.p], a)
  {
  }

  lemma OwnMadeOk(jobs: seq<Job>, s: State, a: Action)
    requires Enabled(jobs, s, a) && LocalOk(jobs[a.p], s.procs[a.p])
    ensures MadeOk(jobs[a.p], Stepped(jobs[a.p], s, s.procs[a.p], a))
  {
    if a.WriteData? {
      assert Stepped(jobs[a.p], s, s.procs[a.p], a).made.value == Node(jobs[a.p], a.chunks, a.epoch);
    }
  }

  lemma OwnRepairOk(jobs: seq<Job>, s: State, a: Action)
    requires Enabled(jobs, s, a) && LocalOk(jobs[a.p], s.procs[a.p])
    ensures RepairOk(jobs[a.p], Stepped(jobs[a.p], s, s.procs[a.p], a))
  {
  }

  lemma LocalStep(jobs: seq<Job>, s: State, a: Action)
    requires Local(jobs, s) && Enabled(jobs, s, a)
    ensures Local(jobs, Apply(jobs, s, a))
  {
    var t := Apply(jobs, s, a);
    OneMoves(jobs, s, a);
    assert LocalOk(jobs[a.p], s.procs[a.p]);
    OwnMadeOk(jobs, s, a);
    OwnRepairOk(jobs, s, a);
    forall i | 0 <= i < |jobs|
      ensures LocalOk(jobs[i], t.procs[i])
    {
      assert LocalOk(jobs[i], s.procs[i]);
    }
  }

  lemma {:induction false} LocalRun(jobs: seq<Job>, s: State, run: seq<Action>)
    requires Local(jobs, s) && Legal(jobs, s, run)
    ensures Local(jobs, After(jobs, s, run))
    decreases |run|
  {
    if run != [] {
      LocalStep(jobs, s, run[0]);
      LocalRun(jobs, Apply(jobs, s, run[0]), run[1..]);
    }
  }

  lemma LocalStart(jobs: seq<Job>, store: map<Bytes, Metadata>)
    ensures Local(jobs, Start(jobs, store))
  {
  }

  /** However often its transaction is retried, a Repair that succeeds has repaired exactly once. */
  lemma {:induction false} RepairsOnce(jobs: seq<Job>, store: map<Bytes, Metadata>, run: seq<Action>, i: nat)
    requires Legal(jobs, Start(jobs, store), run) && i < |jobs| && jobs[i].RepairJob?
    ensures var s := After(jobs, Start(jobs, store), run);
      |s.procs| == |jobs| && s.procs[i].repairs <= 1 && (s.procs[i].phase.Finished? ==> s.procs[i].repairs == 1)
  {
    LocalStart(jobs, store);
    LocalRun(jobs, Start(jobs, store), run);
    var s := After(jobs, Start(jobs, store), run);
    assert LocalOk(jobs[i], s.procs[i]);
  }

  // ---------------------------------------------------------------- links

  /** Every link that can be seen leads to a stored node that links back. */
  ghost predicate LinksOk(store: map<Bytes, Metadata>) {
    forall a :: a in store && store[a].nextKey != [] ==>
      store[a].nextKey in store && store[store[a].nextKey].previousKey == a
  }

  ghost predicate KeysOk(jobs: seq<Job>) {
    && (forall i :: 0 <= i < |jobs| ==> jobs[i].key != [] && jobs[i].Target() != [])
    && (forall i :: 0 <= i < |jobs| && jobs[i].LinkJob? ==> jobs[i].previous != jobs[i].key)
    && (forall i, j :: 0 <= i < |jobs| && 0 <= j < |jobs| && i != j && jobs[i].LinkJob? && !jobs[j].RepairJob? ==>
         jobs[i].key != jobs[j].key)
  }

  /** Linked writers use keys that nobody else creates and that are not in the store yet. */
  ghost predicate Admissible(jobs: seq<Job>, store: map<Bytes, Metadata>) {
    && KeysOk(jobs) && LinksOk(store) && [] !in store
    && forall i :: 0 <= i < |jobs| && jobs[i].LinkJob? ==> jobs[i].key !in store
  }

  /** The node at this key is linked to by its predecessor. */
  predicate LinkedTo(store: map<Bytes, Metadata>, key: Bytes) {
    key in store && var p := store[key].previousKey; p != key && p in store && store[p].nextKey == key
  }

  /** A plain write that overwrites a node to which its predecessor links. */
  predicate Tramples(jobs: seq<Job>, s: State, a: Action) {
    a.StoreNode? && a.p < |jobs| && jobs[a.p].WriteJob? && LinkedTo(s.store, jobs[a.p].key)
  }

  function Trampling(jobs: seq<Job>): (State, Action) -> bool { (s: State, a: Action) => Tramples(jobs, s, a) }

  /** While its key has not been written again, a process knows what is stored there, chunks aside. */
  ghost predicate SeenOk(job: Job, s: State, q: Process) {
    Holding(q) && !job.WriteJob? ==>
      && q.phase.version <= Version(s, job.Target())
      && job.Target() in s.store
      && (q.phase.version == Version(s, job.Target()) ==> SameLinks(q.seen, s.store[job.Target()]))
  }

  ghost predicate SameLinks(m: Metadata, n: Metadata) { m.nextKey == n.nextKey && m.previousKey == n.previousKey }

  ghost predicate LinkOk(job: Job, s: State, q: Process) {
    job.LinkJob? ==>
      && (job.key in s.store <==> q.nodeWrites == 1)
      && (job.key in s.store ==> s.store[job.key].previousKey == job.previous)
      && (q.phase.Closing? || (q.phase.Open? && q.made.Some?) || q.phase.Finished? ==> q.nodeWrites == 1)
      && (q.phase.Ready? && q.made.Some? ==> q.nodeWrites == 1)
  }

  ghost predicate ProcOk(job: Job, s: State, q: Process) {
    LocalOk(job, q) && SeenOk(job, s, q) && LinkOk(job, s, q)
  }

  ghost predicate Inv(jobs: seq<Job>, s: State) {
    && KeysOk(jobs) && |s.procs| == |jobs| && LinksOk(s.store) && [] !in s.store
    && forall i :: 0 <= i < |jobs| ==> ProcOk(jobs[i], s, s.procs[i])
  }

  lemma InvStart(jobs: seq<Job>, store: map<Bytes, Metadata>)
    requires Admissible(jobs, store)
    ensures Inv(jobs, Start(jobs, store))
  {
  }

  lemma InvLocal(jobs: seq<Job>, s: State)
    requires Inv(jobs, s)
    ensures Local(jobs, s)
  {
    forall i | 0 <= i < |jobs|
      ensures LocalOk(jobs[i], s.procs[i])
    {
      assert ProcOk(jobs[i], s, s.procs[i]);
    }
  }

  /** Steps that do not touch the store. */
  lemma QuietStep(jobs: seq<Job>, s: State, a: Action)
    requires Inv(jobs, s) && Enabled(jobs, s, a) && !a.StoreNode?
    requires a.Commit? ==> s.procs[a.p].phase.version != Version(s, jobs[a.p].Target())
    ensures Inv(jobs, Apply(jobs, s, a))
  {
    var job, q, t := jobs[a.p], s.procs[a.p], Apply(jobs, s, a);
    InvLocal(jobs, s);
    LocalStep(jobs, s, a);
    assert ProcOk(job, s, q);
    assert t.store == s.store && t.versions == s.versions;
    forall i | 0 <= i < |jobs|
      ensures ProcOk(jobs[i], t, t.procs[i])
    {
      assert ProcOk(jobs[i], s, s.procs[i]) && LocalOk(jobs[i], t.procs[i]);
    }
  }

  lemma StoreNodeLinks(jobs: seq<Job>, s: State, a: Action)
    requires Inv(jobs, s) && Enabled(jobs, s, a) && a.StoreNode? && !Tramples(jobs, s, a)
    ensures LinksOk(Apply(jobs, s, a).store) && [] !in Apply(jobs, s, a).store
  {
    var job, q := jobs[a.p], s.procs[a.p];
    assert ProcOk(job, s, q);
    var chunks: seq<Chunk>, epoch :| q.made.value == Node(job, chunks, epoch);
  }

  lemma StoreNodeStep(jobs: seq<Job>, s: State, a: Action)
    requires Inv(jobs, s) && Enabled(jobs, s, a) && a.StoreNode? && !Tramples(jobs, s, a)
    ensures Inv(jobs, Apply(jobs, s, a))
  {
    var job, q, t := jobs[a.p], s.procs[a.p], Apply(jobs, s, a);
    InvLocal(jobs, s);
    LocalStep(jobs, s, a);
    assert ProcOk(job, s, q);
    StoreNodeLinks(jobs, s, a);
    forall i | 0 <= i < |jobs|
      ensures ProcOk(jobs[i], t, t.procs[i])
    {
      assert ProcOk(jobs[i], s, s.procs[i]) && LocalOk(jobs[i], t.procs[i]);
    }
  }

  lemma CommitLinks(jobs: seq<Job>, s: State, a: Action)
    requires Inv(jobs, s) && Enabled(jobs, s, a) && a.Commit?
    requires s.procs[a.p].phase.version == Version(s, jobs[a.p].Target())
    ensures LinksOk(Apply(jobs, s, a).store) && [] !in Apply(jobs, s, a).store
  {
    assert ProcOk(jobs[a.p], s, s.procs[a.p]);
  }

  lemma CommitStep(jobs: seq<Job>, s: State, a: Action)
    requires Inv(jobs, s) && Enabled(jobs, s, a) && a.Commit?
    requires s.procs[a.p].phase.version == Version(s, jobs[a.p].Target())
    ensures Inv(jobs, Apply(jobs, s, a))
  {
    var job, q, t := jobs[a.p], s.procs[a.p], Apply(jobs, s, a);
    InvLocal(jobs, s);
    LocalStep(jobs, s, a);
    assert ProcOk(job, s, q);
    CommitLinks(jobs, s, a);
    OneMoves(jobs, s, a);
    forall i | 0 <= i < |jobs|
      ensures ProcOk(jobs[i], t, t.procs[i])
    {
      assert ProcOk(jobs[i], s, s.procs[i]) && LocalOk(jobs[i], t.procs[i]);
      CommitKeepsLink(jobs[i], s, q, job, t, s.procs[i]);
    }
  }

  /** A commit changes the links of no node but its target's, whose link back it keeps. */
  lemma CommitKeepsLink(other: Job, s: State, q: Process, job: Job, t: State, r: Process)
    requires !job.WriteJob? && job.Target() in s.store && q.seen.previousKey == s.store[job.Target()].previousKey
    requires t.store == s.store[job.Target() := Updated(job, q)] && LinkOk(other, s, r)
    ensures LinkOk(other, t, r)
  {
  }

  lemma InvStep(jobs: seq<Job>, s: State, a: Action)
    requires Inv(jobs, s) && Enabled(jobs, s, a) && !Tramples(jobs, s, a)
    ensures Inv(jobs, Apply(jobs, s, a))
  {
    if a.StoreNode? {
      StoreNodeStep(jobs, s, a);
    } else if a.Commit? && s.procs[a.p].phase.version == Version(s, jobs[a.p].Target()) {
      CommitStep(jobs, s, a);
    } else {
      QuietStep(jobs, s, a);
    }
  }

  lemma {:induction false} InvRun(jobs: seq<Job>, s: State, run: seq<Action>)
    requires Inv(jobs, s) && Legal(jobs, s, run) && Avoids(jobs, s, run, Trampling(jobs))
    ensures Inv(jobs, After(jobs, s, run))
    decreases |run|
  {
    if run != [] {
      InvStep(jobs, s, run[0]);
      InvRun(jobs, Apply(jobs, s, run[0]), run[1..]);
    }
  }

  /**
   * In every state of every run of concurrent writers and repairers, with any conflicts, in which no plain
   * write overwrites a node that is linked to: a link that can be seen leads to a stored node that links
   * back, and every linked writer has written its data and its node at most once.
   */
  lemma {:induction false} LinkPublication(jobs: seq<Job>, store: map<Bytes, Metadata>, run: seq<Action>)
    requires Admissible(jobs, store) && Legal(jobs, Start(jobs, store), run)
    requires Avoids(jobs, Start(jobs, store), run, Trampling(jobs))
    ensures var s := After(jobs, Start(jobs, store), run);
      && LinksOk(s.store)
      && |s.procs| == |jobs|
      && forall i :: 0 <= i < |jobs| && jobs[i].LinkJob? ==> s.procs[i].dataWrites <= 1 && s.procs[i].nodeWrites <= 1
  {
    InvStart(jobs, store);
    InvRun(jobs, Start(jobs, store), run);
    var s := After(jobs, Start(jobs, store), run);
    assert forall i :: 0 <= i < |jobs| ==> ProcOk(jobs[i], s, s.procs[i]);
  }

  /** Runs of WriteLinked and Repair alone never do that. */
  lemma {:induction false} WithoutPlainWrites(jobs: seq<Job>, s: State, run: seq<Action>)
    requires Legal(jobs, s, run) && forall i :: 0 <= i < |jobs| ==> !jobs[i].WriteJob?
    ensures Avoids(jobs, s, run, Trampling(jobs))
    decreases |run|
  {
    if run != [] {
      WithoutPlainWrites(jobs, Apply(jobs, s, run[0]), run[1..]);
    }
  }

  /** A plain write breaks the links if and only if a predecessor links to the node it overwrites. */
  lemma PlainWriteBreaksIff(jobs: seq<Job>, s: State, a: Action)
    requires Inv(jobs, s) && Enabled(jobs, s, a) && a.StoreNode? && jobs[a.p].WriteJob?
    ensures LinksOk(Apply(jobs, s, a).store) <==> !LinkedTo(s.store, jobs[a.p].key)
  {
    var job, q := jobs[a.p], s.procs[a.p];
    var key, t := job.key, Apply(jobs, s, a);
    assert ProcOk(job, s, q);
    var chunks: seq<Chunk>, epoch :| q.made.value == Node(job, chunks, epoch);
    assert t.store == s.store[key := q.made.value];
    if LinkedTo(s.store, key) {
      var p := s.store[key].previousKey;
      assert t.store[p].nextKey == key && t.store[key].previousKey == [];
    }
  }

  /**
   * The exact condition over runs: as long as no plain write has overwritten a node that is linked to, a
   * step leaves all links leading somewhere if and only if it does not do so either.
   */
  lemma {:induction false} LinksOkIff(jobs: seq<Job>, store: map<Bytes, Metadata>, run: seq<Action>, a: Action)
    requires Admissible(jobs, store) && Legal(jobs, Start(jobs, store), run)
    requires Avoids(jobs, Start(jobs, store), run, Trampling(jobs))
    requires Enabled(jobs, After(jobs, Start(jobs, store), run), a)
    ensures
      var s := After(jobs, Start(jobs, store), run);
      LinksOk(Apply(jobs, s, a).store) <==> !Tramples(jobs, s, a)
  {
    var s := After(jobs, Start(jobs, store), run);
    InvStart(jobs, store);
    InvRun(jobs, Start(jobs, store), run);
    if Tramples(jobs, s, a) {
      PlainWriteBreaksIff(jobs, s, a);
    } else {
      InvStep(jobs, s, a);
    }
  }

  /** A WriteLinked that has succeeded has published its node, made of the data it wrote. */
  lemma {:induction false} FinishedIsPublished(jobs: seq<Job>, store: map<Bytes, Metadata>, run: seq<Action>, i: nat)
    requires Admissible(jobs, store) && Legal(jobs, Start(jobs, store), run)
    requires Avoids(jobs, Start(jobs, store), run, Trampling(jobs)) && i < |jobs| && jobs[i].LinkJob?
    ensures var s := After(jobs, Start(jobs, store), run);
      |s.procs| == |jobs| &&
      (s.procs[i].phase.Finished? ==>
         && jobs[i].key in s.store && s.store[jobs[i].key].previousKey == jobs[i].previous && s.procs[i].dataWrites == 1
         && s.procs[i].made.Some? && WrittenBy(run, i).Some?
         && Describes(s.procs[i].made.value, jobs[i], WrittenBy(run, i).value))
  {
    InvStart(jobs, store);
    InvRun(jobs, Start(jobs, store), run);
    var s := After(jobs, Start(jobs, store), run);
    assert ProcOk(jobs[i], s, s.procs[i]);
    MadeIsWritten(jobs, Start(jobs, store), run, i);
  }

  // ---------------------------------------------------------------- what is stored

  /** What call i has written in this run. */
  function WrittenBy(run: seq<Action>, i: nat): Option<Content> {
    if run == [] then None
    else if run[0].WriteData? && run[0].p == i then Some(Content(run[0].chunks, run[0].epoch))
    else WrittenBy(run[1..], i)
  }

  ghost predicate MadeFrom(job: Job, q: Process, content: Option<Content>) {
    match content
    case None => q.made.None?
    case Some(c) => q.made.Some? && Describes(q.made.value, job, c)
  }

  /** However often it is retried, a call remembers the metadata of what it wrote first. */
  lemma {:induction false} MadeIsWritten(jobs: seq<Job>, s: State, run: seq<Action>, i: nat)
    requires Legal(jobs, s, run) && i < |jobs| == |s.procs|
    ensures
      var t := After(jobs, s, run);
      && |t.procs| == |jobs|
      && if s.procs[i].made.Some? then t.procs[i].made == s.procs[i].made
         else MadeFrom(jobs[i], t.procs[i], WrittenBy(run, i))
    decreases |run|
  {
    if run != [] {
      OneMoves(jobs, s, run[0]);
      MadeIsWritten(jobs, Apply(jobs, s, run[0]), run[1..], i);
    }
  }

  /**
   * In every run, what a call stores under its key describes exactly what it wrote, field by field, and no
   * other key changes.
   */
  lemma {:induction false} StoredIsWritten(jobs: seq<Job>, store: map<Bytes, Metadata>, run: seq<Action>, i: nat)
    requires Legal(jobs, Start(jobs, store), run) && i < |jobs|
    requires Enabled(jobs, After(jobs, Start(jobs, store), run), StoreNode(i))
    ensures
      var s := After(jobs, Start(jobs, store), run);
      var after, key := Apply(jobs, s, StoreNode(i)).store, jobs[i].key;
      && WrittenBy(run, i).Some? && key in after && Describes(after[key], jobs[i], WrittenBy(run, i).value)
      && after.Keys == s.store.Keys + {key} && forall k :: k in s.store && k != key ==> after[k] == s.store[k]
  {
    MadeIsWritten(jobs, Start(jobs, store), run, i);
  }

  // ---------------------------------------------------------------- sizes

  predicate Sized(m: Metadata) { m.size == Total(m.chunks) }

  ghost predicate SizesOk(store: map<Bytes, Metadata>) { forall a :: a in store ==> Sized(store[a]) }

  /** A retry of WriteLinked decodes metadata without chunks over chunks of an earlier attempt. */
  predicate Leaks(jobs: seq<Job>, s: State, a: Action) {
    a.Begin? && a.p < |jobs| && a.p < |s.procs| && jobs[a.p].LinkJob? && jobs[a.p].previous in s.store &&
    s.store[jobs[a.p].previous].chunks == [] && Total(s.procs[a.p].seen.chunks) != 0
  }

  function Leaking(jobs: seq<Job>): (State, Action) -> bool { (s: State, a: Action) => Leaks(jobs, s, a) }

  ghost predicate SeenSized(job: Job, q: Process) { job.LinkJob? && Holding(q) ==> Sized(q.seen) }

  ghost predicate SizeInv(jobs: seq<Job>, s: State) {
    Local(jobs, s) && SizesOk(s.store) && forall i :: 0 <= i < |jobs| ==> SeenSized(jobs[i], s.procs[i])
  }

  /** What is put into the store has its size. */
  lemma UpdatedSized(job: Job, q: Process)
    requires LocalOk(job, q) && SeenSized(job, q) && q.phase.Closing? && !job.WriteJob?
    ensures Sized(Updated(job, q))
  {
  }

  lemma MadeSized(job: Job, q: Process)
    requires LocalOk(job, q) && q.made.Some?
    ensures Sized(q.made.value)
  {
    var chunks: seq<Chunk>, epoch :| q.made.value == Node(job, chunks, epoch);
  }

  lemma SizesStep(jobs: seq<Job>, s: State, a: Action)
    requires SizeInv(jobs, s) && Enabled(jobs, s, a)
    ensures SizesOk(Apply(jobs, s, a).store)
  {
    var job, q := jobs[a.p], s.procs[a.p];
    assert LocalOk(job, q) && SeenSized(job, q);
    if a.StoreNode? {
      MadeSized(job, q);
    } else if a.Commit? {
      UpdatedSized(job, q);
    }
  }

  lemma SeenSizedStep(jobs: seq<Job>, s: State, a: Action)
    requires SizeInv(jobs, s) && Enabled(jobs, s, a) && !Leaks(jobs, s, a)
    ensures OnlyProc(s, Apply(jobs, s, a), a.p) && SeenSized(jobs[a.p], Apply(jobs, s, a).procs[a.p])
  {
    var job, q := jobs[a.p], s.procs[a.p];
    assert SeenSized(job, q);
    if a.Begin? && job.LinkJob? {
      IntoKeepsSizeIff(s.store[job.previous], q.seen);
    }
  }

  lemma SizeStep(jobs: seq<Job>, s: State, a: Action)
    requires SizeInv(jobs, s) && Enabled(jobs, s, a) && !Leaks(jobs, s, a)
    ensures SizeInv(jobs, Apply(jobs, s, a))
  {
    var t := Apply(jobs, s, a);
    LocalStep(jobs, s, a);
    SizesStep(jobs, s, a);
    SeenSizedStep(jobs, s, a);
    forall i | 0 <= i < |jobs|
      ensures SeenSized(jobs[i], t.procs[i])
    {
      assert SeenSized(jobs[i], s.procs[i]);
    }
  }

  lemma {:induction false} SizeRun(jobs: seq<Job>, s: State, run: seq<Action>)
    requires SizeInv(jobs, s) && Legal(jobs, s, run) && Avoids(jobs, s, run, Leaking(jobs))
    ensures SizeInv(jobs, After(jobs, s, run))
    decreases |run|
  {
    if run != [] {
      SizeStep(jobs, s, run[0]);
      SizeRun(jobs, Apply(jobs, s, run[0]), run[1..]);
    }
  }

  /**
   * In every state of every run, with any conflicts, in which no retry of WriteLinked meets metadata that
   * has lost its chunks: the size of each stored metadata is the sum of the sizes of its chunks.
   */
  lemma {:induction false} SizeConservation(jobs: seq<Job>, store: map<Bytes, Metadata>, run: seq<Action>)
    requires SizesOk(store) && Legal(jobs, Start(jobs, store), run)
    requires Avoids(jobs, Start(jobs, store), run, Leaking(jobs))
    ensures SizesOk(After(jobs, Start(jobs, store), run).store)
  {
    LocalStart(jobs, store);
    SizeRun(jobs, Start(jobs, store), run);
  }

  ghost predicate Filled(store: map<Bytes, Metadata>) { forall a :: a in store ==> store[a].chunks != [] }

  ghost predicate WritesChunks(run: seq<Action>) {
    forall i :: 0 <= i < |run| && run[i].WriteData? ==> run[i].chunks != []
  }

  ghost predicate ProcFilled(job: Job, q: Process) {
    && (q.made.Some? ==> q.made.value.chunks != [])
    && (Holding(q) && !job.WriteJob? ==> q.seen.chunks != [])
  }

  ghost predicate FilledInv(jobs: seq<Job>, s: State) {
    Local(jobs, s) && Filled(s.store) && forall i :: 0 <= i < |jobs| ==> ProcFilled(jobs[i], s.procs[i])
  }

  lemma OwnFilled(jobs: seq<Job>, s: State, a: Action)
    requires FilledInv(jobs, s) && Enabled(jobs, s, a) && (a.WriteData? ==> a.chunks != [])
    ensures ProcFilled(jobs[a.p], Stepped(jobs[a.p], s, s.procs[a.p], a)) && Filled(Apply(jobs, s, a).store)
  {
    assert LocalOk(jobs[a.p], s.procs[a.p]) && ProcFilled(jobs[a.p], s.procs[a.p]);
  }

  lemma FilledStep(jobs: seq<Job>, s: State, a: Action)
    requires FilledInv(jobs, s) && Enabled(jobs, s, a) && (a.WriteData? ==> a.chunks != [])
    ensures FilledInv(jobs, Apply(jobs, s, a))
  {
    var t := Apply(jobs, s, a);
    LocalStep(jobs, s, a);
    OneMoves(jobs, s, a);
    OwnFilled(jobs, s, a);
    forall i | 0 <= i < |jobs|
      ensures ProcFilled(jobs[i], t.procs[i])
    {
      assert ProcFilled(jobs[i], s.procs[i]);
    }
  }

  /** When no data is empty, nothing leaks. */
  lemma {:induction false} FilledNeverLeaks(jobs: seq<Job>, s: State, run: seq<Action>)
    requires FilledInv(jobs, s) && Legal(jobs, s, run) && WritesChunks(run)
    ensures Avoids(jobs, s, run, Leaking(jobs))
    decreases |run|
  {
    if run != [] {
      FilledStep(jobs, s, run[0]);
      FilledNeverLeaks(jobs, Apply(jobs, s, run[0]), run[1..]);
    }
  }

  /** On data that is not empty, sizes are always conserved. */
  lemma {:induction false} SizeConservationOnData(jobs: seq<Job>, store: map<Bytes, Metadata>, run: seq<Action>)
    requires SizesOk(store) && Filled(store) && Legal(jobs, Start(jobs, store), run) && WritesChunks(run)
    ensures SizesOk(After(jobs, Start(jobs, store), run).store)
  {
    LocalStart(jobs, store);
    FilledNeverLeaks(jobs, Start(jobs, store), run);
    SizeConservation(jobs, store, run);
  }

  // ---------------------------------------------------------------- a leak breaks the size

  lemma {:induction false} StepThen(jobs: seq<Job>, s: State, a: Action, rest: seq<Action>)
    requires Enabled(jobs, s, a) && Legal(jobs, Apply(jobs, s, a), rest)
    ensures Legal(jobs, s, [a] + rest) && After(jobs, s, [a] + rest) == After(jobs, Apply(jobs, s, a), rest)
  {
    assert ([a] + rest)[1..] == rest;
  }

  /** A retry of WriteLinked that is not disturbed again. */
  function Retry(p: nat): seq<Action> { [Begin(p)] + ([Reuse(p)] + ([Commit(p)] + [])) }

  lemma {:induction false} RetryCommits(jobs: seq<Job>, s: State, p: nat)
    requires p < |jobs| && jobs[p].LinkJob? && Enabled(jobs, s, Begin(p)) && s.procs[p].made.Some?
    ensures Legal(jobs, s, Retry(p))
    ensures After(jobs, s, Retry(p)).store ==
      s.store[jobs[p].previous := Into(s.store[jobs[p].previous], s.procs[p].seen).(nextKey := jobs[p].key)]
  {
    var s1 := Apply(jobs, s, Begin(p));
    var s2 := Apply(jobs, s1, Reuse(p));
    assert Enabled(jobs, s2, Commit(p));
    StepThen(jobs, s2, Commit(p), []);
    StepThen(jobs, s1, Reuse(p), [Commit(p)] + []);
    StepThen(jobs, s, Begin(p), [Reuse(p)] + ([Commit(p)] + []));
  }

  /**
   * The exact condition: a retry that comes through keeps all sizes if and only if it does not meet
   * metadata that has lost its chunks.
   */
  lemma {:induction false} RetryKeepsSizesIff(jobs: seq<Job>, s: State, p: nat)
    requires SizeInv(jobs, s) && p < |jobs| && jobs[p].LinkJob? && Enabled(jobs, s, Begin(p)) && s.procs[p].made.Some?
    ensures Legal(jobs, s, Retry(p))
    ensures SizesOk(After(jobs, s, Retry(p)).store) <==> !Leaks(jobs, s, Begin(p))
  {
    var m, q := s.store[jobs[p].previous], s.procs[p];
    RetryCommits(jobs, s, p);
    IntoKeepsSizeIff(m, q.seen);
    var put := Into(m, q.seen).(nextKey := jobs[p].key);
    assert After(jobs, s, Retry(p)).store[jobs[p].previous] == put;
  }

  /** The calls of a run that leaks: a linked write to a key, and an empty plain write to the same key. */
  function LeakingJobs(a: Bytes, b: Bytes): seq<Job> { [LinkJob(b, a), WriteJob(a)] }

  /** The linked writer reads its predecessor, writes its data and stores its node. */
  function Attempt(p: nat, chunks: seq<Chunk>, epoch: int): seq<Action> {
    [Begin(p)] + ([WriteData(p, chunks, epoch)] + ([StoreNode(p)] + []))
  }

  lemma {:induction false} AttemptStores(jobs: seq<Job>, s: State, p: nat, chunks: seq<Chunk>, epoch: int)
    requires p < |jobs| == |s.procs| && jobs[p].LinkJob? && jobs[p].previous != jobs[p].key && s.procs[p] == NEW
    requires jobs[p].previous in s.store
    ensures Legal(jobs, s, Attempt(p, chunks, epoch))
    ensures
      var t, version := After(jobs, s, Attempt(p, chunks, epoch)), Version(s, jobs[p].previous);
      && t.store == s.store[jobs[p].key := Node(jobs[p], chunks, epoch)]
      && Version(t, jobs[p].previous) == version
      && OnlyProc(s, t, p)
      && t.procs[p].phase == Closing(version) && t.procs[p].seen == s.store[jobs[p].previous]
      && t.procs[p].made == Some(Node(jobs[p], chunks, epoch))
  {
    var s1 := Apply(jobs, s, Begin(p));
    var s2 := Apply(jobs, s1, WriteData(p, chunks, epoch));
    StepThen(jobs, s2, StoreNode(p), []);
    StepThen(jobs, s1, WriteData(p, chunks, epoch), [StoreNode(p)] + []);
    StepThen(jobs, s, Begin(p), [WriteData(p, chunks, epoch)] + ([StoreNode(p)] + []));
  }

  /** A plain write. */
  function Plain(p: nat, chunks: seq<Chunk>, epoch: int): seq<Action> {
    [WriteData(p, chunks, epoch)] + ([StoreNode(p)] + [])
  }

  lemma {:induction false} PlainStores(jobs: seq<Job>, s: State, p: nat, chunks: seq<Chunk>, epoch: int)
    requires p < |jobs| == |s.procs| && jobs[p].WriteJob? && s.procs[p] == NEW
    ensures Legal(jobs, s, Plain(p, chunks, epoch))
    ensures
      var t := After(jobs, s, Plain(p, chunks, epoch));
      && t.store == s.store[jobs[p].key := Node(jobs[p], chunks, epoch)]
      && Version(t, jobs[p].key) == Version(s, jobs[p].key) + 1
      && Count(t.writes, jobs[p].key) == Count(s.writes, jobs[p].key) + 1
      && OnlyProc(s, t, p) && t.procs[p].phase.Finished?
  {
    var s1 := Apply(jobs, s, WriteData(p, chunks, epoch));
    StepThen(jobs, s1, StoreNode(p), []);
    StepThen(jobs, s, WriteData(p, chunks, epoch), [StoreNode(p)] + []);
  }

  /** The failing run: a plain Write to the second of two linked nodes. */
  lemma PlainWriteBreaksLink(a: Bytes, b: Bytes, m: Metadata, n: Metadata, chunks: seq<Chunk>, epoch: int)
    requires a != b && a != [] && b != []
    requires m.nextKey == b && n.previousKey == a && n.nextKey == []
    ensures
      var jobs, store := [WriteJob(b)], map[a := m, b := n];
      && Admissible(jobs, store) && Legal(jobs, Start(jobs, store), Plain(0, chunks, epoch))
      && !LinksOk(After(jobs, Start(jobs, store), Plain(0, chunks, epoch)).store)
  {
    var jobs, store := [WriteJob(b)], map[a := m, b := n];
    PlainStores(jobs, Start(jobs, store), 0, chunks, epoch);
    var after := After(jobs, Start(jobs, store), Plain(0, chunks, epoch)).store;
    assert after[a].nextKey == b && after[b].previousKey == [];
  }

  lemma {:induction false} RunThen(jobs: seq<Job>, s: State, run: seq<Action>, rest: seq<Action>)
    requires Legal(jobs, s, run) && Legal(jobs, After(jobs, s, run), rest)
    ensures Legal(jobs, s, run + rest) && After(jobs, s, run + rest) == After(jobs, After(jobs, s, run), rest)
    decreases |run|
  {
    if run == [] {
      assert run + rest == rest;
    } else {
      assert (run + rest)[0] == run[0] && (run + rest)[1..] == run[1..] + rest;
      RunThen(jobs, Apply(jobs, s, run[0]), run[1..], rest);
    }
  }

  /**
   * The failing run, for any stored metadata m with data: a WriteLinked to its key is under way, an empty
   * Write replaces it, and the retry of the WriteLinked commits the old chunks with the new size 0.
   */
  lemma EmptyWriteLeaks(a: Bytes, b: Bytes, m: Metadata, chunks: seq<Chunk>) returns (run: seq<Action>)
    requires a != b && Sized(m) && m.size != 0
    ensures
      var jobs, s := LeakingJobs(a, b), Start(LeakingJobs(a, b), map[a := m]);
      && SizesOk(s.store) && Legal(jobs, s, run)
      && var t := After(jobs, s, run);
         a in t.store && t.store[a].size == 0 && t.store[a].chunks == m.chunks && !SizesOk(t.store)
  {
    var jobs, s := LeakingJobs(a, b), Start(LeakingJobs(a, b), map[a := m]);
    var first, second := Attempt(0, chunks, 1), Plain(1, [], 2);
    AttemptStores(jobs, s, 0, chunks, 1);
    var s1 := After(jobs, s, first);
    PlainStores(jobs, s1, 1, [], 2);
    var s2 := After(jobs, s1, second);
    RunThen(jobs, s, first, second);
    ConflictThenLeak(jobs, s2, 0, m);
    RunThen(jobs, s, first + second, [Commit(0)] + Retry(0));
    run := first + second + ([Commit(0)] + Retry(0));
  }

  /** The commit conflicts, and the retry puts the old chunks into metadata that has none. */
  lemma {:induction false} ConflictThenLeak(jobs: seq<Job>, s: State, p: nat, m: Metadata)
    requires p < |jobs| == |s.procs| && jobs[p].LinkJob? && jobs[p].previous in s.store
    requires
      var q, target := s.procs[p], s.store[jobs[p].previous];
      && q.phase.Closing? && q.phase.version != Version(s, jobs[p].previous) && q.made.Some? && q.seen == m
      && target.chunks == [] && target.size == 0 && Total(m.chunks) != 0
    ensures Legal(jobs, s, [Commit(p)] + Retry(p))
    ensures
      var t := After(jobs, s, [Commit(p)] + Retry(p));
      jobs[p].previous in t.store && t.store[jobs[p].previous].size == 0 && t.store[jobs[p].previous].chunks == m.chunks
  {
    var s1 := Apply(jobs, s, Commit(p));
    RetryCommits(jobs, s1, p);
    StepThen(jobs, s, Commit(p), Retry(p));
  }

  // ---------------------------------------------------------------- undisturbed calls build chains

  /** A WriteLinked that nobody disturbs appends its node. */
  lemma {:induction false} WriteLinkedExtends(jobs: seq<Job>, s: State, p: nat, chunks: seq<Chunk>, epoch: int)
    requires p < |jobs| == |s.procs| && jobs[p].LinkJob? && jobs[p].previous != jobs[p].key && s.procs[p] == NEW
    requires jobs[p].previous in s.store
    ensures Legal(jobs, s, Attempt(p, chunks, epoch) + ([Commit(p)] + []))
    ensures
      var t := After(jobs, s, Attempt(p, chunks, epoch) + ([Commit(p)] + []));
      t.store == Extended(s.store, Node(jobs[p], chunks, epoch)) && OnlyProc(s, t, p)
  {
    AttemptStores(jobs, s, p, chunks, epoch);
    var s1 := After(jobs, s, Attempt(p, chunks, epoch));
    StepThen(jobs, s1, Commit(p), []);
    RunThen(jobs, s, Attempt(p, chunks, epoch), [Commit(p)] + []);
  }

  lemma {:induction false} WriteExtends(jobs: seq<Job>, s: State, p: nat, chunks: seq<Chunk>, epoch: int)
    requires p < |jobs| == |s.procs| && jobs[p].WriteJob? && s.procs[p] == NEW && [] !in s.store
    ensures Legal(jobs, s, Plain(p, chunks, epoch))
    ensures
      var t := After(jobs, s, Plain(p, chunks, epoch));
      t.store == Extended(s.store, Node(jobs[p], chunks, epoch)) && OnlyProc(s, t, p)
  {
    PlainStores(jobs, s, p, chunks, epoch);
  }

  /** The calls that build a chain: a Write for the first key, and a WriteLinked for each further one. */
  function ChainJobs(keys: seq<Bytes>): seq<Job> {
    seq(|keys|, i requires 0 <= i < |keys| => if i == 0 then WriteJob(keys[0]) else LinkJob(keys[i], keys[i - 1]))
  }

  function ChainNodes(keys: seq<Bytes>, contents: seq<Content>): seq<Metadata>
    requires |keys| == |contents|
  {
    seq(|keys|, i requires 0 <= i < |keys| => Node(ChainJobs(keys)[i], contents[i].chunks, contents[i].epoch))
  }

  lemma ChainNodesLinked(keys: seq<Bytes>, contents: seq<Content>)
    requires |keys| == |contents|
    ensures Consecutive(ChainNodes(keys, contents))
  {
  }

  /** The first n calls, one after the other. */
  lemma {:induction false} ChainOfCalls(base: Store, keys: seq<Bytes>, contents: seq<Content>, n: nat)
    returns (run: seq<Action>)
    requires |keys| == |contents| && n <= |keys| && NewKeys(base, ChainNodes(keys, contents))
    ensures Legal(ChainJobs(keys), Start(ChainJobs(keys), base), run)
    ensures
      var t := After(ChainJobs(keys), Start(ChainJobs(keys), base), run);
      && t.store == Built(base, ChainNodes(keys, contents)[..n])
      && |t.procs| == |keys| && forall i :: n <= i < |keys| ==> t.procs[i] == NEW
  {
    var jobs := ChainJobs(keys);
    var s := Start(jobs, base);
    if n == 0 {
      run := [];
    } else {
      var before := ChainOfCalls(base, keys, contents, n - 1);
      var more := OneMoreCall(base, keys, contents, n - 1, After(jobs, s, before));
      RunThen(jobs, s, before, more);
      run := before + more;
    }
  }

  lemma OneMoreCall(base: Store, keys: seq<Bytes>, contents: seq<Content>, p: nat, s: State)
    returns (more: seq<Action>)
    requires |keys| == |contents| && p < |keys| && NewKeys(base, ChainNodes(keys, contents))
    requires s.store == Built(base, ChainNodes(keys, contents)[..p])
    requires |s.procs| == |keys| && forall i :: p <= i < |keys| ==> s.procs[i] == NEW
    ensures Legal(ChainJobs(keys), s, more)
    ensures
      var t := After(ChainJobs(keys), s, more);
      && t.store == Built(base, ChainNodes(keys, contents)[..p + 1])
      && |t.procs| == |keys| && forall i :: p + 1 <= i < |keys| ==> t.procs[i] == NEW
  {
    var jobs, nodes := ChainJobs(keys), ChainNodes(keys, contents);
    ChainNodesLinked(keys, contents);
    more := NextCall(jobs, s, p, contents[p].chunks, contents[p].epoch, base, nodes);
    assert nodes[..p + 1][..p] == nodes[..p];
  }

  /** Calls that come one after the other, with times that do not go back, leave a chain that can be traversed. */
  lemma CallsBuildChain(base: Store, keys: seq<Bytes>, contents: seq<Content>) returns (run: seq<Action>)
    requires |keys| == |contents| && NewKeys(base, ChainNodes(keys, contents))
    requires forall i, j :: 0 <= i < j < |contents| ==> contents[i].epoch <= contents[j].epoch
    ensures Legal(ChainJobs(keys), Start(ChainJobs(keys), base), run)
    ensures
      var store := After(ChainJobs(keys), Start(ChainJobs(keys), base), run).store;
      && Chain(store, keys) && Known(store, keys) && Placed(store, ChainNodes(keys, contents))
      && forall i :: 0 <= i < |keys| ==> Describes(store[keys[i]].(nextKey := []), ChainJobs(keys)[i], contents[i])
  {
    var nodes := ChainNodes(keys, contents);
    run := ChainOfCalls(base, keys, contents, |keys|);
    ChainNodesLinked(keys, contents);
    BuiltIsChain(base, nodes);
    assert nodes[..|keys|] == nodes && KeysOf(nodes) == keys;
  }

  lemma NextCall(
    jobs: seq<Job>, s: State, p: nat, chunks: seq<Chunk>, epoch: int, base: Store, nodes: seq<Metadata>)
    returns (more: seq<Action>)
    requires p < |jobs| == |s.procs| == |nodes| && s.procs[p] == NEW && nodes[p] == Node(jobs[p], chunks, epoch)
    requires if p == 0 then jobs[p].WriteJob? else jobs[p].LinkJob? && jobs[p].previous == nodes[p - 1].key
    requires NewKeys(base, nodes) && Consecutive(nodes) && s.store == Built(base, nodes[..p])
    ensures Legal(jobs, s, more)
    ensures
      var t := After(jobs, s, more);
      t.store == Extended(s.store, nodes[p]) && OnlyProc(s, t, p)
  {
    assert NewKeys(base, nodes[..p]) && Consecutive(nodes[..p]);
    BuiltHolds(base, nodes[..p]);
    if p == 0 {
      more := Plain(p, chunks, epoch);
      assert nodes[..p] == [];
      WriteExtends(jobs, s, p, chunks, epoch);
    } else {
      more := Attempt(p, chunks, epoch) + ([Commit(p)] + []);
      assert nodes[..p][p - 1] == nodes[p - 1];
      WriteLinkedExtends(jobs, s, p, chunks, epoch);
    }
  }
}
