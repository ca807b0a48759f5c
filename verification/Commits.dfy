/**
 * What commits do to the store, field by field (client/client.go, client/client_linked_data.go), and what
 * becomes of a node that has been stored, over all runs of concurrent calls.
 */
module Commits {
  import opened Metatypes
  import opened Linked

  // ---------------------------------------------------------------- what a callback knows

  /** What has been read of n: everything, unless n has no chunks, in which case there may be old ones. */
  ghost predicate Sees(m: Metadata, n: Metadata) { m.(chunks := n.chunks) == n && (n.chunks != [] ==> m == n) }

  /** While its key has not been written again, a process knows what is stored there. */
  ghost predicate SawOk(job: Job, s: State, q: Process) {
    Holding(q) && !job.WriteJob? ==>
      && q.phase.version <= Version(s, job.Target())
      && job.Target() in s.store
      && (q.phase.version == Version(s, job.Target()) ==> Sees(q.seen, s.store[job.Target()]))
  }

  ghost predicate Saw(jobs: seq<Job>, s: State) {
    Local(jobs, s) && forall i :: 0 <= i < |jobs| ==> SawOk(jobs[i], s, s.procs[i])
  }

  /** Whatever changes under a key, its version does too. */
  lemma StoredWithVersion(jobs: seq<Job>, s: State, a: Action, k: Bytes)
    requires Enabled(jobs, s, a)
    ensures
      var t := Apply(jobs, s, a);
      && Version(s, k) <= Version(t, k) && (k in s.store ==> k in t.store)
      && (Version(s, k) == Version(t, k) && k in s.store ==> t.store[k] == s.store[k])
  {
  }

  lemma {:induction false} SawStep(jobs: seq<Job>, s: State, a: Action)
    requires Saw(jobs, s) && Enabled(jobs, s, a)
    ensures Saw(jobs, Apply(jobs, s, a))
  {
    var t := Apply(jobs, s, a);
    LocalStep(jobs, s, a);
    OneMoves(jobs, s, a);
    forall i | 0 <= i < |jobs|
      ensures SawOk(jobs[i], t, t.procs[i])
    {
      assert SawOk(jobs[i], s, s.procs[i]);
      StoredWithVersion(jobs, s, a, jobs[i].Target());
    }
  }

  lemma {:induction false} SawRun(jobs: seq<Job>, s: State, run: seq<Action>)
    requires Saw(jobs, s) && Legal(jobs, s, run)
    ensures Saw(jobs, After(jobs, s, run))
    decreases |run|
  {
    if run != [] {
      SawStep(jobs, s, run[0]);
      SawRun(jobs, Apply(jobs, s, run[0]), run[1..]);
    }
  }

  // ---------------------------------------------------------------- what a commit changes

  /** What call i has repaired in this run. */
  function RepairedBy(run: seq<Action>, i: nat): Option<Content> {
    if run == [] then None
    else if run[0].RepairData? && run[0].p == i then Some(Content(run[0].chunks, run[0].epoch))
    else RepairedBy(run[1..], i)
  }

  ghost predicate RemembersRepair(q: Process, content: Option<Content>) {
    match content
    case None => q.epoch == 0 && q.total == 0
    case Some(c) => q.epoch == c.epoch != 0 && q.chunks == c.chunks && q.total == Total(c.chunks)
  }

  /** However often it is retried, a Repair remembers what it repaired first. */
  lemma {:induction false} RepairIsRemembered(jobs: seq<Job>, s: State, run: seq<Action>, i: nat)
    requires Legal(jobs, s, run) && i < |jobs| == |s.procs|
    ensures
      var t := After(jobs, s, run);
      && |t.procs| == |jobs|
      && (s.procs[i].epoch == 0 && s.procs[i].total == 0 ==> RemembersRepair(t.procs[i], RepairedBy(run, i)))
      && (s.procs[i].epoch != 0 ==>
            (t.procs[i].epoch, t.procs[i].chunks, t.procs[i].total) ==
            (s.procs[i].epoch, s.procs[i].chunks, s.procs[i].total))
    decreases |run|
  {
    if run != [] {
      OneMoves(jobs, s, run[0]);
      RepairIsRemembered(jobs, Apply(jobs, s, run[0]), run[1..], i);
    }
  }

  /** The change that a commit makes to the metadata under its key. */
  ghost predicate Changed(job: Job, before: Metadata, after: Metadata, repaired: Option<Content>) {
    match job
    case LinkJob(key, _) =>
      && after.(chunks := before.chunks) == before.(nextKey := key)
      && (before.chunks != [] ==> after.chunks == before.chunks)
    case RepairJob(_) =>
      repaired.Some? &&
      after == before.(chunks := repaired.value.chunks, size := Total(repaired.value.chunks),
                       lastWriteEpoch := repaired.value.epoch)
    case WriteJob(_) => false
  }

  /**
   * In every run: a commit that conflicts changes nothing, and one that does not changes the metadata under
   * its key and nothing else, as the call says: a WriteLinked sets the link to its node (and may leave old
   * chunks in metadata that has none), a Repair replaces chunks, size and time of the last write by those of
   * its repair.
   */
  lemma {:induction false} CommitExact(jobs: seq<Job>, store: map<Bytes, Metadata>, run: seq<Action>, i: nat)
    requires Legal(jobs, Start(jobs, store), run) && i < |jobs|
    requires Enabled(jobs, After(jobs, Start(jobs, store), run), Commit(i))
    ensures
      var s := After(jobs, Start(jobs, store), run);
      var after, key := Apply(jobs, s, Commit(i)).store, jobs[i].Target();
      if s.procs[i].phase.version != Version(s, key) then after == s.store
      else
        && key in s.store && after.Keys == s.store.Keys
        && (forall k :: k in s.store && k != key ==> after[k] == s.store[k])
        && Changed(jobs[i], s.store[key], after[key], RepairedBy(run, i))
  {
    var s := After(jobs, Start(jobs, store), run);
    LocalStart(jobs, store);
    SawRun(jobs, Start(jobs, store), run);
    RepairIsRemembered(jobs, Start(jobs, store), run, i);
    assert LocalOk(jobs[i], s.procs[i]) && SawOk(jobs[i], s, s.procs[i]);
  }

  // ---------------------------------------------------------------- what becomes of a linked node

  ghost predicate NeverRepaired(jobs: seq<Job>, key: Bytes) {
    forall j :: 0 <= j < |jobs| && jobs[j].RepairJob? ==> jobs[j].key != key
  }

  /** The stored form m of a node that was made as n. */
  ghost predicate Keeps(m: Metadata, n: Metadata, repaired: bool) {
    && m.key == n.key && m.creationEpoch == n.creationEpoch && m.previousKey == n.previousKey
    && (!repaired ==>
          m.size == n.size && m.lastWriteEpoch == n.lastWriteEpoch && (n.chunks != [] ==> m.chunks == n.chunks))
  }

  ghost predicate NodeKept(jobs: seq<Job>, s: State, i: nat)
    requires i < |jobs| == |s.procs|
  {
    jobs[i].LinkJob? && jobs[i].key in s.store ==>
      s.procs[i].made.Some? &&
      Keeps(s.store[jobs[i].key], s.procs[i].made.value, !NeverRepaired(jobs, jobs[i].key))
  }

  lemma {:induction false} NodeKeptStep(jobs: seq<Job>, s: State, a: Action, i: nat)
    requires Saw(jobs, s) && Enabled(jobs, s, a) && KeysOk(jobs) && i < |jobs| && NodeKept(jobs, s, i)
    ensures |Apply(jobs, s, a).procs| == |jobs| && NodeKept(jobs, Apply(jobs, s, a), i)
  {
    OneMoves(jobs, s, a);
    assert SawOk(jobs[a.p], s, s.procs[a.p]) && LocalOk(jobs[a.p], s.procs[a.p]);
  }

  lemma {:induction false} NodeKeptRun(jobs: seq<Job>, s: State, run: seq<Action>, i: nat)
    requires Saw(jobs, s) && Legal(jobs, s, run) && KeysOk(jobs) && i < |jobs| && NodeKept(jobs, s, i)
    ensures |After(jobs, s, run).procs| == |jobs| && NodeKept(jobs, After(jobs, s, run), i)
    decreases |run|
  {
    if run != [] {
      NodeKeptStep(jobs, s, run[0], i);
      SawStep(jobs, s, run[0]);
      NodeKeptRun(jobs, Apply(jobs, s, run[0]), run[1..], i);
    }
  }

  /**
   * In every state of every run: a linked node that is stored has the key, the creation time and the
   * predecessor of the call that wrote it, and, unless it is being repaired, also the size, the time of the
   * last write and the chunks that were written, if there are any.
   */
  lemma {:induction false} PublishedContent(jobs: seq<Job>, store: map<Bytes, Metadata>, run: seq<Action>, i: nat)
    requires Admissible(jobs, store) && Legal(jobs, Start(jobs, store), run) && i < |jobs| && jobs[i].LinkJob?
    ensures
      var s, key := After(jobs, Start(jobs, store), run), jobs[i].key;
      key in s.store ==>
        WrittenBy(run, i).Some? &&
        var m, c := s.store[key], WrittenBy(run, i).value;
        && m.key == key && m.creationEpoch == c.epoch && m.previousKey == jobs[i].previous
        && (NeverRepaired(jobs, key) ==>
              m.size == Total(c.chunks) && m.lastWriteEpoch == c.epoch && (c.chunks != [] ==> m.chunks == c.chunks))
  {
    LocalStart(jobs, store);
    NodeKeptRun(jobs, Start(jobs, store), run, i);
    MadeIsWritten(jobs, Start(jobs, store), run, i);
  }
}
