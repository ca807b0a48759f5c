/**
 * What a retried Repair does to a Write that comes in between (Repair in client/client.go). The callback
 * remembers the chunks it has repaired; when its transaction is retried it stores them again, whatever the
 * metadata says by then.
 */
module StaleRepair {
  import opened Metatypes
  import opened Linked

  /**
   * What is found under every key is the data of the last Write, repaired or not. The history tells which
   * Write data is of; the chunks that metadata without any can pick up (EmptyWriteLeaks) are not its concern.
   */
  ghost predicate DataCurrent(s: State) {
    forall k :: k in s.store ==> Count(s.born, k) == Count(s.writes, k)
  }

  /**
   * A Repair commits what it has repaired over metadata that stems from another Write. The callback could
   * see this: each Write gives the metadata a new creation time, which Repair keeps.
   */
  predicate Overrules(jobs: seq<Job>, s: State, a: Action) {
    a.Commit? && a.p < |jobs| && a.p < |s.procs| && jobs[a.p].RepairJob? &&
    var q := s.procs[a.p];
    q.phase.Closing? && q.phase.version == Version(s, jobs[a.p].key) && q.repaired != q.read
  }

  function Overruling(jobs: seq<Job>): (State, Action) -> bool { (s: State, a: Action) => Overrules(jobs, s, a) }

  /** While its key has not been written again, a process knows which Write the metadata there stems from. */
  ghost predicate ReadOk(job: Job, s: State, q: Process) {
    Holding(q) && !job.WriteJob? ==>
      && q.phase.version <= Version(s, job.Target())
      && job.Target() in s.store
      && (q.phase.version == Version(s, job.Target()) ==> q.read == Count(s.born, job.Target()))
  }

  ghost predicate DataInv(jobs: seq<Job>, s: State) {
    Local(jobs, s) && DataCurrent(s) && forall i :: 0 <= i < |jobs| ==> ReadOk(jobs[i], s, s.procs[i])
  }

  lemma DataStart(jobs: seq<Job>, store: map<Bytes, Metadata>)
    ensures DataInv(jobs, Start(jobs, store))
  {
    LocalStart(jobs, store);
  }

  /** Data changes hands only together with the version of its key. */
  lemma BornWithVersion(jobs: seq<Job>, s: State, a: Action, k: Bytes)
    requires Enabled(jobs, s, a)
    ensures
      var t := Apply(jobs, s, a);
      && (k in s.store ==> k in t.store) && Version(s, k) <= Version(t, k)
      && (Version(s, k) == Version(t, k) ==> Count(t.born, k) == Count(s.born, k))
  {
  }

  /** Whoever reads, writes or commits, every process still knows what it knew. */
  lemma ReadStep(jobs: seq<Job>, s: State, a: Action)
    requires DataInv(jobs, s) && Enabled(jobs, s, a)
    ensures |Apply(jobs, s, a).procs| == |jobs|
    ensures forall i :: 0 <= i < |jobs| ==> ReadOk(jobs[i], Apply(jobs, s, a), Apply(jobs, s, a).procs[i])
  {
    var t := Apply(jobs, s, a);
    forall i | 0 <= i < |jobs|
      ensures ReadOk(jobs[i], t, t.procs[i])
    {
      assert ReadOk(jobs[i], s, s.procs[i]);
      BornWithVersion(jobs, s, a, jobs[i].Target());
    }
  }

  lemma CurrentStep(jobs: seq<Job>, s: State, a: Action)
    requires DataInv(jobs, s) && Enabled(jobs, s, a)
    ensures DataCurrent(Apply(jobs, s, a)) <==> !Overrules(jobs, s, a)
  {
    var job, q, t := jobs[a.p], s.procs[a.p], Apply(jobs, s, a);
    assert LocalOk(job, q) && ReadOk(job, s, q);
    if Overrules(jobs, s, a) {
      assert Count(t.born, job.key) != Count(t.writes, job.key);
    } else {
      forall k | k in t.store
        ensures Count(t.born, k) == Count(t.writes, k)
      {
        if k in s.store {
          assert Count(s.born, k) == Count(s.writes, k);
        }
      }
    }
  }

  lemma {:induction false} DataRun(jobs: seq<Job>, s: State, run: seq<Action>)
    requires DataInv(jobs, s) && Legal(jobs, s, run) && Avoids(jobs, s, run, Overruling(jobs))
    ensures DataInv(jobs, After(jobs, s, run))
    decreases |run|
  {
    if run != [] {
      LocalStep(jobs, s, run[0]);
      ReadStep(jobs, s, run[0]);
      CurrentStep(jobs, s, run[0]);
      DataRun(jobs, Apply(jobs, s, run[0]), run[1..]);
    }
  }

  /**
   * The exact condition over runs: as long as no Repair has overruled a Write, what is found under every
   * key is the data of its last Write, and a step keeps it so if and only if it does not overrule one.
   */
  lemma {:induction false} LastWriteStaysIff(jobs: seq<Job>, store: map<Bytes, Metadata>, run: seq<Action>, a: Action)
    requires Legal(jobs, Start(jobs, store), run) && Avoids(jobs, Start(jobs, store), run, Overruling(jobs))
    requires Enabled(jobs, After(jobs, Start(jobs, store), run), a)
    ensures
      var s := After(jobs, Start(jobs, store), run);
      DataCurrent(s) && (DataCurrent(Apply(jobs, s, a)) <==> !Overrules(jobs, s, a))
  {
    DataStart(jobs, store);
    DataRun(jobs, Start(jobs, store), run);
    CurrentStep(jobs, After(jobs, Start(jobs, store), run), a);
  }

  lemma {:induction false} OthersLeave(jobs: seq<Job>, s: State, run: seq<Action>, p: nat)
    requires Legal(jobs, s, run) && p < |s.procs| && forall i :: 0 <= i < |run| ==> run[i].p != p
    ensures p < |After(jobs, s, run).procs| && After(jobs, s, run).procs[p] == s.procs[p]
    decreases |run|
  {
    if run != [] {
      OthersLeave(jobs, Apply(jobs, s, run[0]), run[1..], p);
    }
  }

  /** A Repair that commits in the attempt in which it repaired overrules nobody, whatever others do meanwhile. */
  lemma {:induction false} FirstAttemptOverrulesNobody(
    jobs: seq<Job>, s: State, p: nat, chunks: seq<Chunk>, epoch: int, others: seq<Action>)
    requires Enabled(jobs, s, RepairData(p, chunks, epoch))
    requires Legal(jobs, Apply(jobs, s, RepairData(p, chunks, epoch)), others)
    requires forall i :: 0 <= i < |others| ==> others[i].p != p
    ensures !Overrules(jobs, After(jobs, Apply(jobs, s, RepairData(p, chunks, epoch)), others), Commit(p))
  {
    OthersLeave(jobs, Apply(jobs, s, RepairData(p, chunks, epoch)), others, p);
  }

  // ---------------------------------------------------------------- the failing run

  function RepairAttempt(p: nat, chunks: seq<Chunk>, epoch: int): seq<Action> {
    [Begin(p)] + ([RepairData(p, chunks, epoch)] + [])
  }

  lemma {:induction false} RepairAttempted(jobs: seq<Job>, s: State, p: nat, chunks: seq<Chunk>, epoch: int)
    requires p < |jobs| == |s.procs| && jobs[p].RepairJob? && s.procs[p] == NEW && jobs[p].key in s.store
    requires epoch != 0 && |chunks| == |s.store[jobs[p].key].chunks| > 0
    ensures Legal(jobs, s, RepairAttempt(p, chunks, epoch))
    ensures
      var t := After(jobs, s, RepairAttempt(p, chunks, epoch));
      && t.store == s.store && t.versions == s.versions && t.writes == s.writes && t.born == s.born
      && OnlyProc(s, t, p)
      && var q := t.procs[p];
         && q.phase == Closing(Version(s, jobs[p].key)) && q.chunks == chunks && q.epoch == epoch
         && q.repaired == Count(s.born, jobs[p].key)
  {
    var s1 := Apply(jobs, s, Begin(p));
    StepThen(jobs, s1, RepairData(p, chunks, epoch), []);
    StepThen(jobs, s, Begin(p), [RepairData(p, chunks, epoch)] + []);
  }

  /** The commit conflicts, and the retry stores the remembered chunks. */
  lemma {:induction false} ConflictThenRetry(jobs: seq<Job>, s: State, p: nat)
    requires p < |jobs| == |s.procs| && jobs[p].RepairJob? && jobs[p].key in s.store
    requires
      var q := s.procs[p];
      q.phase.Closing? && q.phase.version != Version(s, jobs[p].key) && q.epoch != 0
    ensures Legal(jobs, s, [Commit(p)] + Retry(p))
    ensures
      var t, q, key := After(jobs, s, [Commit(p)] + Retry(p)), s.procs[p], jobs[p].key;
      && OnlyProc(s, t, p) && t.procs[p].phase.Finished? && key in t.store
      && t.store[key].chunks == q.chunks && t.store[key].creationEpoch == s.store[key].creationEpoch
      && t.writes == s.writes && Count(t.born, key) == q.repaired
  {
    var s1 := Apply(jobs, s, Commit(p));
    var s2 := Apply(jobs, s1, Begin(p));
    var s3 := Apply(jobs, s2, Reuse(p));
    StepThen(jobs, s3, Commit(p), []);
    StepThen(jobs, s2, Reuse(p), [Commit(p)] + []);
    StepThen(jobs, s1, Begin(p), [Reuse(p)] + ([Commit(p)] + []));
    StepThen(jobs, s, Commit(p), Retry(p));
  }

  /**
   * A Repair has repaired, a Write replaces the data and succeeds, and the retry of the Repair puts the old
   * chunks back under the creation time of the Write. Both calls succeed.
   */
  lemma RetriedRepairUndoesWrite(
    key: Bytes, m: Metadata, repaired: seq<Chunk>, e: int, chunks: seq<Chunk>, now: int)
    returns (run: seq<Action>)
    requires e != 0 && |repaired| == |m.chunks| > 0
    ensures
      var jobs, s := [RepairJob(key), WriteJob(key)], Start([RepairJob(key), WriteJob(key)], map[key := m]);
      && Legal(jobs, s, run)
      && var t := After(jobs, s, run);
         && |t.procs| == 2 && t.procs[0].phase.Finished? && t.procs[1].phase.Finished?
         && key in t.store && t.store[key].chunks == repaired && t.store[key].creationEpoch == now
         && !DataCurrent(t)
  {
    var jobs, s := [RepairJob(key), WriteJob(key)], Start([RepairJob(key), WriteJob(key)], map[key := m]);
    var first, second, last := RepairAttempt(0, repaired, e), Plain(1, chunks, now), [Commit(0)] + Retry(0);
    RepairAttempted(jobs, s, 0, repaired, e);
    var s1 := After(jobs, s, first);
    PlainStores(jobs, s1, 1, chunks, now);
    var s2 := After(jobs, s1, second);
    RunThen(jobs, s, first, second);
    ConflictThenRetry(jobs, s2, 0);
    RunThen(jobs, s, first + second, last);
    run := first + second + last;
  }
}
