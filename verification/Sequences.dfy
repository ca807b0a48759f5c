/**
 * Numbers for new objects: leased sequences, cached per scope in buckets with least-recently-used
 * eviction (server/db/badger/cache.go). The database keeps, per scope, up to where numbers have been
 * leased. A lease is one transaction that reads that number and raises it by the bandwidth
 * (vendor/github.com/dgraph-io/badger/db.go). The transaction function already changes the sequence in
 * memory, so a renewal whose commit fails leaves a lease behind that the database knows nothing about.
 */
module Sequences {
  import opened Metatypes

  const BUCKET_COUNT: nat := 16
  const BUCKET_SIZE: nat := 64
  const BANDWIDTH: nat := 512

  /** Numbers from next to leased - 1 may be handed out without asking the database. */
  datatype Lease = Lease(next: nat, leased: nat)

  /** order lists the cached scopes, the most recently used one first. */
  datatype Bucket = Bucket(entries: map<Bytes, Lease>, order: seq<Bytes>)

  datatype Cache = Cache(buckets: seq<Bucket>, stored: map<Bytes, nat>)

  /**
   * How the renewal of a used-up lease ends: it is committed; the stored number cannot be read; the new
   * one cannot be written; the commit fails; or the commit conflicts, after which Next is called again.
   */
  datatype Renewal = Renewed | Unread | Unwritten | Lost | Conflicted

  /** What the database does in one operation: whether its transactions succeed. */
  datatype Fate = Fate(acquire: bool, renewal: Renewal, release: bool)

  /** A call of IncrementKey, the release of one scope by Purge, and the end of the process. */
  datatype Action = Increment(scope: Bytes, fate: Fate) | Drop(scope: Bytes, release: bool) | Crash

  const GOOD := Fate(true, Renewed, true)

  const EMPTY := Bucket(map[], [])

  function NoEntries(): seq<Bucket> { seq(BUCKET_COUNT, _ => EMPTY) }

  function Fresh(): Cache { Cache(NoEntries(), map[]) }

  predicate Shaped(c: Cache) { |c.buckets| == BUCKET_COUNT }

  function Slot(hash: Bytes -> nat, scope: Bytes): (i: nat)
    ensures i < BUCKET_COUNT
  {
    hash(scope) % BUCKET_COUNT
  }

  function Stored(c: Cache, scope: Bytes): nat { if scope in c.stored then c.stored[scope] else 0 }

  function Without(order: seq<Bytes>, scope: Bytes): seq<Bytes> {
    if order == [] then []
    else if order[0] == scope then Without(order[1..], scope)
    else [order[0]] + Without(order[1..], scope)
  }

  // ---------------------------------------------------------------- the steps of an increment

  function SetBucket(c: Cache, i: nat, b: Bucket): Cache
    requires Shaped(c) && i < BUCKET_COUNT
  {
    c.(buckets := c.buckets[i := b])
  }

  /** The scope is cached: it becomes the most recently used one. */
  function Touch(c: Cache, i: nat, scope: Bytes): Cache
    requires Shaped(c) && i < BUCKET_COUNT
  {
    var b := c.buckets[i];
    SetBucket(c, i, Bucket(b.entries, [scope] + Without(b.order, scope)))
  }

  /** A new lease is taken from the database and added to the bucket. */
  function Acquire(c: Cache, i: nat, scope: Bytes): Cache
    requires Shaped(c) && i < BUCKET_COUNT
  {
    var b, next := c.buckets[i], Stored(c, scope);
    Cache(c.buckets[i := Bucket(b.entries[scope := Lease(next, next + BANDWIDTH)], [scope] + b.order)],
          c.stored[scope := next + BANDWIDTH])
  }

  predicate Overfull(c: Cache, i: nat)
    requires Shaped(c) && i < BUCKET_COUNT
  {
    |c.buckets[i].order| > BUCKET_SIZE
  }

  function Oldest(c: Cache, i: nat): Bytes
    requires Shaped(c) && i < BUCKET_COUNT && Overfull(c, i)
  {
    var order := c.buckets[i].order;
    order[|order| - 1]
  }

  /** A scope leaves its bucket, and what is left of its lease is returned to the database. */
  function Release(c: Cache, i: nat, scope: Bytes): Cache
    requires Shaped(c) && i < BUCKET_COUNT
  {
    var b := c.buckets[i];
    if scope !in b.entries then c
    else
      Cache(c.buckets[i := Bucket(b.entries - {scope}, Without(b.order, scope))],
            c.stored[scope := b.entries[scope].next])
  }

  function Crashed(c: Cache): Cache { c.(buckets := NoEntries()) }

  /** A new state, and the number handed out, if any. */
  datatype Drawn = Drawn(cache: Cache, number: Option<nat>)

  function SetLease(c: Cache, i: nat, scope: Bytes, e: Lease): Cache
    requires Shaped(c) && i < BUCKET_COUNT
  {
    var b := c.buckets[i];
    SetBucket(c, i, b.(entries := b.entries[scope := e]))
  }

  /** The cached lease hands out its next number, after renewal if it is used up. */
  function Draw(c: Cache, i: nat, scope: Bytes, renewal: Renewal): (r: Drawn)
    requires Shaped(c) && i < BUCKET_COUNT && scope in c.buckets[i].entries
    ensures Shaped(r.cache)
  {
    var e := c.buckets[i].entries[scope];
    if e.next < e.leased then Drawn(SetLease(c, i, scope, Lease(e.next + 1, e.leased)), Some(e.next))
    else
      var next := Stored(c, scope);
      var end := next + BANDWIDTH;
      match renewal
      case Renewed =>
        Drawn(SetLease(c, i, scope, Lease(next + 1, end)).(stored := c.stored[scope := end]), Some(next))
      case Unread => Drawn(c, None)
      case Unwritten => Drawn(SetLease(c, i, scope, Lease(next, e.leased)), None)
      case Lost => Drawn(SetLease(c, i, scope, Lease(next, end)), None)
      case Conflicted => Drawn(SetLease(c, i, scope, Lease(next + 1, end)), Some(next))
  }

  /** IncrementKey: the new state, and the number handed out, if any. A failing release panics. */
  function Incremented(hash: Bytes -> nat, c: Cache, scope: Bytes, fate: Fate): (r: Drawn)
    requires Shaped(c)
    ensures Shaped(r.cache)
  {
    var i := Slot(hash, scope);
    if scope in c.buckets[i].entries then Draw(Touch(c, i, scope), i, scope, fate.renewal)
    else if !fate.acquire then Drawn(c, None)
    else
      var d := Acquire(c, i, scope);
      if !Overfull(d, i) then Draw(d, i, scope, fate.renewal)
      else if !fate.release then Drawn(Crashed(d), None)
      else
        var e := Release(d, i, Oldest(d, i));
        if scope in e.buckets[i].entries then Draw(e, i, scope, fate.renewal) else Drawn(e, None)
  }

  /** A number handed out for a scope. */
  datatype Issue = Issue(scope: Bytes, number: nat)

  /** The cache, and all numbers handed out so far. */
  datatype State = State(cache: Cache, issued: seq<Issue>)

  function Start(): State { State(Fresh(), []) }

  function Next(hash: Bytes -> nat, s: State, a: Action): (t: State)
    requires Shaped(s.cache)
    ensures Shaped(t.cache)
  {
    match a
    case Increment(scope, fate) =>
      var r := Incremented(hash, s.cache, scope, fate);
      State(r.cache, s.issued + if r.number.Some? then [Issue(scope, r.number.value)] else [])
    case Drop(scope, release) =>
      s.(cache := if release then Release(s.cache, Slot(hash, scope), scope) else Crashed(s.cache))
    case Crash => s.(cache := Crashed(s.cache))
  }

  ghost function After(hash: Bytes -> nat, s: State, run: seq<Action>): (t: State)
    requires Shaped(s.cache)
    ensures Shaped(t.cache)
    decreases |run|
  {
    if run == [] then s else After(hash, Next(hash, s, run[0]), run[1..])
  }

  // ---------------------------------------------------------------- when commits are lost

  /**
   * This step renews a used-up lease and the commit fails: whether it does can be seen from the lease
   * and from the answer of the database.
   */
  predicate LosesCommit(hash: Bytes -> nat, c: Cache, a: Action)
    requires Shaped(c)
  {
    a.Increment? && (a.fate.renewal.Lost? || a.fate.renewal.Conflicted?) &&
    var entries := c.buckets[Slot(hash, a.scope)].entries;
    a.scope in entries && entries[a.scope].next >= entries[a.scope].leased
  }

  /** A run in which no renewal loses its commit; everything else may fail. */
  ghost predicate Clean(hash: Bytes -> nat, s: State, run: seq<Action>)
    requires Shaped(s.cache)
    decreases |run|
  {
    run == [] || (!LosesCommit(hash, s.cache, run[0]) && Clean(hash, Next(hash, s, run[0]), run[1..]))
  }

  /** Crashes may happen, but the database always answers. */
  ghost predicate FaultFree(run: seq<Action>) {
    forall i :: 0 <= i < |run| ==>
      match run[i]
      case Increment(_, fate) => fate == GOOD
      case Drop(_, release) => release
      case Crash => true
  }

  // ---------------------------------------------------------------- invariants

  /** What holds in every run: buckets hold the scopes of their hash, and their order lists them once. */
  ghost predicate BucketOk(hash: Bytes -> nat, b: Bucket, i: nat) {
    && (forall s :: s in b.entries ==> Slot(hash, s) == i)
    && (forall s :: s in b.entries <==> s in b.order)
    && Distinct(b.order)
  }

  ghost predicate Distinct(order: seq<Bytes>) {
    forall j, k :: 0 <= j < k < |order| ==> order[j] != order[k]
  }

  ghost predicate Tidy(hash: Bytes -> nat, c: Cache) {
    Shaped(c) && forall i :: 0 <= i < BUCKET_COUNT ==> BucketOk(hash, c.buckets[i], i)
  }

  /** The database knows of every lease. */
  ghost predicate Backed(c: Cache) {
    forall i, s :: 0 <= i < |c.buckets| && s in c.buckets[i].entries ==> BackedLease(c, c.buckets[i].entries[s], s)
  }

  ghost predicate BackedLease(c: Cache, e: Lease, scope: Bytes) {
    e.next <= Stored(c, scope) && e.leased <= Stored(c, scope)
  }

  /** What holds as long as no commit is lost. */
  ghost predicate Inv(hash: Bytes -> nat, c: Cache) { Tidy(hash, c) && Backed(c) }

  /** No number from here on has been handed out for the scope. */
  function Bound(hash: Bytes -> nat, c: Cache, scope: Bytes): nat
    requires Shaped(c)
  {
    var b := c.buckets[Slot(hash, scope)];
    if scope in b.entries then b.entries[scope].next else Stored(c, scope)
  }

  lemma {:induction false} WithoutMembers(order: seq<Bytes>, scope: Bytes, x: Bytes)
    ensures x in Without(order, scope) <==> x in order && x != scope
  {
    if order != [] {
      WithoutMembers(order[1..], scope, x);
    }
  }

  lemma {:induction false} WithoutDistinct(order: seq<Bytes>, scope: Bytes)
    requires Distinct(order)
    ensures Distinct(Without(order, scope))
  {
    if order != [] {
      WithoutDistinct(order[1..], scope);
      WithoutMembers(order[1..], scope, order[0]);
    }
  }

  lemma DistinctCons(order: seq<Bytes>, scope: Bytes)
    requires Distinct(order) && scope !in order
    ensures Distinct([scope] + order)
  {
  }

  lemma {:induction false} WithoutScope(order: seq<Bytes>, scope: Bytes)
    requires Distinct(order)
    ensures forall x: Bytes :: x in Without(order, scope) <==> x in order && x != scope
    ensures Distinct(Without(order, scope)) && Distinct([scope] + Without(order, scope))
  {
    WithoutDistinct(order, scope);
    forall x: Bytes
      ensures x in Without(order, scope) <==> x in order && x != scope
    {
      WithoutMembers(order, scope, x);
    }
    DistinctCons(Without(order, scope), scope);
  }

  /** Only bucket i changes, and it stays in order. */
  lemma TidyFrame(hash: Bytes -> nat, c: Cache, d: Cache, i: nat, b: Bucket)
    requires Tidy(hash, c) && i < BUCKET_COUNT && d.buckets == c.buckets[i := b] && BucketOk(hash, b, i)
    ensures Tidy(hash, d)
  {
    forall k | 0 <= k < BUCKET_COUNT
      ensures BucketOk(hash, d.buckets[k], k)
    {
      assert BucketOk(hash, c.buckets[k], k);
    }
  }

  /** Only bucket i changes, and at most the stored number of one of its scopes. */
  lemma BackedFrame(hash: Bytes -> nat, c: Cache, d: Cache, i: nat, b: Bucket, scope: Bytes)
    requires Tidy(hash, c) && Backed(c) && i == Slot(hash, scope) && d.buckets == c.buckets[i := b]
    requires forall s :: s != scope ==> Stored(d, s) == Stored(c, s)
    requires forall s :: s in b.entries ==> BackedLease(d, b.entries[s], s)
    ensures Backed(d)
  {
    forall k, s | 0 <= k < |d.buckets| && s in d.buckets[k].entries
      ensures BackedLease(d, d.buckets[k].entries[s], s)
    {
      assert BucketOk(hash, c.buckets[k], k);
      if k != i {
        assert BackedLease(c, c.buckets[k].entries[s], s);
      }
    }
  }

  lemma TouchKeeps(hash: Bytes -> nat, c: Cache, scope: Bytes)
    requires Tidy(hash, c) && scope in c.buckets[Slot(hash, scope)].entries
    ensures var d := Touch(c, Slot(hash, scope), scope);
      && Tidy(hash, d) && (Backed(c) ==> Backed(d))
      && d.stored == c.stored && d.buckets[Slot(hash, scope)].entries == c.buckets[Slot(hash, scope)].entries
      && forall s :: Bound(hash, d, s) == Bound(hash, c, s)
  {
    var i := Slot(hash, scope);
    var b, d := c.buckets[i], Touch(c, i, scope);
    assert BucketOk(hash, b, i);
    WithoutScope(b.order, scope);
    TidyFrame(hash, c, d, i, d.buckets[i]);
    if Backed(c) {
      assert forall s :: s in b.entries ==> BackedLease(c, b.entries[s], s);
      BackedFrame(hash, c, d, i, d.buckets[i], scope);
    }
  }

  lemma AcquireKeeps(hash: Bytes -> nat, c: Cache, scope: Bytes)
    requires Tidy(hash, c) && scope !in c.buckets[Slot(hash, scope)].entries
    ensures var d := Acquire(c, Slot(hash, scope), scope);
      && Tidy(hash, d) && (Backed(c) ==> Backed(d))
      && scope in d.buckets[Slot(hash, scope)].entries
      && d.buckets[Slot(hash, scope)].entries[scope] == Lease(Stored(c, scope), Stored(c, scope) + BANDWIDTH)
      && forall s :: Bound(hash, d, s) == Bound(hash, c, s)
  {
    var i := Slot(hash, scope);
    var b, d := c.buckets[i], Acquire(c, i, scope);
    assert BucketOk(hash, b, i);
    DistinctCons(b.order, scope);
    TidyFrame(hash, c, d, i, d.buckets[i]);
    if Backed(c) {
      assert forall s :: s in b.entries ==> BackedLease(c, b.entries[s], s);
      BackedFrame(hash, c, d, i, d.buckets[i], scope);
    }
  }

  lemma ReleaseTidy(hash: Bytes -> nat, c: Cache, i: nat, scope: Bytes)
    requires Tidy(hash, c) && i < BUCKET_COUNT
    ensures Tidy(hash, Release(c, i, scope))
  {
    var b, d := c.buckets[i], Release(c, i, scope);
    assert BucketOk(hash, b, i);
    if scope in b.entries {
      WithoutScope(b.order, scope);
      TidyFrame(hash, c, d, i, d.buckets[i]);
    }
  }

  lemma ReleaseBacked(hash: Bytes -> nat, c: Cache, i: nat, scope: Bytes)
    requires Tidy(hash, c) && Backed(c) && i < BUCKET_COUNT
    ensures Backed(Release(c, i, scope))
  {
    var b, d := c.buckets[i], Release(c, i, scope);
    assert BucketOk(hash, b, i);
    if scope in b.entries {
      assert forall s :: s in b.entries ==> BackedLease(c, b.entries[s], s);
      BackedFrame(hash, c, d, i, d.buckets[i], scope);
    }
  }

  lemma ReleaseKeeps(hash: Bytes -> nat, c: Cache, i: nat, scope: Bytes)
    requires Tidy(hash, c) && i < BUCKET_COUNT
    ensures var d := Release(c, i, scope);
      && Tidy(hash, d) && (Backed(c) ==> Backed(d))
      && (forall s :: Bound(hash, d, s) == Bound(hash, c, s))
      && (forall k :: 0 <= k < BUCKET_COUNT && k != i ==> d.buckets[k] == c.buckets[k])
      && d.buckets[i].entries == c.buckets[i].entries - {scope}
  {
    assert BucketOk(hash, c.buckets[i], i);
    ReleaseTidy(hash, c, i, scope);
    if Backed(c) {
      ReleaseBacked(hash, c, i, scope);
    }
  }

  lemma CrashKeeps(hash: Bytes -> nat, c: Cache)
    requires Tidy(hash, c)
    ensures Inv(hash, Crashed(c))
    ensures Backed(c) ==> forall s :: Bound(hash, Crashed(c), s) >= Bound(hash, c, s)
  {
    forall s: Bytes | Backed(c)
      ensures Bound(hash, Crashed(c), s) >= Bound(hash, c, s)
    {
      var b := c.buckets[Slot(hash, s)];
      assert s in b.entries ==> BackedLease(c, b.entries[s], s);
    }
  }

  lemma SetLeaseTidy(hash: Bytes -> nat, c: Cache, d: Cache, scope: Bytes, e: Lease)
    requires Tidy(hash, c) && scope in c.buckets[Slot(hash, scope)].entries
    requires d.buckets == SetLease(c, Slot(hash, scope), scope, e).buckets
    ensures Tidy(hash, d)
  {
    var i := Slot(hash, scope);
    assert BucketOk(hash, c.buckets[i], i);
    TidyFrame(hash, c, d, i, d.buckets[i]);
  }

  /** A new lease for a scope: other scopes do not notice. */
  lemma SetLeaseKeeps(hash: Bytes -> nat, c: Cache, d: Cache, scope: Bytes, e: Lease)
    requires Inv(hash, c) && scope in c.buckets[Slot(hash, scope)].entries
    requires d.buckets == SetLease(c, Slot(hash, scope), scope, e).buckets && BackedLease(d, e, scope)
    requires forall s :: s != scope ==> Stored(d, s) == Stored(c, s)
    ensures Inv(hash, d) && Bound(hash, d, scope) == e.next
    ensures forall s :: s != scope ==> Bound(hash, d, s) == Bound(hash, c, s)
  {
    var i := Slot(hash, scope);
    var b := c.buckets[i];
    SetLeaseTidy(hash, c, d, scope, e);
    assert forall s :: s in b.entries ==> BackedLease(c, b.entries[s], s);
    BackedFrame(hash, c, d, i, d.buckets[i], scope);
  }

  lemma DrawTidy(hash: Bytes -> nat, c: Cache, scope: Bytes, renewal: Renewal)
    requires Tidy(hash, c) && scope in c.buckets[Slot(hash, scope)].entries
    ensures Tidy(hash, Draw(c, Slot(hash, scope), scope, renewal).cache)
  {
    var i := Slot(hash, scope);
    var d := Draw(c, i, scope, renewal).cache;
    if d.buckets != c.buckets {
      SetLeaseTidy(hash, c, d, scope, d.buckets[i].entries[scope]);
    }
  }

  /** Unless it loses a commit, a draw keeps all leases backed and all bounds. */
  lemma DrawKeeps(hash: Bytes -> nat, c: Cache, scope: Bytes, renewal: Renewal)
    requires Inv(hash, c) && scope in c.buckets[Slot(hash, scope)].entries
    requires !LosesCommit(hash, c, Increment(scope, Fate(true, renewal, true)))
    ensures var Drawn(d, n) := Draw(c, Slot(hash, scope), scope, renewal);
      && Inv(hash, d)
      && (forall s :: Bound(hash, d, s) >= Bound(hash, c, s))
      && (n.Some? ==> Bound(hash, c, scope) <= n.value < Bound(hash, d, scope))
  {
    var i := Slot(hash, scope);
    var d := Draw(c, i, scope, renewal).cache;
    assert BackedLease(c, c.buckets[i].entries[scope], scope);
    if d != c {
      SetLeaseKeeps(hash, c, d, scope, d.buckets[i].entries[scope]);
    }
  }

  lemma OldestIsAnother(hash: Bytes -> nat, c: Cache, scope: Bytes)
    requires Tidy(hash, c) && scope !in c.buckets[Slot(hash, scope)].entries
    requires Overfull(Acquire(c, Slot(hash, scope), scope), Slot(hash, scope))
    ensures Oldest(Acquire(c, Slot(hash, scope), scope), Slot(hash, scope)) != scope
  {
    var i := Slot(hash, scope);
    var order := c.buckets[i].order;
    assert BucketOk(hash, c.buckets[i], i);
    assert Oldest(Acquire(c, i, scope), i) == order[|order| - 1];
    assert order[|order| - 1] in order;
  }

  /** An eviction does not remove the scope that causes it. */
  lemma NewcomerStays(hash: Bytes -> nat, c: Cache, scope: Bytes)
    requires Tidy(hash, c) && scope !in c.buckets[Slot(hash, scope)].entries
    ensures
      var i := Slot(hash, scope);
      var d := Acquire(c, i, scope);
      Overfull(d, i) ==> scope in Release(d, i, Oldest(d, i)).buckets[i].entries
  {
    var i := Slot(hash, scope);
    var d := Acquire(c, i, scope);
    if Overfull(d, i) {
      OldestIsAnother(hash, c, scope);
      AcquireKeeps(hash, c, scope);
      ReleaseKeeps(hash, d, i, Oldest(d, i));
    }
  }

  /** What an increment of a scope that is not cached does, up to its draw. */
  lemma MissKeeps(hash: Bytes -> nat, c: Cache, scope: Bytes, fate: Fate)
    requires Tidy(hash, c) && scope !in c.buckets[Slot(hash, scope)].entries
    ensures var Drawn(d, n) := Incremented(hash, c, scope, fate);
      Tidy(hash, d) &&
      (Backed(c) ==>
         && Backed(d)
         && (forall s :: Bound(hash, d, s) >= Bound(hash, c, s))
         && (n.Some? ==> Bound(hash, c, scope) <= n.value < Bound(hash, d, scope)))
  {
    var i := Slot(hash, scope);
    if fate.acquire {
      var d := Acquire(c, i, scope);
      AcquireKeeps(hash, c, scope);
      if !Overfull(d, i) {
        DrawTidy(hash, d, scope, fate.renewal);
        if Backed(c) {
          DrawKeeps(hash, d, scope, fate.renewal);
        }
      } else if !fate.release {
        CrashKeeps(hash, d);
      } else {
        OldestIsAnother(hash, c, scope);
        ReleaseKeeps(hash, d, i, Oldest(d, i));
        DrawTidy(hash, Release(d, i, Oldest(d, i)), scope, fate.renewal);
        if Backed(c) {
          DrawKeeps(hash, Release(d, i, Oldest(d, i)), scope, fate.renewal);
        }
      }
    }
  }

  /**
   * Unless a commit is lost, bounds never fall, and a number handed out lies between the old and the new
   * bound of its scope.
   */
  lemma IncrementKeeps(hash: Bytes -> nat, c: Cache, scope: Bytes, fate: Fate)
    requires Tidy(hash, c)
    ensures var Drawn(d, n) := Incremented(hash, c, scope, fate);
      Tidy(hash, d) &&
      (Backed(c) && !LosesCommit(hash, c, Increment(scope, fate)) ==>
         && Backed(d)
         && (forall s :: Bound(hash, d, s) >= Bound(hash, c, s))
         && (n.Some? ==> Bound(hash, c, scope) <= n.value < Bound(hash, d, scope)))
  {
    var i := Slot(hash, scope);
    if scope in c.buckets[i].entries {
      TouchKeeps(hash, c, scope);
      DrawTidy(hash, Touch(c, i, scope), scope, fate.renewal);
      if Backed(c) && !LosesCommit(hash, c, Increment(scope, fate)) {
        DrawKeeps(hash, Touch(c, i, scope), scope, fate.renewal);
      }
    } else {
      MissKeeps(hash, c, scope, fate);
    }
  }

  // ---------------------------------------------------------------- which number comes out

  /** The lease of this scope is cached and not used up. */
  predicate AtHand(hash: Bytes -> nat, c: Cache, scope: Bytes)
    requires Shaped(c)
  {
    var entries := c.buckets[Slot(hash, scope)].entries;
    scope in entries && entries[scope].next < entries[scope].leased
  }

  /**
   * The database keeps IncrementKey from answering: a lease that is used up is not renewed, or a new one is
   * not granted, or the lease that has to make room for it is not released.
   */
  predicate Refuses(hash: Bytes -> nat, c: Cache, scope: Bytes, fate: Fate)
    requires Shaped(c)
  {
    var b := c.buckets[Slot(hash, scope)];
    if scope in b.entries then
      b.entries[scope].next >= b.entries[scope].leased && fate.renewal in {Unread, Unwritten, Lost}
    else !fate.acquire || (|b.order| >= BUCKET_SIZE && !fate.release)
  }

  /**
   * IncrementKey answers if and only if the database does not refuse, whether or not something has to be
   * evicted, and the number is the next one of the lease at hand, or else the one the database has.
   */
  lemma {:induction false} IncrementAnswersIff(hash: Bytes -> nat, c: Cache, scope: Bytes, fate: Fate)
    requires Tidy(hash, c)
    ensures Incremented(hash, c, scope, fate).number ==
      if Refuses(hash, c, scope, fate) then None
      else Some(if AtHand(hash, c, scope) then Bound(hash, c, scope) else Stored(c, scope))
  {
    var i := Slot(hash, scope);
    if scope in c.buckets[i].entries {
      TouchKeeps(hash, c, scope);
    } else if fate.acquire {
      var d := Acquire(c, i, scope);
      AcquireKeeps(hash, c, scope);
      if Overfull(d, i) && fate.release {
        NewcomerStays(hash, c, scope);
        OldestIsAnother(hash, c, scope);
        ReleaseKeeps(hash, d, i, Oldest(d, i));
      }
    }
  }

  /** What comes next for each scope after this number was handed out for one. */
  ghost predicate OneFurther(hash: Bytes -> nat, c: Cache, d: Cache, scope: Bytes, n: nat)
    requires Shaped(c) && Shaped(d)
  {
    Bound(hash, d, scope) == n + 1 && forall s :: s != scope ==> Bound(hash, d, s) == Bound(hash, c, s)
  }

  lemma DrawOneFurther(hash: Bytes -> nat, c: Cache, scope: Bytes, renewal: Renewal)
    requires Tidy(hash, c) && scope in c.buckets[Slot(hash, scope)].entries
    ensures
      var Drawn(d, n) := Draw(c, Slot(hash, scope), scope, renewal);
      n.Some? ==> OneFurther(hash, c, d, scope, n.value)
  {
  }

  /** The number after the one that was handed out comes next, and nothing changes for other scopes. */
  lemma {:induction false} NumbersAreConsecutive(hash: Bytes -> nat, c: Cache, scope: Bytes, fate: Fate)
    requires Tidy(hash, c)
    ensures
      var Drawn(d, n) := Incremented(hash, c, scope, fate);
      n.Some? ==> OneFurther(hash, c, d, scope, n.value)
  {
    var i := Slot(hash, scope);
    if scope in c.buckets[i].entries {
      TouchKeeps(hash, c, scope);
      DrawOneFurther(hash, Touch(c, i, scope), scope, fate.renewal);
    } else if fate.acquire {
      var d := Acquire(c, i, scope);
      AcquireKeeps(hash, c, scope);
      if !Overfull(d, i) {
        DrawOneFurther(hash, d, scope, fate.renewal);
      } else if fate.release {
        NewcomerStays(hash, c, scope);
        ReleaseKeeps(hash, d, i, Oldest(d, i));
        DrawOneFurther(hash, Release(d, i, Oldest(d, i)), scope, fate.renewal);
      }
    }
  }

  // ---------------------------------------------------------------- who stays in the cache

  /** The scopes of a bucket from the most to the least recently used one, after this one has been used. */
  function Used(order: seq<Bytes>, scope: Bytes): seq<Bytes> {
    var used := [scope] + Without(order, scope);
    if |used| > BUCKET_SIZE then used[..BUCKET_SIZE] else used
  }

  lemma {:induction false} WithoutAbsent(order: seq<Bytes>, scope: Bytes)
    requires scope !in order
    ensures Without(order, scope) == order
  {
    if order != [] {
      WithoutAbsent(order[1..], scope);
    }
  }

  lemma {:induction false} WithoutLast(order: seq<Bytes>)
    requires order != [] && Distinct(order)
    ensures Without(order, order[|order| - 1]) == order[..|order| - 1]
  {
    var last := order[|order| - 1];
    if |order| > 1 {
      assert order[1..][|order| - 2] == last;
      WithoutLast(order[1..]);
      assert order[0] != last;
      assert order[..|order| - 1] == [order[0]] + order[1..][..|order| - 2];
    } else {
      assert order[1..] == [];
    }
  }

  /** No bucket holds more scopes than it may. */
  ghost predicate Roomy(c: Cache) {
    forall i :: 0 <= i < |c.buckets| ==> |c.buckets[i].order| <= BUCKET_SIZE
  }

  lemma {:induction false} WithoutShorter(order: seq<Bytes>, scope: Bytes)
    ensures |Without(order, scope)| <= |order| && (scope in order ==> |Without(order, scope)| < |order|)
  {
    if order != [] {
      WithoutShorter(order[1..], scope);
    }
  }

  /** d has this order in bucket i, and is c elsewhere. */
  ghost predicate Reordered(c: Cache, d: Cache, i: nat, order: seq<Bytes>)
    requires Shaped(c) && Shaped(d) && i < BUCKET_COUNT
  {
    d.buckets[i].order == order && forall k :: 0 <= k < BUCKET_COUNT && k != i ==> d.buckets[k] == c.buckets[k]
  }

  lemma DrawReorders(c: Cache, d: Cache, i: nat, scope: Bytes, renewal: Renewal)
    requires Shaped(c) && Shaped(d) && i < BUCKET_COUNT && scope in d.buckets[i].entries
    requires Reordered(c, d, i, d.buckets[i].order)
    ensures Reordered(c, Draw(d, i, scope, renewal).cache, i, d.buckets[i].order)
  {
  }

  /** The oldest scope leaves the end of the order. */
  lemma {:induction false} ReleaseOldest(hash: Bytes -> nat, d: Cache, i: nat)
    requires Tidy(hash, d) && i < BUCKET_COUNT && Overfull(d, i)
    ensures
      var order := d.buckets[i].order;
      Reordered(d, Release(d, i, Oldest(d, i)), i, order[..|order| - 1])
  {
    assert BucketOk(hash, d.buckets[i], i);
    var order := d.buckets[i].order;
    WithoutLast(order);
    assert Oldest(d, i) == order[|order| - 1] && Oldest(d, i) in order;
  }

  lemma {:induction false} UsedNew(order: seq<Bytes>, scope: Bytes, all: seq<Bytes>)
    requires scope !in order && |order| <= BUCKET_SIZE && all == [scope] + order
    ensures Used(order, scope) == if |all| > BUCKET_SIZE then all[..|all| - 1] else all
  {
    WithoutAbsent(order, scope);
  }

  /** A scope is put first, and if there are too many the last one goes. */
  lemma {:induction false} FirstInLastOut(c: Cache, d: Cache, e: Cache, i: nat, scope: Bytes)
    requires Shaped(c) && Shaped(d) && Shaped(e) && i < BUCKET_COUNT && scope !in c.buckets[i].order
    requires |c.buckets[i].order| <= BUCKET_SIZE && Reordered(c, d, i, [scope] + c.buckets[i].order)
    requires
      var all := d.buckets[i].order;
      if |all| > BUCKET_SIZE then Reordered(d, e, i, all[..|all| - 1]) else e == d
    ensures Reordered(c, e, i, Used(c.buckets[i].order, scope))
  {
    UsedNew(c.buckets[i].order, scope, d.buckets[i].order);
  }

  /** The cache after room has been made for a scope that was not cached. */
  function Admitted(c: Cache, i: nat, scope: Bytes): (e: Cache)
    requires Shaped(c) && i < BUCKET_COUNT
    ensures Shaped(e)
  {
    var d := Acquire(c, i, scope);
    if Overfull(d, i) then Release(d, i, Oldest(d, i)) else d
  }

  lemma {:induction false} AcquireReorders(hash: Bytes -> nat, c: Cache, scope: Bytes)
    requires Tidy(hash, c) && scope !in c.buckets[Slot(hash, scope)].entries
    ensures
      var i, d := Slot(hash, scope), Acquire(c, Slot(hash, scope), scope);
      && scope !in c.buckets[i].order && Reordered(c, d, i, [scope] + c.buckets[i].order) && Tidy(hash, d)
  {
    assert BucketOk(hash, c.buckets[Slot(hash, scope)], Slot(hash, scope));
    AcquireKeeps(hash, c, scope);
  }

  /** It takes the place of the least recently used one if the bucket is full. */
  lemma {:induction false} AdmittedReorders(hash: Bytes -> nat, c: Cache, scope: Bytes)
    requires Tidy(hash, c) && Roomy(c) && scope !in c.buckets[Slot(hash, scope)].entries
    ensures
      var i := Slot(hash, scope);
      Reordered(c, Admitted(c, i, scope), i, Used(c.buckets[i].order, scope))
  {
    var i, d := Slot(hash, scope), Acquire(c, Slot(hash, scope), scope);
    AcquireReorders(hash, c, scope);
    if Overfull(d, i) {
      ReleaseOldest(hash, d, i);
    }
    FirstInLastOut(c, d, Admitted(c, i, scope), i, scope);
  }

  lemma {:induction false} MissDraws(hash: Bytes -> nat, c: Cache, scope: Bytes, fate: Fate)
    requires Tidy(hash, c) && scope !in c.buckets[Slot(hash, scope)].entries && !Refuses(hash, c, scope, fate)
    ensures
      var i := Slot(hash, scope);
      var e := Admitted(c, i, scope);
      scope in e.buckets[i].entries && Incremented(hash, c, scope, fate) == Draw(e, i, scope, fate.renewal)
  {
    AcquireKeeps(hash, c, scope);
    NewcomerStays(hash, c, scope);
  }

  /**
   * An answer makes its scope the most recently used one of its bucket; if the bucket was full, the least
   * recently used scope leaves it, and nobody else does.
   */
  lemma {:induction false} AnswerUses(hash: Bytes -> nat, c: Cache, scope: Bytes, fate: Fate)
    requires Tidy(hash, c) && Roomy(c) && !Refuses(hash, c, scope, fate)
    ensures
      var i, d := Slot(hash, scope), Incremented(hash, c, scope, fate).cache;
      Reordered(c, d, i, Used(c.buckets[i].order, scope))
  {
    var i := Slot(hash, scope);
    if scope in c.buckets[i].entries {
      assert BucketOk(hash, c.buckets[i], i);
      WithoutShorter(c.buckets[i].order, scope);
      TouchKeeps(hash, c, scope);
      DrawReorders(c, Touch(c, i, scope), i, scope, fate.renewal);
    } else {
      AdmittedReorders(hash, c, scope);
      MissDraws(hash, c, scope, fate);
      DrawReorders(c, Admitted(c, i, scope), i, scope, fate.renewal);
    }
  }

  /** Whatever fails, no bucket ever holds more. */
  lemma {:induction false} NextRoomy(hash: Bytes -> nat, s: State, a: Action)
    requires Tidy(hash, s.cache) && Roomy(s.cache)
    ensures Roomy(Next(hash, s, a).cache)
  {
    if a.Increment? {
      var c, scope := s.cache, a.scope;
      if !Refuses(hash, c, scope, a.fate) {
        AnswerUses(hash, c, scope, a.fate);
      } else if scope in c.buckets[Slot(hash, scope)].entries {
        assert BucketOk(hash, c.buckets[Slot(hash, scope)], Slot(hash, scope));
        WithoutShorter(c.buckets[Slot(hash, scope)].order, scope);
      }
    } else if a.Drop? {
      WithoutShorter(s.cache.buckets[Slot(hash, a.scope)].order, a.scope);
    }
  }

  // ---------------------------------------------------------------- no number twice

  ghost predicate NoneTwice(issued: seq<Issue>) {
    forall i, j :: 0 <= i < j < |issued| ==> issued[i] != issued[j]
  }

  ghost predicate Below(hash: Bytes -> nat, c: Cache, issued: seq<Issue>)
    requires Shaped(c)
  {
    forall i :: 0 <= i < |issued| ==> issued[i].number < Bound(hash, c, issued[i].scope)
  }

  /** No number was handed out twice, nor will be as long as no commit is lost. */
  ghost predicate Sound(hash: Bytes -> nat, s: State) {
    Inv(hash, s.cache) && NoneTwice(s.issued) && Below(hash, s.cache, s.issued)
  }

  lemma NextTidy(hash: Bytes -> nat, s: State, a: Action)
    requires Tidy(hash, s.cache)
    ensures Tidy(hash, Next(hash, s, a).cache)
  {
    match a
    case Increment(scope, fate) => IncrementKeeps(hash, s.cache, scope, fate);
    case Drop(scope, release) =>
      ReleaseKeeps(hash, s.cache, Slot(hash, scope), scope);
      CrashKeeps(hash, s.cache);
    case Crash => CrashKeeps(hash, s.cache);
  }

  lemma NextSound(hash: Bytes -> nat, s: State, a: Action)
    requires Sound(hash, s) && !LosesCommit(hash, s.cache, a)
    ensures Sound(hash, Next(hash, s, a))
  {
    match a
    case Increment(scope, fate) => IncrementKeeps(hash, s.cache, scope, fate);
    case Drop(scope, release) =>
      ReleaseKeeps(hash, s.cache, Slot(hash, scope), scope);
      CrashKeeps(hash, s.cache);
    case Crash => CrashKeeps(hash, s.cache);
  }

  /**
   * In every state of every run, whatever has failed, no bucket holds more scopes than it may, and a
   * database that answers gets every scope a number.
   */
  lemma {:induction false} AlwaysAnswers(hash: Bytes -> nat, s: State, run: seq<Action>, scope: Bytes)
    requires Tidy(hash, s.cache) && Roomy(s.cache)
    ensures Tidy(hash, After(hash, s, run).cache) && Roomy(After(hash, s, run).cache)
    ensures Incremented(hash, After(hash, s, run).cache, scope, GOOD).number.Some?
    decreases |run|
  {
    if run == [] {
      IncrementAnswersIff(hash, s.cache, scope, GOOD);
    } else {
      NextTidy(hash, s, run[0]);
      NextRoomy(hash, s, run[0]);
      AlwaysAnswers(hash, Next(hash, s, run[0]), run[1..], scope);
    }
  }

  lemma {:induction false} CleanRunsAreSound(hash: Bytes -> nat, s: State, run: seq<Action>)
    requires Sound(hash, s) && Clean(hash, s, run)
    ensures Sound(hash, After(hash, s, run))
    decreases |run|
  {
    if run != [] {
      NextSound(hash, s, run[0]);
      CleanRunsAreSound(hash, Next(hash, s, run[0]), run[1..]);
    }
  }

  /**
   * Over every run of increments with evictions, purges and crashes, for any hash that spreads scopes
   * over buckets and any failures of the database but lost commits of renewals: no scope receives a
   * number twice.
   */
  lemma {:induction false} NoNumberTwice(hash: Bytes -> nat, run: seq<Action>)
    requires Clean(hash, Start(), run)
    ensures NoneTwice(After(hash, Start(), run).issued) && Sound(hash, After(hash, Start(), run))
  {
    CleanRunsAreSound(hash, Start(), run);
  }

  // ---------------------------------------------------------------- a lost commit doubles a number

  lemma {:induction false} FaultFreeIsClean(hash: Bytes -> nat, s: State, run: seq<Action>)
    requires Shaped(s.cache) && FaultFree(run)
    ensures Clean(hash, s, run)
    decreases |run|
  {
    if run != [] {
      FaultFreeIsClean(hash, Next(hash, s, run[0]), run[1..]);
    }
  }

  /** The lease of the scope reaches beyond what the database knows; k of its numbers have been handed out. */
  ghost predicate Phantom(hash: Bytes -> nat, s: State, scope: Bytes, k: nat) {
    Tidy(hash, s.cache) &&
    var entries, number := s.cache.buckets[Slot(hash, scope)].entries, Stored(s.cache, scope);
    && k <= BANDWIDTH && scope in entries && entries[scope] == Lease(number + k, number + BANDWIDTH)
    && (k >= 1 ==> Issue(scope, number) in s.issued)
  }

  lemma LostCommitLeavesPhantom(hash: Bytes -> nat, s: State, a: Action)
    requires Tidy(hash, s.cache) && LosesCommit(hash, s.cache, a)
    ensures Phantom(hash, Next(hash, s, a), a.scope, if a.fate.renewal.Conflicted? then 1 else 0)
  {
    TouchKeeps(hash, s.cache, a.scope);
    NextTidy(hash, s, a);
  }

  /** A phantom lease that is not used up hands out its next number, and the database does not notice. */
  lemma PhantomDraws(hash: Bytes -> nat, s: State, scope: Bytes, k: nat)
    requires Phantom(hash, s, scope, k) && k < BANDWIDTH
    ensures Phantom(hash, Next(hash, s, Increment(scope, GOOD)), scope, k + 1)
  {
    TouchKeeps(hash, s.cache, scope);
    NextTidy(hash, s, Increment(scope, GOOD));
  }

  lemma TwiceIssued(issued: seq<Issue>, x: Issue)
    requires x in issued
    ensures !NoneTwice(issued + [x])
  {
    var i :| 0 <= i < |issued| && issued[i] == x;
    assert (issued + [x])[i] == (issued + [x])[|issued|];
  }

  /** A phantom lease that is used up is renewed from what the database still has. */
  lemma PhantomRenews(hash: Bytes -> nat, s: State, scope: Bytes)
    requires Phantom(hash, s, scope, BANDWIDTH)
    ensures !NoneTwice(Next(hash, s, Increment(scope, GOOD)).issued)
  {
    TouchKeeps(hash, s.cache, scope);
    TwiceIssued(s.issued, Issue(scope, Stored(s.cache, scope)));
  }

  /** After a crash, the number that the database still has comes out again. */
  lemma PhantomCrashes(hash: Bytes -> nat, s: State, scope: Bytes, k: nat)
    requires Phantom(hash, s, scope, k) && k >= 1
    ensures !NoneTwice(Next(hash, Next(hash, s, Crash), Increment(scope, GOOD)).issued)
  {
    CrashKeeps(hash, s.cache);
    AcquireKeeps(hash, Crashed(s.cache), scope);
    TwiceIssued(s.issued, Issue(scope, Stored(s.cache, scope)));
  }

  lemma {:induction false} OneStep(hash: Bytes -> nat, s: State, a: Action, rest: seq<Action>)
    requires Shaped(s.cache)
    ensures After(hash, s, [a] + rest) == After(hash, Next(hash, s, a), rest)
  {
    assert ([a] + rest)[1..] == rest;
  }

  lemma PhantomDoubles(hash: Bytes -> nat, s: State, scope: Bytes, k: nat) returns (more: seq<Action>)
    requires Phantom(hash, s, scope, k) && k >= 1
    ensures FaultFree(more) && !NoneTwice(After(hash, s, more).issued)
  {
    var x := Increment(scope, GOOD);
    PhantomCrashes(hash, s, scope, k);
    more := [Crash] + ([x] + []);
    OneStep(hash, s, Crash, [x] + []);
    OneStep(hash, Next(hash, s, Crash), x, []);
  }

  /** A lost commit in any state: although the database never fails again, a number comes out twice. */
  lemma LostCommitDoubles(hash: Bytes -> nat, s: State, a: Action) returns (more: seq<Action>)
    requires Tidy(hash, s.cache) && LosesCommit(hash, s.cache, a)
    ensures FaultFree(more) && !NoneTwice(After(hash, Next(hash, s, a), more).issued)
  {
    var t, x := Next(hash, s, a), Increment(a.scope, GOOD);
    LostCommitLeavesPhantom(hash, s, a);
    if a.fate.renewal.Conflicted? {
      more := PhantomDoubles(hash, t, a.scope, 1);
    } else {
      PhantomDraws(hash, t, a.scope, 0);
      var rest := PhantomDoubles(hash, Next(hash, t, x), a.scope, 1);
      OneStep(hash, t, x, rest);
      more := [x] + rest;
    }
  }

  /**
   * The exact condition, one step at a time: after a run without lost commits, a step leaves all later
   * numbers new, as long as the database answers from then on, if and only if it loses no commit either.
   */
  lemma {:induction false} NewNumbersIff(hash: Bytes -> nat, run: seq<Action>, a: Action)
    requires Clean(hash, Start(), run)
    ensures
      var s := After(hash, Start(), run);
      !LosesCommit(hash, s.cache, a) <==>
      forall more :: FaultFree(more) ==> NoneTwice(After(hash, Next(hash, s, a), more).issued)
  {
    var s := After(hash, Start(), run);
    NoNumberTwice(hash, run);
    if LosesCommit(hash, s.cache, a) {
      var more := LostCommitDoubles(hash, s, a);
    } else {
      NextSound(hash, s, a);
      forall more | FaultFree(more)
        ensures NoneTwice(After(hash, Next(hash, s, a), more).issued)
      {
        FaultFreeIsClean(hash, Next(hash, s, a), more);
        CleanRunsAreSound(hash, Next(hash, s, a), more);
      }
    }
  }

  function Repeat(a: Action, n: nat): seq<Action> { if n == 0 then [] else [a] + Repeat(a, n - 1) }

  lemma RepeatStep(hash: Bytes -> nat, s: State, a: Action, n: nat)
    requires Shaped(s.cache) && n >= 1
    ensures After(hash, s, Repeat(a, n)) == After(hash, Next(hash, s, a), Repeat(a, n - 1))
    ensures n == 1 ==> After(hash, s, Repeat(a, n)) == Next(hash, s, a)
  {
    OneStep(hash, s, a, Repeat(a, n - 1));
  }

  /** The last of many steps. */
  lemma {:induction false} RepeatLast(hash: Bytes -> nat, s: State, a: Action, n: nat)
    requires Shaped(s.cache)
    ensures After(hash, s, Repeat(a, n + 1)) == Next(hash, After(hash, s, Repeat(a, n)), a)
    decreases n
  {
    RepeatStep(hash, s, a, n + 1);
    if n > 0 {
      RepeatStep(hash, s, a, n);
      RepeatLast(hash, Next(hash, s, a), a, n - 1);
    }
  }

  ghost function Iterate(step: State -> State, s: State, n: nat): State
    decreases n
  {
    if n == 0 then s else Iterate(step, step(s), n - 1)
  }

  /** A step carries what holds on to the next count. */
  ghost predicate Carries(step: State -> State, holds: (State, nat) -> bool, t: State, j: nat) {
    holds(t, j) ==> holds(step(t), j + 1)
  }

  /** What each step carries on, many steps do. */
  lemma {:induction false} IterateKeeps(
    step: State -> State, holds: (State, nat) -> bool, s: State, k: nat, n: nat)
    requires holds(s, k) && forall t: State, j: nat :: j < k + n ==> Carries(step, holds, t, j)
    ensures holds(Iterate(step, s, n), k + n)
    decreases n
  {
    if n > 0 {
      assert Carries(step, holds, s, k);
      IterateKeeps(step, holds, step(s), k + 1, n - 1);
    }
  }

  ghost function Stepper(hash: Bytes -> nat, a: Action): State -> State {
    (s: State) => if Shaped(s.cache) then Next(hash, s, a) else s
  }

  lemma {:induction false} RepeatIterates(hash: Bytes -> nat, s: State, a: Action, n: nat)
    requires Shaped(s.cache)
    ensures After(hash, s, Repeat(a, n)) == Iterate(Stepper(hash, a), s, n)
    decreases n
  {
    if n > 0 {
      RepeatStep(hash, s, a, n);
      RepeatIterates(hash, Next(hash, s, a), a, n - 1);
    }
  }

  /** Without a crash a number comes out twice as well: once the phantom lease is used up. */
  lemma PhantomDoublesAlive(hash: Bytes -> nat, s: State, scope: Bytes, k: nat, n: nat)
    requires Phantom(hash, s, scope, k) && k + n == BANDWIDTH
    ensures !NoneTwice(After(hash, s, Repeat(Increment(scope, GOOD), n + 1)).issued)
  {
    var x := Increment(scope, GOOD);
    var holds := (t: State, j: nat) => Phantom(hash, t, scope, j);
    forall t: State, j: nat | j < k + n
      ensures Carries(Stepper(hash, x), holds, t, j)
    {
      if holds(t, j) {
        PhantomDraws(hash, t, scope, j);
      }
    }
    IterateKeeps(Stepper(hash, x), holds, s, k, n);
    RepeatIterates(hash, s, x, n);
    PhantomRenews(hash, After(hash, s, Repeat(x, n)), scope);
    RepeatLast(hash, s, x, n);
  }

  /** The first lease of a scope, of which n numbers have been handed out. */
  ghost predicate FirstLease(hash: Bytes -> nat, s: State, scope: Bytes, n: nat) {
    Tidy(hash, s.cache) && Stored(s.cache, scope) == BANDWIDTH &&
    var entries := s.cache.buckets[Slot(hash, scope)].entries;
    scope in entries && entries[scope] == Lease(n, BANDWIDTH)
  }

  lemma FirstLeaseDraws(hash: Bytes -> nat, s: State, scope: Bytes, n: nat)
    requires FirstLease(hash, s, scope, n) && n < BANDWIDTH
    ensures FirstLease(hash, Next(hash, s, Increment(scope, GOOD)), scope, n + 1)
  {
    TouchKeeps(hash, s.cache, scope);
    NextTidy(hash, s, Increment(scope, GOOD));
  }

  lemma {:induction false} FirstLeaseUsedUp(hash: Bytes -> nat, s: State, scope: Bytes, n: nat, m: nat)
    requires FirstLease(hash, s, scope, n) && n + m == BANDWIDTH
    ensures FirstLease(hash, After(hash, s, Repeat(Increment(scope, GOOD), m)), scope, BANDWIDTH)
  {
    var x := Increment(scope, GOOD);
    var holds := (t: State, j: nat) => FirstLease(hash, t, scope, j);
    forall t: State, j: nat | j < n + m
      ensures Carries(Stepper(hash, x), holds, t, j)
    {
      if holds(t, j) {
        FirstLeaseDraws(hash, t, scope, j);
      }
    }
    IterateKeeps(Stepper(hash, x), holds, s, n, m);
    RepeatIterates(hash, s, x, m);
  }

  lemma {:induction false} RepeatedIsFaultFree(scope: Bytes, n: nat)
    ensures FaultFree(Repeat(Increment(scope, GOOD), n))
  {
    if n > 0 {
      RepeatedIsFaultFree(scope, n - 1);
    }
  }

  /** The failing run: the first lease of a scope is used up, its renewal loses the commit, and that is all. */
  lemma OneLostCommitDoubles(hash: Bytes -> nat, scope: Bytes) returns (more: seq<Action>)
    ensures var run, lost := Repeat(Increment(scope, GOOD), BANDWIDTH), Increment(scope, Fate(true, Lost, true));
      && FaultFree(run) && FaultFree(more)
      && !NoneTwice(After(hash, Next(hash, After(hash, Start(), run), lost), more).issued)
  {
    var x := Increment(scope, GOOD);
    RepeatStep(hash, Start(), x, BANDWIDTH);
    AcquireKeeps(hash, Fresh(), scope);
    NextTidy(hash, Start(), x);
    FirstLeaseUsedUp(hash, Next(hash, Start(), x), scope, 1, BANDWIDTH - 1);
    RepeatedIsFaultFree(scope, BANDWIDTH);
    var s, lost := After(hash, Start(), Repeat(x, BANDWIDTH)), Increment(scope, Fate(true, Lost, true));
    more := LostCommitDoubles(hash, s, lost);
  }

  ghost predicate SameBounds(hash: Bytes -> nat, c: Cache, d: Cache)
    requires Shaped(c) && Shaped(d)
  {
    forall s :: Bound(hash, d, s) == Bound(hash, c, s)
  }

  /** What holds while bucket i is being emptied. */
  ghost predicate Purging(hash: Bytes -> nat, c: Cache, d: Cache, i: nat) {
    && Tidy(hash, c) && Tidy(hash, d) && i < BUCKET_COUNT && (Backed(c) ==> Backed(d)) && SameBounds(hash, c, d)
    && (forall k :: 0 <= k < BUCKET_COUNT && k != i ==> d.buckets[k] == c.buckets[k])
    && d.buckets[i].entries.Keys <= c.buckets[i].entries.Keys && (Roomy(c) ==> Roomy(d))
  }

  /** Emptying a bucket, and a crash in the middle of it, keep what no lost commit has broken. */
  lemma PurgingSound(hash: Bytes -> nat, c: Cache, d: Cache, i: nat, issued: seq<Issue>)
    requires Purging(hash, c, d, i)
    ensures Tidy(hash, Crashed(d)) && Roomy(Crashed(d))
    ensures Sound(hash, State(c, issued)) ==>
      Sound(hash, State(d, issued)) && Sound(hash, State(Crashed(d), issued))
  {
    CrashKeeps(hash, d);
  }

  lemma PurgingStep(hash: Bytes -> nat, c: Cache, d: Cache, i: nat, scope: Bytes)
    requires Purging(hash, c, d, i) && scope in d.buckets[i].entries
    ensures Purging(hash, c, Release(d, i, scope), i)
    ensures Release(d, i, scope).buckets[i].entries.Keys == d.buckets[i].entries.Keys - {scope}
  {
    ReleaseKeeps(hash, d, i, scope);
    WithoutShorter(d.buckets[i].order, scope);
  }

  // ---------------------------------------------------------------- the cache as an object

  class SequenceCache {
    const hash: Bytes -> nat
    var cache: Cache
    ghost var issued: seq<Issue>

    /** What holds whatever the database does. */
    ghost predicate Valid()
      reads this
    {
      Tidy(hash, cache) && Roomy(cache)
    }

    /** What holds as long as no commit is lost. */
    ghost predicate NothingLost()
      reads this
    {
      Sound(hash, State(cache, issued))
    }

    constructor (hash: Bytes -> nat)
      ensures Valid() && NothingLost() && State(cache, issued) == Start()
    {
      this.hash := hash;
      cache, issued := Fresh(), [];
    }

    /** A number that was never handed out for the scope before, as long as no commit is lost. */
    method IncrementKey(scope: Bytes, fate: Fate) returns (n: Option<nat>)
      requires Valid()
      modifies this`cache, this`issued
      ensures Valid() && Drawn(cache, n) == Incremented(hash, old(cache), scope, fate)
      ensures n ==
        if Refuses(hash, old(cache), scope, fate) then None
        else Some(if AtHand(hash, old(cache), scope) then Bound(hash, old(cache), scope) else Stored(old(cache), scope))
      ensures issued == old(issued) + if n.Some? then [Issue(scope, n.value)] else []
      ensures old(NothingLost()) && !LosesCommit(hash, old(cache), Increment(scope, fate)) ==>
        NothingLost() && (n.Some? ==> Issue(scope, n.value) !in old(issued))
    {
      IncrementKeeps(hash, cache, scope, fate);
      IncrementAnswersIff(hash, cache, scope, fate);
      NextRoomy(hash, State(cache, issued), Increment(scope, fate));
      if Sound(hash, State(cache, issued)) && !LosesCommit(hash, cache, Increment(scope, fate)) {
        NextSound(hash, State(cache, issued), Increment(scope, fate));
      }
      var i := Slot(hash, scope);
      if scope in cache.buckets[i].entries {
        cache := Touch(cache, i, scope);
      } else {
        if !fate.acquire {
          return None;
        }
        NewcomerStays(hash, cache, scope);
        cache := Acquire(cache, i, scope);
        if Overfull(cache, i) {
          if !fate.release {
            cache := Crashed(cache);
            return None;
          }
          cache := Release(cache, i, Oldest(cache, i));
        }
      }
      var r := Draw(cache, i, scope, fate.renewal);
      cache, n := r.cache, r.number;
      issued := issued + if n.Some? then [Issue(scope, n.value)] else [];
    }

    /**
     * Release and forget all leases of one bucket. A release that fails panics in the eviction callback,
     * and the process ends; ok tells that none did.
     */
    method PurgeBucket(i: nat, releases: Bytes -> bool) returns (ok: bool)
      requires Valid() && i < BUCKET_COUNT
      modifies this`cache
      ensures Valid() && (old(NothingLost()) ==> NothingLost())
      ensures ok ==> Purging(hash, old(cache), cache, i) && cache.buckets[i].entries == map[]
      ensures (forall s :: s in old(cache.buckets[i].entries) ==> releases(s)) ==> ok
      ensures !ok ==> cache.buckets == NoEntries()
    {
      var c;
      c, ok := EmptyBucket(hash, cache, i, releases);
      PurgingSound(hash, cache, c, i, issued);
      cache := if ok then c else Crashed(c);
    }

    /** Release and forget all leases; what comes next for each scope stays the same unless a release fails. */
    method Purge(releases: Bytes -> bool) returns (ok: bool)
      requires Valid()
      modifies this`cache
      ensures Valid() && (old(NothingLost()) ==> NothingLost())
      ensures ok ==> SameBounds(hash, old(cache), cache)
      ensures forall k :: 0 <= k < BUCKET_COUNT ==> cache.buckets[k].entries == map[]
    {
      for i := 0 to BUCKET_COUNT
        invariant Valid() && (old(NothingLost()) ==> NothingLost()) && SameBounds(hash, old(cache), cache)
        invariant forall k :: 0 <= k < i ==> cache.buckets[k].entries == map[]
      {
        ok := PurgeBucket(i, releases);
        if !ok {
          return false;
        }
      }
      ok := true;
    }
  }

  /** The loop over the leases of a bucket, up to the first release that fails. */
  method EmptyBucket(hash: Bytes -> nat, c: Cache, i: nat, releases: Bytes -> bool) returns (d: Cache, ok: bool)
    requires Tidy(hash, c) && i < BUCKET_COUNT
    ensures Purging(hash, c, d, i) && (ok ==> d.buckets[i].entries == map[])
    ensures (forall s :: s in c.buckets[i].entries ==> releases(s)) ==> ok
  {
    d := c;
    while d.buckets[i].entries != map[]
      invariant Purging(hash, c, d, i)
      decreases |d.buckets[i].entries.Keys|
    {
      var scope :| scope in d.buckets[i].entries;
      assert scope in c.buckets[i].entries.Keys;
      if !releases(scope) {
        return d, false;
      }
      PurgingStep(hash, c, d, i, scope);
      d := Release(d, i, scope);
    }
    ok := true;
  }
}
