/**
 * Workers that compete for requests and for one-shot resources.
 *
 * Writing the parts or copies of a chunk, and checking its objects, all run the same race: a
 * bounded channel hands out requests (parts to store, or bare tokens), another one hands out
 * resources (shards of a random iterator, or objects to look at), each exactly once. A worker
 * takes a request and keeps taking resources until one serves it. When the resources run out a
 * write gives up with an error, which cancels everyone (strict); a check just leaves.
 */
module Race {
  import opened Lists

  /** good[r]: whether resource r serves a request. Its order is the order of the iterator. */
  datatype Plan = Plan(requests: nat, good: seq<bool>, workers: nat, capacity: nat, strict: bool) {
    predicate Valid() {
      workers >= 1 && capacity >= 1
    }
  }

  /** Request req is being, or has been, served by resource res. */
  datatype Bid = Bid(req: nat, res: nat)

  /** dropped, spent and lost are history: requests given up, resources used up or given up. */
  datatype State = State(
    reqNext: nat, reqOpen: bool, reqQueue: seq<nat>,
    resNext: nat, resOpen: bool, resQueue: seq<nat>,
    idle: nat, seeking: seq<nat>, trying: seq<Bid>, sending: seq<Bid>, exited: nat, failed: nat,
    outQueue: seq<Bid>, outClosed: bool, received: seq<Bid>, done: bool, cancelled: bool,
    dropped: seq<nat>, spent: seq<nat>, lost: nat)

  datatype Action =
    | OfferReq | CloseReq | OfferRes | CloseRes
    | TakeReq | NoReq | Leave
    | TakeRes(j: nat) | Exhausted(j: nat) | Forsake(j: nat)
    | Try(j: nat) | Deliver(j: nat) | Withdraw(j: nat)
    | CloseOut | Receive | Done

  function Init(p: Plan): State {
    State(0, true, [], 0, true, [], p.workers, [], [], [], 0, 0, [], false, [], false, false, [], [], 0)
  }

  predicate Enabled(p: Plan, s: State, a: Action) {
    match a
    case OfferReq => s.reqOpen && s.reqNext < p.requests && |s.reqQueue| < p.capacity
    case CloseReq => s.reqOpen && (s.reqNext >= p.requests || s.cancelled || s.outClosed)
    case OfferRes => s.resOpen && s.resNext < |p.good| && |s.resQueue| < p.capacity
    case CloseRes => s.resOpen && (s.resNext >= |p.good| || s.cancelled || s.outClosed)
    case TakeReq => s.idle > 0 && s.reqQueue != []
    case NoReq => s.idle > 0 && s.reqQueue == [] && !s.reqOpen
    case Leave => s.idle > 0 && s.cancelled
    case TakeRes(j) => j < |s.seeking| && s.resQueue != []
    case Exhausted(j) => j < |s.seeking| && s.resQueue == [] && !s.resOpen
    case Forsake(j) => j < |s.seeking| && s.cancelled
    case Try(j) => j < |s.trying| && s.trying[j].res < |p.good|
    case Deliver(j) => j < |s.sending| && |s.outQueue| < p.capacity
    case Withdraw(j) => j < |s.sending| && s.cancelled
    case CloseOut => !s.outClosed && s.exited + s.failed == p.workers
    case Receive => !s.done && s.outQueue != []
    case Done => !s.done && s.outQueue == [] && s.outClosed
  }

  /** A worker returns: with an error that cancels the group if the race is strict. */
  function Return(p: Plan, s: State): State {
    if p.strict then s.(failed := s.failed + 1, cancelled := true) else s.(exited := s.exited + 1)
  }

  function Apply(p: Plan, s: State, a: Action): State
    requires Enabled(p, s, a)
  {
    match a
    case OfferReq => s.(reqNext := s.reqNext + 1, reqQueue := s.reqQueue + [s.reqNext])
    case CloseReq => s.(reqOpen := false)
    case OfferRes => s.(resNext := s.resNext + 1, resQueue := s.resQueue + [s.resNext])
    case CloseRes => s.(resOpen := false)
    case TakeReq => s.(idle := s.idle - 1, reqQueue := s.reqQueue[1..], seeking := s.seeking + [s.reqQueue[0]])
    case NoReq => s.(idle := s.idle - 1, exited := s.exited + 1)
    case Leave => s.(idle := s.idle - 1, exited := s.exited + 1)
    case TakeRes(j) =>
      s.(seeking := Without(s.seeking, j), resQueue := s.resQueue[1..],
         trying := s.trying + [Bid(s.seeking[j], s.resQueue[0])])
    case Exhausted(j) => Return(p, s.(seeking := Without(s.seeking, j), dropped := s.dropped + [s.seeking[j]]))
    case Forsake(j) => Return(p, s.(seeking := Without(s.seeking, j), dropped := s.dropped + [s.seeking[j]]))
    case Try(j) => Tried(p, s, j)
    case Deliver(j) =>
      s.(sending := Without(s.sending, j), outQueue := s.outQueue + [s.sending[j]], idle := s.idle + 1)
    case Withdraw(j) =>
      Return(p, s.(sending := Without(s.sending, j), dropped := s.dropped + [s.sending[j].req],
                   spent := s.spent + [s.sending[j].res], lost := s.lost + 1))
    case CloseOut => s.(outClosed := true)
    case Receive => s.(outQueue := s.outQueue[1..], received := s.received + [s.outQueue[0]])
    case Done => s.(done := true)
  }

  function Tried(p: Plan, s: State, j: nat): State
    requires j < |s.trying| && s.trying[j].res < |p.good|
  {
    var b := s.trying[j];
    var t := s.(trying := Without(s.trying, j));
    if p.good[b.res] then t.(sending := s.sending + [b])
    else t.(seeking := s.seeking + [b.req], spent := s.spent + [b.res])
  }

  ghost predicate Legal(p: Plan, s: State, run: seq<Action>)
    decreases |run|
  {
    run != [] ==> Enabled(p, s, run[0]) && Legal(p, Apply(p, s, run[0]), run[1..])
  }

  ghost function After(p: Plan, s: State, run: seq<Action>): State
    requires Legal(p, s, run)
    decreases |run|
  {
    if run == [] then s else After(p, Apply(p, s, run[0]), run[1..])
  }

  ghost predicate Reachable(p: Plan, s: State) {
    exists run :: Legal(p, Init(p), run) && After(p, Init(p), run) == s
  }

  /** All goroutines of the race have returned. */
  predicate Quiescent(s: State) {
    s.done && !s.reqOpen && !s.resOpen
  }

  // ---------------------------------------------------------------- tallies

  /** How many elements of a queue satisfy f. */
  function Tally<T>(q: seq<T>, f: T -> bool): nat {
    if q == [] then 0 else Tally(q[1..], f) + if f(q[0]) then 1 else 0
  }

  lemma {:induction false} TallyConcat<T>(a: seq<T>, b: seq<T>, f: T -> bool)
    ensures Tally(a + b, f) == Tally(a, f) + Tally(b, f)
  {
    if a == [] {
      assert a + b == b;
    } else {
      assert (a + b)[1..] == a[1..] + b;
      TallyConcat(a[1..], b, f);
    }
  }

  lemma {:induction false} TallySnoc<T>(a: seq<T>, x: T, f: T -> bool)
    ensures Tally(a + [x], f) == Tally(a, f) + if f(x) then 1 else 0
  {
    TallyConcat(a, [x], f);
  }

  lemma {:induction false} TallyWithout<T>(q: seq<T>, j: nat, f: T -> bool)
    requires j < |q|
    ensures Tally(q, f) == Tally(Without(q, j), f) + if f(q[j]) then 1 else 0
  {
    assert q == q[..j] + ([q[j]] + q[j + 1..]);
    TallyConcat(q[..j], [q[j]] + q[j + 1..], f);
    TallyConcat([q[j]], q[j + 1..], f);
    TallyConcat(q[..j], q[j + 1..], f);
  }

  lemma {:induction false} TallyAtMost<T>(q: seq<T>, f: T -> bool)
    ensures Tally(q, f) <= |q|
  {
    if q != [] {
      TallyAtMost(q[1..], f);
    }
  }

  function Is(i: nat): nat -> bool { (n: nat) => n == i }
  function ForReq(i: nat): Bid -> bool { (b: Bid) => b.req == i }
  function ForRes(i: nat): Bid -> bool { (b: Bid) => b.res == i }
  function Serves(p: Plan): nat -> bool { (r: nat) => r < |p.good| && p.good[r] }
  function Lucky(p: Plan): Bid -> bool { (b: Bid) => b.res < |p.good| && p.good[b.res] }

  /** The number of resources that serve a request. */
  function GoodCount(good: seq<bool>): nat {
    if good == [] then 0 else GoodCount(good[..|good| - 1]) + if good[|good| - 1] then 1 else 0
  }

  /** Where request i is. */
  function ReqPlaces(s: State, i: nat): nat {
    Tally(s.reqQueue, Is(i)) + Tally(s.seeking, Is(i)) + Tally(s.trying, ForReq(i)) + Tally(s.sending, ForReq(i)) +
    Tally(s.outQueue, ForReq(i)) + Tally(s.received, ForReq(i)) + Tally(s.dropped, Is(i))
  }

  /** Where resource i is. */
  function ResPlaces(s: State, i: nat): nat {
    Tally(s.resQueue, Is(i)) + Tally(s.trying, ForRes(i)) + Tally(s.sending, ForRes(i)) +
    Tally(s.outQueue, ForRes(i)) + Tally(s.received, ForRes(i)) + Tally(s.spent, Is(i))
  }

  lemma TryReqPlaces(p: Plan, s: State, j: nat, i: nat)
    requires Enabled(p, s, Try(j))
    ensures ReqPlaces(Tried(p, s, j), i) == ReqPlaces(s, i)
  {
    var b := s.trying[j];
    TallyWithout(s.trying, j, ForReq(i));
    if p.good[b.res] {
      TallySnoc(s.sending, b, ForReq(i));
    } else {
      TallySnoc(s.seeking, b.req, Is(i));
    }
  }

  lemma TryResPlaces(p: Plan, s: State, j: nat, i: nat)
    requires Enabled(p, s, Try(j))
    ensures ResPlaces(Tried(p, s, j), i) == ResPlaces(s, i)
  {
    var b, t := s.trying[j], Tried(p, s, j);
    TallyWithout(s.trying, j, ForRes(i));
    if p.good[b.res] {
      TallySnoc(s.sending, b, ForRes(i));
      assert t.spent == s.spent;
    } else {
      TallySnoc(s.spent, b.res, Is(i));
      assert t.sending == s.sending;
    }
    assert t.resQueue == s.resQueue && t.outQueue == s.outQueue && t.received == s.received;
  }

  lemma GiveUpPlaces(p: Plan, s: State, a: Action, i: nat)
    requires Enabled(p, s, a) && (a.Exhausted? || a.Forsake? || a.Withdraw?)
    ensures ReqPlaces(Apply(p, s, a), i) == ReqPlaces(s, i)
    ensures ResPlaces(Apply(p, s, a), i) == ResPlaces(s, i)
  {
    if a.Withdraw? {
      TallyWithout(s.sending, a.j, ForReq(i));
      TallySnoc(s.dropped, s.sending[a.j].req, Is(i));
      TallyWithout(s.sending, a.j, ForRes(i));
      TallySnoc(s.spent, s.sending[a.j].res, Is(i));
    } else {
      TallyWithout(s.seeking, a.j, Is(i));
      TallySnoc(s.dropped, s.seeking[a.j], Is(i));
    }
  }

  lemma TakeResPlaces(p: Plan, s: State, j: nat, i: nat)
    requires Enabled(p, s, TakeRes(j))
    ensures ReqPlaces(Apply(p, s, TakeRes(j)), i) == ReqPlaces(s, i)
    ensures ResPlaces(Apply(p, s, TakeRes(j)), i) == ResPlaces(s, i)
  {
    TallyWithout(s.seeking, j, Is(i));
    TallySnoc(s.trying, Bid(s.seeking[j], s.resQueue[0]), ForReq(i));
    TallySnoc(s.trying, Bid(s.seeking[j], s.resQueue[0]), ForRes(i));
  }

  lemma DeliverPlaces(p: Plan, s: State, j: nat, i: nat)
    requires Enabled(p, s, Deliver(j))
    ensures ReqPlaces(Apply(p, s, Deliver(j)), i) == ReqPlaces(s, i)
    ensures ResPlaces(Apply(p, s, Deliver(j)), i) == ResPlaces(s, i)
  {
    TallyWithout(s.sending, j, ForReq(i));
    TallySnoc(s.outQueue, s.sending[j], ForReq(i));
    TallyWithout(s.sending, j, ForRes(i));
    TallySnoc(s.outQueue, s.sending[j], ForRes(i));
  }

  lemma ReceivePlaces(p: Plan, s: State, i: nat)
    requires Enabled(p, s, Receive)
    ensures ReqPlaces(Apply(p, s, Receive), i) == ReqPlaces(s, i)
    ensures ResPlaces(Apply(p, s, Receive), i) == ResPlaces(s, i)
  {
    TallySnoc(s.received, s.outQueue[0], ForReq(i));
    TallySnoc(s.received, s.outQueue[0], ForRes(i));
  }

  /** Requests and resources are handed out once and never doubled. */
  lemma StepPlaces(p: Plan, s: State, a: Action, i: nat)
    requires Enabled(p, s, a)
    ensures ReqPlaces(Apply(p, s, a), i) == ReqPlaces(s, i) + if a.OfferReq? && i == s.reqNext then 1 else 0
    ensures ResPlaces(Apply(p, s, a), i) == ResPlaces(s, i) + if a.OfferRes? && i == s.resNext then 1 else 0
  {
    match a
    case OfferReq => TallySnoc(s.reqQueue, s.reqNext, Is(i));
    case OfferRes => TallySnoc(s.resQueue, s.resNext, Is(i));
    case TakeReq => TallySnoc(s.seeking, s.reqQueue[0], Is(i));
    case Try(j) =>
      TryReqPlaces(p, s, j, i);
      TryResPlaces(p, s, j, i);
    case TakeRes(j) => TakeResPlaces(p, s, j, i);
    case Deliver(j) => DeliverPlaces(p, s, j, i);
    case Receive => ReceivePlaces(p, s, i);
    case Exhausted(_) => GiveUpPlaces(p, s, a, i);
    case Forsake(_) => GiveUpPlaces(p, s, a, i);
    case Withdraw(_) => GiveUpPlaces(p, s, a, i);
    case _ =>
  }

  // ---------------------------------------------------------------- invariants

  ghost predicate Placed(p: Plan, s: State) {
    && s.reqNext <= p.requests && s.resNext <= |p.good|
    && (forall i: nat :: ReqPlaces(s, i) == if i < s.reqNext then 1 else 0)
    && (forall i: nat :: ResPlaces(s, i) == if i < s.resNext then 1 else 0)
  }

  ghost predicate AllLucky(p: Plan, q: seq<Bid>) {
    forall j :: 0 <= j < |q| ==> Lucky(p)(q[j])
  }

  /** Goroutine bookkeeping: who may have left, and why. */
  ghost predicate Control(p: Plan, s: State) {
    && p.Valid()
    && s.idle + |s.seeking| + |s.trying| + |s.sending| + s.exited + s.failed == p.workers
    && (s.outClosed ==> s.exited + s.failed == p.workers)
    && (s.done ==> s.outClosed && s.outQueue == [])
    && (s.cancelled <==> s.failed > 0)
    && (s.failed > 0 ==> p.strict)
    && (!s.reqOpen ==> s.cancelled || s.outClosed || s.reqNext == p.requests)
    && (!s.resOpen ==> s.cancelled || s.outClosed || s.resNext == |p.good|)
    && (s.exited > 0 && !s.cancelled ==> (s.reqQueue == [] && s.reqNext == p.requests) || s.dropped != [])
    && (s.dropped != [] && !s.cancelled ==> !p.strict && s.resQueue == [] && s.resNext == |p.good|)
    && (s.lost > 0 ==> s.cancelled)
  }

  /** Every issued request is somewhere, and so is every good resource handed out. */
  ghost predicate Books(p: Plan, s: State) {
    && s.reqNext <= p.requests && s.resNext <= |p.good|
    && |s.reqQueue| + |s.seeking| + |s.trying| + |s.sending| + |s.outQueue| + |s.received| + |s.dropped| == s.reqNext
    && Tally(s.resQueue, Serves(p)) + Tally(s.trying, Lucky(p)) + |s.sending| + |s.outQueue| + |s.received| + s.lost
       == GoodCount(p.good[..s.resNext])
    && (forall j :: 0 <= j < |s.trying| ==> s.trying[j].res < |p.good|)
    && (forall j :: 0 <= j < |s.resQueue| ==> s.resQueue[j] < |p.good|)
    && AllLucky(p, s.sending) && AllLucky(p, s.outQueue) && AllLucky(p, s.received)
  }

  /** A write with enough good shards never runs out of them. */
  ghost predicate Confident(p: Plan, s: State) {
    GoodCount(p.good) >= p.requests ==> !s.cancelled
  }

  ghost predicate Inv(p: Plan, s: State) {
    Placed(p, s) && Control(p, s) && Books(p, s) && Confident(p, s)
  }

  /** What has been handed out so far. */
  function Handed(s: State): (nat, nat) { (s.reqNext, s.resNext) }

  /** Workers and the collector hand out nothing. */
  lemma WorkersHandOutNothing(p: Plan, s: State, a: Action)
    requires Enabled(p, s, a) && !a.OfferReq? && !a.OfferRes?
    ensures Handed(Apply(p, s, a)) == Handed(s)
  {
    match a {
      case Exhausted(j) =>
      case Forsake(j) =>
      case Withdraw(j) =>
      case Try(j) =>
      case _ =>
    }
  }

  lemma PlacedStep(p: Plan, s: State, a: Action)
    requires Placed(p, s) && Enabled(p, s, a)
    ensures Placed(p, Apply(p, s, a))
  {
    var t := Apply(p, s, a);
    if !a.OfferReq? && !a.OfferRes? {
      WorkersHandOutNothing(p, s, a);
    }
    forall i: nat
      ensures ReqPlaces(t, i) == if i < t.reqNext then 1 else 0
      ensures ResPlaces(t, i) == if i < t.resNext then 1 else 0
    {
      StepPlaces(p, s, a, i);
    }
  }

  /** Once the iterator is exhausted, every good resource serves a request other than the one still waiting. */
  lemma OutOfShards(p: Plan, s: State, j: nat)
    requires Control(p, s) && Books(p, s) && Enabled(p, s, Exhausted(j)) && !s.cancelled
    ensures s.resNext == |p.good|
    ensures GoodCount(p.good) < p.requests
  {
    TallyAtMost(s.trying, Lucky(p));
    assert p.good[..|p.good|] == p.good;
  }

  lemma ControlFeeders(p: Plan, s: State, a: Action)
    requires Control(p, s) && Books(p, s) && Enabled(p, s, a)
    requires a.OfferReq? || a.CloseReq? || a.OfferRes? || a.CloseRes? || a.CloseOut? || a.Receive? || a.Done?
    ensures Control(p, Apply(p, s, a))
  {
  }

  lemma ControlWorkers(p: Plan, s: State, a: Action)
    requires Control(p, s) && Books(p, s) && Enabled(p, s, a)
    requires a.TakeReq? || a.NoReq? || a.Leave? || a.TakeRes? || a.Deliver?
    ensures Control(p, Apply(p, s, a))
  {
  }

  lemma ControlTry(p: Plan, s: State, j: nat)
    requires Control(p, s) && Enabled(p, s, Try(j))
    ensures Control(p, Tried(p, s, j))
  {
  }

  lemma ControlGiveUp(p: Plan, s: State, a: Action)
    requires Control(p, s) && Books(p, s) && Enabled(p, s, a)
    requires a.Exhausted? || a.Forsake? || a.Withdraw?
    ensures Control(p, Apply(p, s, a))
  {
    if a.Exhausted? && !s.cancelled {
      OutOfShards(p, s, a.j);
    }
  }

  lemma ControlStep(p: Plan, s: State, a: Action)
    requires Control(p, s) && Books(p, s) && Enabled(p, s, a)
    ensures Control(p, Apply(p, s, a))
  {
    if a.Exhausted? || a.Forsake? || a.Withdraw? {
      ControlGiveUp(p, s, a);
    } else if a.TakeReq? || a.NoReq? || a.Leave? || a.TakeRes? || a.Deliver? {
      ControlWorkers(p, s, a);
    } else if a.Try? {
      ControlTry(p, s, a.j);
    } else {
      ControlFeeders(p, s, a);
    }
  }

  lemma ConfidentStep(p: Plan, s: State, a: Action)
    requires Inv(p, s) && Enabled(p, s, a)
    ensures Confident(p, Apply(p, s, a))
  {
    if a.Exhausted? && !s.cancelled {
      OutOfShards(p, s, a.j);
    }
  }

  lemma GoodCountNext(p: Plan, n: nat)
    requires n < |p.good|
    ensures GoodCount(p.good[..n + 1]) == GoodCount(p.good[..n]) + if p.good[n] then 1 else 0
  {
    assert p.good[..n + 1][..n] == p.good[..n];
  }

  lemma BooksTryGood(p: Plan, s: State, j: nat)
    requires Books(p, s) && Enabled(p, s, Try(j)) && p.good[s.trying[j].res]
    ensures Books(p, Tried(p, s, j))
  {
    TallyWithout(s.trying, j, Lucky(p));
    assert AllLucky(p, s.sending + [s.trying[j]]);
  }

  lemma BooksTryBad(p: Plan, s: State, j: nat)
    requires Books(p, s) && Enabled(p, s, Try(j)) && !p.good[s.trying[j].res]
    ensures Books(p, Tried(p, s, j))
  {
    TallyWithout(s.trying, j, Lucky(p));
  }

  lemma BooksTakeRes(p: Plan, s: State, j: nat)
    requires Books(p, s) && Enabled(p, s, TakeRes(j))
    ensures Books(p, Apply(p, s, TakeRes(j)))
  {
    TallySnoc(s.trying, Bid(s.seeking[j], s.resQueue[0]), Lucky(p));
  }

  lemma BooksOfferRes(p: Plan, s: State)
    requires Books(p, s) && Enabled(p, s, OfferRes)
    ensures Books(p, Apply(p, s, OfferRes))
  {
    TallySnoc(s.resQueue, s.resNext, Serves(p));
    GoodCountNext(p, s.resNext);
  }

  lemma BooksGiveUp(p: Plan, s: State, a: Action)
    requires Books(p, s) && Enabled(p, s, a) && (a.Exhausted? || a.Forsake? || a.Withdraw?)
    ensures Books(p, Apply(p, s, a))
  {
  }

  lemma BooksStep(p: Plan, s: State, a: Action)
    requires Books(p, s) && Enabled(p, s, a)
    ensures Books(p, Apply(p, s, a))
  {
    match a
    case OfferRes => BooksOfferRes(p, s);
    case TakeRes(j) => BooksTakeRes(p, s, j);
    case Try(j) =>
      if p.good[s.trying[j].res] {
        BooksTryGood(p, s, j);
      } else {
        BooksTryBad(p, s, j);
      }
    case Exhausted(_) => BooksGiveUp(p, s, a);
    case Forsake(_) => BooksGiveUp(p, s, a);
    case Withdraw(_) => BooksGiveUp(p, s, a);
    case _ =>
  }

  lemma {:induction false} InvRun(p: Plan, s: State, run: seq<Action>)
    requires Inv(p, s) && Legal(p, s, run)
    ensures Inv(p, After(p, s, run))
    decreases |run|
  {
    if run != [] {
      PlacedStep(p, s, run[0]);
      ControlStep(p, s, run[0]);
      BooksStep(p, s, run[0]);
      ConfidentStep(p, s, run[0]);
      InvRun(p, Apply(p, s, run[0]), run[1..]);
    }
  }

  lemma InvReachable(p: Plan, s: State)
    requires p.Valid() && Reachable(p, s)
    ensures Inv(p, s)
  {
    var run :| Legal(p, Init(p), run) && After(p, Init(p), run) == s;
    assert p.good[..0] == [];
    InvRun(p, Init(p), run);
  }

  // ---------------------------------------------------------------- main results

  /** No request and no resource occurs twice, and every resource used is a good one. */
  ghost predicate Matching(p: Plan, bids: seq<Bid>) {
    && (forall j :: 0 <= j < |bids| ==> bids[j].req < p.requests && bids[j].res < |p.good| && p.good[bids[j].res])
    && (forall i, j :: 0 <= i < j < |bids| ==> bids[i].req != bids[j].req && bids[i].res != bids[j].res)
  }

  function Min(a: nat, b: nat): nat { if a < b then a else b }

  lemma {:induction false} TallyTwo<T>(q: seq<T>, i: nat, j: nat, f: T -> bool)
    requires i < j < |q| && f(q[i]) && f(q[j])
    ensures Tally(q, f) >= 2
  {
    TallyWithout(q, j, f);
    TallyWithout(Without(q, j), i, f);
  }

  lemma {:induction false} TallyMember<T>(q: seq<T>, j: nat, f: T -> bool)
    requires j < |q| && f(q[j])
    ensures Tally(q, f) >= 1
  {
    TallyWithout(q, j, f);
  }

  /** At any time of any schedule, the results so far pair distinct requests with distinct good resources. */
  lemma ResultsMatch(p: Plan, s: State)
    requires p.Valid() && Reachable(p, s)
    ensures Matching(p, s.received)
    ensures |s.received| <= Min(p.requests, GoodCount(p.good))
  {
    InvReachable(p, s);
    var q := s.received;
    forall j | 0 <= j < |q|
      ensures q[j].req < p.requests && q[j].res < |p.good| && p.good[q[j].res]
    {
      assert Lucky(p)(q[j]);
      TallyMember(q, j, ForReq(q[j].req));
      assert ReqPlaces(s, q[j].req) >= 1;
    }
    forall i, j | 0 <= i < j < |q|
      ensures q[i].req != q[j].req && q[i].res != q[j].res
    {
      assert ReqPlaces(s, q[i].req) <= 1 && ResPlaces(s, q[i].res) <= 1;
      if q[i].req == q[j].req {
        TallyTwo(q, i, j, ForReq(q[i].req));
      }
      if q[i].res == q[j].res {
        TallyTwo(q, i, j, ForRes(q[i].res));
      }
    }
    GoodCountPrefix(p.good, s.resNext);
  }

  lemma {:induction false} GoodCountPrefix(good: seq<bool>, n: nat)
    requires n <= |good|
    ensures GoodCount(good[..n]) <= GoodCount(good)
    decreases |good|
  {
    if n == |good| {
      assert good[..n] == good;
    } else {
      GoodCountPrefix(good[..|good| - 1], n);
      assert good[..|good| - 1][..n] == good[..n];
    }
  }

  /**
   * Counting over every schedule: once the collector is done it holds as many results as requests
   * and good resources allow, except that a strict race short of resources may give up earlier.
   */
  lemma RaceResult(p: Plan, s: State)
    requires p.Valid() && Reachable(p, s) && s.done
    ensures Matching(p, s.received)
    ensures !p.strict || GoodCount(p.good) >= p.requests ==> |s.received| == Min(p.requests, GoodCount(p.good))
    ensures |s.received| == p.requests <==> GoodCount(p.good) >= p.requests
  {
    InvReachable(p, s);
    ResultsMatch(p, s);
    assert p.good[..|p.good|] == p.good;
  }

  /** A worker that has not returned can move, or the feeder or collector it waits for can. */
  lemma WorkersMove(p: Plan, s: State)
    requires Control(p, s) && Books(p, s) && s.exited + s.failed < p.workers
    ensures exists a :: Enabled(p, s, a)
  {
    if s.trying != [] {
      assert Enabled(p, s, Try(0));
    } else if s.sending != [] {
      assert Enabled(p, s, Deliver(0)) || Enabled(p, s, Receive);
    } else if s.seeking != [] {
      assert Enabled(p, s, TakeRes(0)) || Enabled(p, s, Exhausted(0)) ||
        Enabled(p, s, OfferRes) || Enabled(p, s, CloseRes);
    } else {
      assert Enabled(p, s, TakeReq) || Enabled(p, s, NoReq) || Enabled(p, s, OfferReq) || Enabled(p, s, CloseReq);
    }
  }

  lemma OthersMove(p: Plan, s: State)
    requires Control(p, s) && s.exited + s.failed == p.workers && !Quiescent(s)
    ensures exists a :: Enabled(p, s, a)
  {
    if !s.outClosed {
      assert Enabled(p, s, CloseOut);
    } else if !s.done {
      assert Enabled(p, s, Receive) || Enabled(p, s, Done);
    } else {
      assert Enabled(p, s, CloseReq) || Enabled(p, s, CloseRes);
    }
  }

  /** Deadlock freedom: until all goroutines have returned, some step is possible. */
  lemma DeadlockFree(p: Plan, s: State)
    requires p.Valid() && Reachable(p, s)
    ensures Quiescent(s) || exists a :: Enabled(p, s, a)
  {
    InvReachable(p, s);
    if s.exited + s.failed < p.workers {
      WorkersMove(p, s);
    } else if !Quiescent(s) {
      OthersMove(p, s);
    }
  }

  /** Steps left for the workers and what they hold. */
  function CrewFuel(s: State): int {
    s.idle + 5 * |s.seeking| + 6 * |s.trying| + 4 * |s.sending|
  }

  /** Steps left for what waits in the channels and for the other goroutines. */
  function ChannelFuel(p: Plan, s: State): int {
    6 * (p.requests - s.reqNext) + 5 * |s.reqQueue| + 3 * (|p.good| - s.resNext) + 2 * |s.resQueue| + 2 * |s.outQueue|
    + (if s.reqOpen then 1 else 0) + (if s.resOpen then 1 else 0) + (if s.outClosed then 0 else 1)
    + if s.done then 0 else 1
  }

  /** An upper bound on the number of steps left. */
  function Fuel(p: Plan, s: State): int {
    CrewFuel(s) + ChannelFuel(p, s)
  }

  lemma FeedersBurnFuel(p: Plan, s: State, a: Action)
    requires Enabled(p, s, a)
    requires a.OfferReq? || a.CloseReq? || a.OfferRes? || a.CloseRes? || a.CloseOut? || a.Receive? || a.Done?
    ensures Fuel(p, Apply(p, s, a)) < Fuel(p, s)
  {
  }

  lemma WorkersBurnFuel(p: Plan, s: State, a: Action)
    requires Enabled(p, s, a)
    requires a.TakeReq? || a.NoReq? || a.Leave? || a.TakeRes? || a.Deliver?
    ensures Fuel(p, Apply(p, s, a)) < Fuel(p, s)
  {
  }

  lemma TryCosts(p: Plan, s: State, j: nat)
    requires Enabled(p, s, Try(j))
    ensures CrewFuel(Tried(p, s, j)) < CrewFuel(s)
  {
    assert |Without(s.trying, j)| == |s.trying| - 1;
  }

  lemma TryLeavesChannels(p: Plan, s: State, j: nat)
    requires Enabled(p, s, Try(j))
    ensures ChannelFuel(p, Tried(p, s, j)) == ChannelFuel(p, s)
  {
    var b, t := s.trying[j], Tried(p, s, j);
    if p.good[b.res] {
      assert t == s.(trying := Without(s.trying, j), sending := s.sending + [b]);
    } else {
      assert t == s.(trying := Without(s.trying, j), seeking := s.seeking + [b.req], spent := s.spent + [b.res]);
    }
  }

  lemma TryBurnsFuel(p: Plan, s: State, j: nat)
    requires Enabled(p, s, Try(j))
    ensures Fuel(p, Tried(p, s, j)) < Fuel(p, s)
  {
    TryCosts(p, s, j);
    TryLeavesChannels(p, s, j);
  }

  lemma GivingUpBurnsFuel(p: Plan, s: State, a: Action)
    requires Enabled(p, s, a) && (a.Exhausted? || a.Forsake? || a.Withdraw?)
    ensures Fuel(p, Apply(p, s, a)) < Fuel(p, s)
  {
  }

  /** Every step, also after cancellation, lowers the bound. */
  lemma StepBurnsFuel(p: Plan, s: State, a: Action)
    requires Enabled(p, s, a)
    ensures Fuel(p, Apply(p, s, a)) < Fuel(p, s)
  {
    if a.Exhausted? || a.Forsake? || a.Withdraw? {
      GivingUpBurnsFuel(p, s, a);
    } else if a.TakeReq? || a.NoReq? || a.Leave? || a.TakeRes? || a.Deliver? {
      WorkersBurnFuel(p, s, a);
    } else if a.Try? {
      TryBurnsFuel(p, s, a.j);
    } else {
      FeedersBurnFuel(p, s, a);
    }
  }

  ghost predicate InBounds(p: Plan, s: State) {
    s.reqNext <= p.requests && s.resNext <= |p.good|
  }

  lemma StepInBounds(p: Plan, s: State, a: Action)
    requires Enabled(p, s, a) && InBounds(p, s)
    ensures InBounds(p, Apply(p, s, a))
  {
  }

  lemma FuelNonNegative(p: Plan, s: State)
    requires InBounds(p, s)
    ensures Fuel(p, s) >= 0
  {
  }

  /** Termination: no schedule is longer than the bound of the state it starts from. */
  lemma {:induction false} RunsAreBounded(p: Plan, s: State, run: seq<Action>)
    requires Legal(p, s, run) && InBounds(p, s)
    ensures |run| <= Fuel(p, s)
    decreases |run|
  {
    FuelNonNegative(p, s);
    if run != [] {
      StepInBounds(p, s, run[0]);
      StepBurnsFuel(p, s, run[0]);
      RunsAreBounded(p, Apply(p, s, run[0]), run[1..]);
    }
  }

  lemma {:induction false} ExtendRun(p: Plan, s: State, run: seq<Action>, a: Action)
    requires Legal(p, s, run) && Enabled(p, After(p, s, run), a)
    ensures Legal(p, s, run + [a]) && After(p, s, run + [a]) == Apply(p, After(p, s, run), a)
    decreases |run|
  {
    if run == [] {
      assert run + [a] == [a];
      assert Legal(p, Apply(p, s, a), []);
    } else {
      assert (run + [a])[1..] == run[1..] + [a];
      ExtendRun(p, Apply(p, s, run[0]), run[1..], a);
    }
  }

  lemma StepReachable(p: Plan, s: State, a: Action)
    requires Reachable(p, s) && Enabled(p, s, a)
    ensures Reachable(p, Apply(p, s, a))
  {
    var run :| Legal(p, Init(p), run) && After(p, Init(p), run) == s;
    ExtendRun(p, Init(p), run, a);
  }

  /** From every reachable state there is a run at whose end all goroutines have returned. */
  lemma {:induction false} EveryRunCompletes(p: Plan, s: State)
    requires p.Valid() && Reachable(p, s)
    ensures exists run :: Legal(p, s, run) && Quiescent(After(p, s, run))
    decreases Fuel(p, s)
  {
    DeadlockFree(p, s);
    InvReachable(p, s);
    FuelNonNegative(p, s);
    if Quiescent(s) {
      assert Legal(p, s, []) && After(p, s, []) == s;
    } else {
      var a :| Enabled(p, s, a);
      var t := Apply(p, s, a);
      StepReachable(p, s, a);
      StepInBounds(p, s, a);
      StepBurnsFuel(p, s, a);
      FuelNonNegative(p, t);
      EveryRunCompletes(p, t);
      var rest :| Legal(p, t, rest) && Quiescent(After(p, t, rest));
      PrependStep(p, s, a, rest);
    }
  }

  lemma {:induction false} PrependStep(p: Plan, s: State, a: Action, rest: seq<Action>)
    requires Enabled(p, s, a) && Legal(p, Apply(p, s, a), rest)
    ensures Legal(p, s, [a] + rest) && After(p, s, [a] + rest) == After(p, Apply(p, s, a), rest)
  {
    assert ([a] + rest)[1..] == rest;
  }

  /** A schedule that cannot be continued. */
  ghost predicate Maximal(p: Plan, run: seq<Action>) {
    Legal(p, Init(p), run) && forall a :: !Enabled(p, After(p, Init(p), run), a)
  }

  /** Every schedule is finite, and when it cannot be continued all goroutines have returned. */
  lemma {:induction false} MaximalRunsComplete(p: Plan, run: seq<Action>)
    requires p.Valid() && Maximal(p, run)
    ensures |run| <= Fuel(p, Init(p)) && Reachable(p, After(p, Init(p), run)) && Quiescent(After(p, Init(p), run))
  {
    RunsAreBounded(p, Init(p), run);
    DeadlockFree(p, After(p, Init(p), run));
  }

  /** Some schedule completes. */
  lemma SomeRunCompletes(p: Plan) returns (s: State)
    requires p.Valid()
    ensures Reachable(p, s) && Quiescent(s)
  {
    assert Legal(p, Init(p), []) && After(p, Init(p), []) == Init(p);
    EveryRunCompletes(p, Init(p));
    var run :| Legal(p, Init(p), run) && Quiescent(After(p, Init(p), run));
    s := After(p, Init(p), run);
  }
}
