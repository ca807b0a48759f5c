/**
 * The goroutine networks of the client, as one step relation.
 *
 * Every parallel operation of the client has the same shape: a producer feeds a bounded
 * channel, one or more worker groups each drain a channel and fill the next one, a closer per
 * group closes the group's output once all of its workers have returned, and a sink drains the
 * last channel. An error group holds the first error and cancels a shared context, which
 * releases whoever is blocked on a send.
 *
 * Workers of one group are interchangeable, so a group is a number of idle workers and the
 * items in the hands of the others. What a storage, processor or writer call answers for a given
 * block is a parameter of the network, fixed per stage and block; the schedule is arbitrary.
 */
module Network {
  import opened Lists

  /** A value tagged with its position in the input. */
  datatype Item<+T> = Item(index: nat, value: T)

  /** What a worker does with an item: pass a value on, drop the item, or return an error. */
  datatype Outcome<+T> = Emit(value: T) | Skip | Fail

  /** What the sink does after an item: wait for more, leave early, or return an error. */
  datatype Verdict = Continue | Stop | Reject

  datatype StagePlan = StagePlan(workers: nat, capacity: nat)

  /**
   * inputs, endFails: what the producer reads, and whether its last read is an error.
   * eager:            a worker's own error cancels the context at once (the workers are in the
   *                   error group that owns the context), rather than when their closer returns.
   * alert:            a worker waiting for its next item also watches the context.
   */
  datatype Plan<!T> = Plan(
    inputs: seq<T>,
    endFails: bool,
    feedCapacity: nat,
    stages: seq<StagePlan>,
    eager: bool,
    alert: bool,
    work: (nat, nat, T) -> Outcome<T>,
    verdict: seq<Item<T>> -> Verdict,
    finishFails: seq<Item<T>> -> bool)
  {
    predicate Valid() {
      && feedCapacity >= 1
      && |stages| >= 1
      && (forall k :: 0 <= k < |stages| ==> stages[k].workers >= 1 && stages[k].capacity >= 1)
      && (eager ==> |stages| == 1)
    }

    function Capacity(c: nat): nat
      requires c <= |stages|
    {
      if c == 0 then feedCapacity else stages[c - 1].capacity
    }

    /** What becomes of input i once the first k stages have handled it. */
    function Trace(k: nat, i: nat): Outcome<T>
      requires i < |inputs|
    {
      if k == 0 then Emit(inputs[i])
      else match Trace(k - 1, i)
        case Emit(v) => work(k - 1, i, v)
        case Skip => Skip
        case Fail => Fail
    }

    /** What the network as a whole makes of input i. */
    function Result(i: nat): Outcome<T>
      requires i < |inputs|
    {
      Trace(|stages|, i)
    }
  }

  /** A sink that takes whatever comes, and is content with it. */
  function NeverStops<T>(): seq<Item<T>> -> Verdict { (q: seq<Item<T>>) => Continue }

  function NeverFails<T>(): seq<Item<T>> -> bool { (q: seq<Item<T>>) => false }

  function IndexOf<T>(): Item<T> -> nat { (x: Item<T>) => x.index }

  /** Goroutines that would have nothing to do are not started. */
  function Limited(jobs: nat, n: nat): nat { if jobs > n then n else jobs }

  lemma OneStage<T>(p: Plan<T>, i: nat)
    requires |p.stages| == 1 && i < |p.inputs|
    ensures p.Result(i) == p.work(0, i, p.inputs[i])
  {
    assert p.Trace(0, i) == Emit(p.inputs[i]);
  }

  datatype Chan<T> = Chan(queue: seq<Item<T>>, closed: bool)

  datatype Closer = Waiting | Closed | Returned

  datatype Stage<T> = Stage(
    idle: nat, busy: seq<Item<T>>, sending: seq<Item<T>>, exited: nat, failed: nat, closer: Closer)

  datatype Producer = Reading | Offering | Leaving(failing: bool) | FeedClosed(failing: bool) | Gone

  datatype Sink = Draining | Finished | Stopped | Rejected

  /**
   * chans[0] is the feed, chans[k + 1] the output of stage k. Two history variables: `gone` holds
   * the indices of items that left the network before the sink, and `doomed` tells that some
   * goroutine returned an error or the sink left early.
   */
  datatype State<T> = State(
    next: nat, producer: Producer, chans: seq<Chan<T>>, stages: seq<Stage<T>>,
    sink: Sink, received: seq<Item<T>>, gone: multiset<nat>, err: bool, cancelled: bool, doomed: bool)

  datatype Action =
    | Produce | End | Offer | Quit | CloseFeed | LeaveProducer
    | Take(k: nat) | Retire(k: nat) | Leave(k: nat)
    | Compute(k: nat, j: nat) | Send(k: nat, j: nat) | Abort(k: nat, j: nat)
    | CloseOut(k: nat) | ReturnCloser(k: nat)
    | Consume | Finish

  function Init<T>(p: Plan<T>): State<T> {
    State(0, Reading, seq(|p.stages| + 1, _ => Chan([], false)),
          seq(|p.stages|, k requires 0 <= k < |p.stages| => Stage(p.stages[k].workers, [], [], 0, 0, Waiting)),
          Draining, [], multiset{}, false, false, false)
  }

  predicate Shaped<T>(p: Plan<T>, s: State<T>) {
    && p.Valid()
    && |s.chans| == |p.stages| + 1
    && |s.stages| == |p.stages|
    && s.next <= |p.inputs|
    && (s.producer.Offering? ==> s.next < |p.inputs|)
  }

  predicate Enabled<T>(p: Plan<T>, s: State<T>, a: Action)
    requires Shaped(p, s)
  {
    match a
    case Produce => s.producer.Reading? && s.next < |p.inputs|
    case End => s.producer.Reading? && s.next == |p.inputs|
    case Offer => CanOffer(p, s)
    case Quit => s.producer.Offering? && s.cancelled
    case CloseFeed => s.producer.Leaving?
    case LeaveProducer => s.producer.FeedClosed?
    case Take(k) => CanTake(p, s, k)
    case Retire(k) => CanRetire(p, s, k)
    case Leave(k) => CanLeave(p, s, k)
    case Compute(k, j) => CanCompute(p, s, k, j)
    case Send(k, j) => CanSend(p, s, k, j)
    case Abort(k, j) => CanAbort(p, s, k, j)
    case CloseOut(k) => CanCloseOut(p, s, k)
    case ReturnCloser(k) => CanReturn(p, s, k)
    case Consume => CanConsume(p, s)
    case Finish => CanFinish(p, s)
  }

  function Apply<T>(p: Plan<T>, s: State<T>, a: Action): State<T>
    requires Shaped(p, s) && Enabled(p, s, a)
  {
    match a
    case Produce => s.(producer := Offering)
    case End => s.(producer := Leaving(p.endFails))
    case Offer => DoOffer(p, s)
    case Quit => s.(producer := Leaving(false))
    case CloseFeed => DoCloseFeed(p, s)
    case LeaveProducer => Report(s.(producer := Gone), s.producer.failing)
    case Take(k) => DoTake(p, s, k)
    case Retire(k) => DoRetire(p, s, k)
    case Leave(k) => DoRetire(p, s, k)
    case Compute(k, j) => DoCompute(p, s, k, j)
    case Send(k, j) => DoSend(p, s, k, j)
    case Abort(k, j) => DoAbort(p, s, k, j)
    case CloseOut(k) => DoCloseOut(p, s, k)
    case ReturnCloser(k) => DoReturn(p, s, k)
    case Consume => DoConsume(p, s)
    case Finish => DoFinish(p, s)
  }

  /** A goroutine of the error group returns: the first error is kept and cancels the context. */
  function Report<T>(s: State<T>, failing: bool): State<T> {
    if failing then s.(err := true, cancelled := true, doomed := true) else s
  }

  predicate CanOffer<T>(p: Plan<T>, s: State<T>)
    requires Shaped(p, s)
  {
    s.producer.Offering? && |s.chans[0].queue| < p.feedCapacity
  }

  function DoOffer<T>(p: Plan<T>, s: State<T>): State<T>
    requires Shaped(p, s) && CanOffer(p, s)
  {
    var item := Item(s.next, p.inputs[s.next]);
    s.(producer := Reading, next := s.next + 1,
       chans := s.chans[0 := Chan(s.chans[0].queue + [item], s.chans[0].closed)])
  }

  function DoCloseFeed<T>(p: Plan<T>, s: State<T>): State<T>
    requires Shaped(p, s) && s.producer.Leaving?
  {
    s.(producer := FeedClosed(s.producer.failing), chans := s.chans[0 := Chan(s.chans[0].queue, true)])
  }

  predicate CanTake<T>(p: Plan<T>, s: State<T>, k: nat)
    requires Shaped(p, s)
  {
    k < |p.stages| && s.stages[k].idle > 0 && s.chans[k].queue != []
  }

  function DoTake<T>(p: Plan<T>, s: State<T>, k: nat): State<T>
    requires Shaped(p, s) && CanTake(p, s, k)
  {
    var g, c := s.stages[k], s.chans[k];
    s.(chans := s.chans[k := Chan(c.queue[1..], c.closed)],
       stages := s.stages[k := g.(idle := g.idle - 1, busy := g.busy + [c.queue[0]])])
  }

  predicate CanRetire<T>(p: Plan<T>, s: State<T>, k: nat)
    requires Shaped(p, s)
  {
    k < |p.stages| && s.stages[k].idle > 0 && s.chans[k].queue == [] && s.chans[k].closed
  }

  predicate CanLeave<T>(p: Plan<T>, s: State<T>, k: nat)
    requires Shaped(p, s)
  {
    k < |p.stages| && s.stages[k].idle > 0 && p.alert && s.cancelled
  }

  /** An idle worker returns without an error. */
  function DoRetire<T>(p: Plan<T>, s: State<T>, k: nat): State<T>
    requires Shaped(p, s) && (CanRetire(p, s, k) || CanLeave(p, s, k))
  {
    var g := s.stages[k];
    s.(stages := s.stages[k := g.(idle := g.idle - 1, exited := g.exited + 1)])
  }

  predicate CanCompute<T>(p: Plan<T>, s: State<T>, k: nat, j: nat)
    requires Shaped(p, s)
  {
    k < |p.stages| && j < |s.stages[k].busy|
  }

  /** The worker holding item j of stage k gets its answer. */
  function DoCompute<T>(p: Plan<T>, s: State<T>, k: nat, j: nat): State<T>
    requires Shaped(p, s) && CanCompute(p, s, k, j)
  {
    var g := s.stages[k];
    var x := g.busy[j];
    var rest := Without(g.busy, j);
    match p.work(k, x.index, x.value)
    case Emit(v) => s.(stages := s.stages[k := g.(busy := rest, sending := g.sending + [Item(x.index, v)])])
    case Skip =>
      s.(stages := s.stages[k := g.(busy := rest, idle := g.idle + 1)], gone := s.gone + multiset{x.index})
    case Fail =>
      s.(stages := s.stages[k := g.(busy := rest, failed := g.failed + 1)], gone := s.gone + multiset{x.index},
         cancelled := s.cancelled || p.eager, doomed := true)
  }

  predicate CanSend<T>(p: Plan<T>, s: State<T>, k: nat, j: nat)
    requires Shaped(p, s)
  {
    k < |p.stages| && j < |s.stages[k].sending| && |s.chans[k + 1].queue| < p.Capacity(k + 1)
  }

  function DoSend<T>(p: Plan<T>, s: State<T>, k: nat, j: nat): State<T>
    requires Shaped(p, s) && CanSend(p, s, k, j)
  {
    var g, c := s.stages[k], s.chans[k + 1];
    s.(chans := s.chans[k + 1 := Chan(c.queue + [g.sending[j]], c.closed)],
       stages := s.stages[k := g.(idle := g.idle + 1, sending := Without(g.sending, j))])
  }

  predicate CanAbort<T>(p: Plan<T>, s: State<T>, k: nat, j: nat)
    requires Shaped(p, s)
  {
    k < |p.stages| && j < |s.stages[k].sending| && s.cancelled
  }

  function DoAbort<T>(p: Plan<T>, s: State<T>, k: nat, j: nat): State<T>
    requires Shaped(p, s) && CanAbort(p, s, k, j)
  {
    var g := s.stages[k];
    s.(stages := s.stages[k := g.(exited := g.exited + 1, sending := Without(g.sending, j))],
       gone := s.gone + multiset{g.sending[j].index})
  }

  predicate CanCloseOut<T>(p: Plan<T>, s: State<T>, k: nat)
    requires Shaped(p, s)
  {
    k < |p.stages| && s.stages[k].closer.Waiting? &&
    s.stages[k].exited + s.stages[k].failed == p.stages[k].workers
  }

  function DoCloseOut<T>(p: Plan<T>, s: State<T>, k: nat): State<T>
    requires Shaped(p, s) && CanCloseOut(p, s, k)
  {
    s.(stages := s.stages[k := s.stages[k].(closer := Closed)],
       chans := s.chans[k + 1 := Chan(s.chans[k + 1].queue, true)],
       cancelled := s.cancelled || p.eager)
  }

  predicate CanReturn<T>(p: Plan<T>, s: State<T>, k: nat)
    requires Shaped(p, s)
  {
    k < |p.stages| && s.stages[k].closer.Closed?
  }

  function DoReturn<T>(p: Plan<T>, s: State<T>, k: nat): State<T>
    requires Shaped(p, s) && CanReturn(p, s, k)
  {
    Report(s.(stages := s.stages[k := s.stages[k].(closer := Returned)]), s.stages[k].failed > 0)
  }

  predicate CanConsume<T>(p: Plan<T>, s: State<T>)
    requires Shaped(p, s)
  {
    s.sink.Draining? && s.chans[|p.stages|].queue != []
  }

  function DoConsume<T>(p: Plan<T>, s: State<T>): State<T>
    requires Shaped(p, s) && CanConsume(p, s)
  {
    var c := s.chans[|p.stages|];
    var received := s.received + [c.queue[0]];
    var t := s.(chans := s.chans[|p.stages| := Chan(c.queue[1..], c.closed)], received := received);
    match p.verdict(received)
    case Continue => t
    case Stop => t.(sink := Stopped, cancelled := true, doomed := true)
    case Reject => Report(t.(sink := Rejected), true)
  }

  predicate CanFinish<T>(p: Plan<T>, s: State<T>)
    requires Shaped(p, s)
  {
    s.sink.Draining? && s.chans[|p.stages|].queue == [] && s.chans[|p.stages|].closed
  }

  function DoFinish<T>(p: Plan<T>, s: State<T>): State<T>
    requires Shaped(p, s) && CanFinish(p, s)
  {
    Report(s.(sink := Finished), p.finishFails(s.received))
  }

  /** A schedule: every action is enabled when its turn comes. */
  ghost predicate Legal<T>(p: Plan<T>, s: State<T>, run: seq<Action>)
    decreases |run|
  {
    Shaped(p, s) &&
    (run != [] ==> Enabled(p, s, run[0]) && Legal(p, Apply(p, s, run[0]), run[1..]))
  }

  ghost function After<T>(p: Plan<T>, s: State<T>, run: seq<Action>): State<T>
    requires Legal(p, s, run)
    decreases |run|
  {
    if run == [] then s else After(p, Apply(p, s, run[0]), run[1..])
  }

  ghost predicate Reachable<T>(p: Plan<T>, s: State<T>) {
    exists run :: Legal(p, Init(p), run) && After(p, Init(p), run) == s
  }

  /** Every goroutine has returned. */
  predicate Quiescent<T>(s: State<T>) {
    s.producer.Gone? && !s.sink.Draining? && forall k :: 0 <= k < |s.stages| ==> s.stages[k].closer.Returned?
  }

  // ---------------------------------------------------------------- occurrences

  /** How often index i occurs in a queue. */
  function Occ<T>(q: seq<Item<T>>, i: nat): nat {
    if q == [] then 0 else Occ(q[1..], i) + if q[0].index == i then 1 else 0
  }

  function OccChans<T>(cs: seq<Chan<T>>, i: nat): nat {
    if cs == [] then 0 else OccChans(cs[1..], i) + Occ(cs[0].queue, i)
  }

  function OccStages<T>(gs: seq<Stage<T>>, i: nat): nat {
    if gs == [] then 0 else OccStages(gs[1..], i) + Occ(gs[0].busy, i) + Occ(gs[0].sending, i)
  }

  /** Everywhere index i can be once the producer has offered it. */
  function Places<T>(s: State<T>, i: nat): nat {
    OccChans(s.chans, i) + OccStages(s.stages, i) + Occ(s.received, i) + s.gone[i]
  }

  lemma {:induction false} OccConcat<T>(a: seq<Item<T>>, b: seq<Item<T>>, i: nat)
    ensures Occ(a + b, i) == Occ(a, i) + Occ(b, i)
  {
    if a == [] {
      assert a + b == b;
    } else {
      assert (a + b)[1..] == a[1..] + b;
      OccConcat(a[1..], b, i);
    }
  }

  lemma {:induction false} OccSnoc<T>(a: seq<Item<T>>, x: Item<T>, i: nat)
    ensures Occ(a + [x], i) == Occ(a, i) + if x.index == i then 1 else 0
  {
    OccConcat(a, [x], i);
  }

  lemma {:induction false} OccWithout<T>(q: seq<Item<T>>, j: nat, i: nat)
    requires j < |q|
    ensures Occ(q, i) == Occ(Without(q, j), i) + if q[j].index == i then 1 else 0
  {
    assert q == q[..j] + ([q[j]] + q[j + 1..]);
    OccConcat(q[..j], [q[j]] + q[j + 1..], i);
    OccConcat([q[j]], q[j + 1..], i);
    OccConcat(q[..j], q[j + 1..], i);
  }

  lemma {:induction false} OccChansUpdate<T>(cs: seq<Chan<T>>, c: nat, d: Chan<T>, i: nat)
    requires c < |cs|
    ensures OccChans(cs[c := d], i) + Occ(cs[c].queue, i) == OccChans(cs, i) + Occ(d.queue, i)
  {
    if c == 0 {
      assert cs[c := d][1..] == cs[1..];
    } else {
      assert cs[c := d][1..] == cs[1..][c - 1 := d];
      OccChansUpdate(cs[1..], c - 1, d, i);
    }
  }

  lemma {:induction false} OccStagesUpdate<T>(gs: seq<Stage<T>>, k: nat, h: Stage<T>, i: nat)
    requires k < |gs|
    ensures OccStages(gs[k := h], i) + Occ(gs[k].busy, i) + Occ(gs[k].sending, i)
         == OccStages(gs, i) + Occ(h.busy, i) + Occ(h.sending, i)
  {
    if k == 0 {
      assert gs[k := h][1..] == gs[1..];
    } else {
      assert gs[k := h][1..] == gs[1..][k - 1 := h];
      OccStagesUpdate(gs[1..], k - 1, h, i);
    }
  }

  lemma {:induction false} OccInit<T>(cs: seq<Chan<T>>, gs: seq<Stage<T>>, i: nat)
    requires forall c :: 0 <= c < |cs| ==> cs[c].queue == []
    requires forall k :: 0 <= k < |gs| ==> gs[k].busy == [] && gs[k].sending == []
    ensures OccChans(cs, i) == 0 && OccStages(gs, i) == 0
    decreases |cs| + |gs|
  {
    if cs != [] {
      OccInit(cs[1..], gs, i);
    } else if gs != [] {
      OccInit(cs, gs[1..], i);
    }
  }

  lemma {:induction false} OccPositive<T>(q: seq<Item<T>>, j: nat)
    requires j < |q|
    ensures Occ(q, q[j].index) >= 1
  {
    OccWithout(q, j, q[j].index);
  }

  lemma PlacesTake<T>(p: Plan<T>, s: State<T>, k: nat, i: nat)
    requires Shaped(p, s) && CanTake(p, s, k)
    ensures Places(DoTake(p, s, k), i) == Places(s, i)
  {
    var g, c := s.stages[k], s.chans[k];
    OccChansUpdate(s.chans, k, Chan(c.queue[1..], c.closed), i);
    OccStagesUpdate(s.stages, k, g.(idle := g.idle - 1, busy := g.busy + [c.queue[0]]), i);
    OccSnoc(g.busy, c.queue[0], i);
  }

  lemma {:induction false} PlacesInStage<T>(s: State<T>, t: State<T>, k: nat, i: nat)
    requires k < |s.stages| == |t.stages| && t.stages == s.stages[k := t.stages[k]]
    requires t.chans == s.chans && t.received == s.received
    ensures Places(t, i) + Occ(s.stages[k].busy, i) + Occ(s.stages[k].sending, i) + s.gone[i]
         == Places(s, i) + Occ(t.stages[k].busy, i) + Occ(t.stages[k].sending, i) + t.gone[i]
  {
    OccStagesUpdate(s.stages, k, t.stages[k], i);
  }

  lemma PlacesCompute<T>(p: Plan<T>, s: State<T>, k: nat, j: nat, i: nat)
    requires Shaped(p, s) && CanCompute(p, s, k, j)
    ensures Places(DoCompute(p, s, k, j), i) == Places(s, i)
  {
    var g := s.stages[k];
    var x := g.busy[j];
    var t := DoCompute(p, s, k, j);
    PlacesInStage(s, t, k, i);
    OccWithout(g.busy, j, i);
    var answer := p.work(k, x.index, x.value);
    if answer.Emit? {
      OccSnoc(g.sending, Item(x.index, answer.value), i);
    }
  }

  lemma PlacesSend<T>(p: Plan<T>, s: State<T>, k: nat, j: nat, i: nat)
    requires Shaped(p, s) && CanSend(p, s, k, j)
    ensures Places(DoSend(p, s, k, j), i) == Places(s, i)
  {
    var g, c := s.stages[k], s.chans[k + 1];
    OccChansUpdate(s.chans, k + 1, Chan(c.queue + [g.sending[j]], c.closed), i);
    OccStagesUpdate(s.stages, k, g.(idle := g.idle + 1, sending := Without(g.sending, j)), i);
    OccSnoc(c.queue, g.sending[j], i);
    OccWithout(g.sending, j, i);
  }

  lemma PlacesAbort<T>(p: Plan<T>, s: State<T>, k: nat, j: nat, i: nat)
    requires Shaped(p, s) && CanAbort(p, s, k, j)
    ensures Places(DoAbort(p, s, k, j), i) == Places(s, i)
  {
    var g := s.stages[k];
    OccStagesUpdate(s.stages, k, g.(exited := g.exited + 1, sending := Without(g.sending, j)), i);
    OccWithout(g.sending, j, i);
  }

  lemma PlacesConsume<T>(p: Plan<T>, s: State<T>, i: nat)
    requires Shaped(p, s) && CanConsume(p, s)
    ensures Places(DoConsume(p, s), i) == Places(s, i)
  {
    var c := s.chans[|p.stages|];
    var chans := s.chans[|p.stages| := Chan(c.queue[1..], c.closed)];
    assert OccChans(chans, i) + Occ(s.received + [c.queue[0]], i) == OccChans(s.chans, i) + Occ(s.received, i) by {
      OccChansUpdate(s.chans, |p.stages|, Chan(c.queue[1..], c.closed), i);
      OccSnoc(s.received, c.queue[0], i);
    }
    var t := DoConsume(p, s);
    assert t.chans == chans && t.received == s.received + [c.queue[0]] && t.stages == s.stages && t.gone == s.gone;
  }

  lemma PlacesRetire<T>(p: Plan<T>, s: State<T>, k: nat, i: nat)
    requires Shaped(p, s) && (CanRetire(p, s, k) || CanLeave(p, s, k))
    ensures Places(DoRetire(p, s, k), i) == Places(s, i)
  {
    var g := s.stages[k];
    OccStagesUpdate(s.stages, k, g.(idle := g.idle - 1, exited := g.exited + 1), i);
  }

  lemma PlacesCloser<T>(p: Plan<T>, s: State<T>, k: nat, i: nat)
    requires Shaped(p, s)
    ensures CanCloseOut(p, s, k) ==> Places(DoCloseOut(p, s, k), i) == Places(s, i)
    ensures CanReturn(p, s, k) ==> Places(DoReturn(p, s, k), i) == Places(s, i)
  {
    if CanCloseOut(p, s, k) {
      OccStagesUpdate(s.stages, k, s.stages[k].(closer := Closed), i);
      OccChansUpdate(s.chans, k + 1, Chan(s.chans[k + 1].queue, true), i);
    } else if CanReturn(p, s, k) {
      OccStagesUpdate(s.stages, k, s.stages[k].(closer := Returned), i);
    }
  }

  /** The only step that adds an occurrence is the producer's offer, and it adds a new index. */
  lemma StepPlaces<T>(p: Plan<T>, s: State<T>, a: Action, i: nat)
    requires Shaped(p, s) && Enabled(p, s, a)
    ensures Places(Apply(p, s, a), i) == Places(s, i) + if a.Offer? && i == s.next then 1 else 0
  {
    match a
    case Offer =>
      var c, item := s.chans[0], Item(s.next, p.inputs[s.next]);
      OccChansUpdate(s.chans, 0, Chan(c.queue + [item], c.closed), i);
      OccSnoc(c.queue, item, i);
    case CloseFeed => OccChansUpdate(s.chans, 0, Chan(s.chans[0].queue, true), i);
    case Take(k) => PlacesTake(p, s, k, i);
    case Compute(k, j) => PlacesCompute(p, s, k, j, i);
    case Send(k, j) => PlacesSend(p, s, k, j, i);
    case Abort(k, j) => PlacesAbort(p, s, k, j, i);
    case Retire(k) => PlacesRetire(p, s, k, i);
    case Leave(k) => PlacesRetire(p, s, k, i);
    case CloseOut(k) => PlacesCloser(p, s, k, i);
    case ReturnCloser(k) => PlacesCloser(p, s, k, i);
    case Consume => PlacesConsume(p, s, i);
    case _ =>
  }
}
