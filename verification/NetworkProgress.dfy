/**
 * No schedule of a goroutine network gets stuck or runs forever: as long as some goroutine has
 * not returned, some step is possible, and every step lowers a natural number.
 */
module NetworkProgress {
  import opened Network
  import opened NetworkSafety

  /** A stage that is not waiting for its consumer can move, or someone before it can. */
  lemma {:induction false} UpstreamMoves<T>(p: Plan<T>, s: State<T>, k: nat)
    requires Control(p, s) && k < |p.stages| && s.stages[k].closer.Waiting?
    requires |s.chans[k + 1].queue| < p.Capacity(k + 1) || s.cancelled
    ensures exists a :: Enabled(p, s, a)
  {
    var g := s.stages[k];
    assert StageOk(p.stages[k].workers, g, s.chans[k], s.chans[k + 1].closed, s.err, s.cancelled, s.doomed);
    if g.busy != [] {
      assert Enabled(p, s, Compute(k, 0));
    } else if g.sending != [] {
      assert Enabled(p, s, Abort(k, 0)) || Enabled(p, s, Send(k, 0));
    } else if g.idle == 0 {
      assert Enabled(p, s, CloseOut(k));
    } else if s.chans[k].queue != [] {
      assert Enabled(p, s, Take(k));
    } else if s.chans[k].closed {
      assert Enabled(p, s, Retire(k));
    } else if k > 0 {
      assert StageOk(p.stages[k - 1].workers, s.stages[k - 1], s.chans[k - 1], s.chans[k].closed,
                     s.err, s.cancelled, s.doomed);
      UpstreamMoves(p, s, k - 1);
    } else {
      ProducerMoves(p, s);
    }
  }

  lemma ProducerMoves<T>(p: Plan<T>, s: State<T>)
    requires Control(p, s) && !s.producer.Gone?
    requires s.producer.Offering? ==> s.chans[0].queue == [] || s.cancelled
    ensures exists a :: Enabled(p, s, a)
  {
    match s.producer
    case Reading => assert Enabled(p, s, Produce) || Enabled(p, s, End);
    case Offering => assert Enabled(p, s, Offer) || Enabled(p, s, Quit);
    case Leaving(_) => assert Enabled(p, s, CloseFeed);
    case FeedClosed(_) => assert Enabled(p, s, LeaveProducer);
  }

  /** Once all consumers of a channel that is still open have left, the context is cancelled. */
  lemma AbandonedMeansCancelled<T>(p: Plan<T>, s: State<T>, k: nat)
    requires Control(p, s) && k < |p.stages| && s.stages[k].closer.Returned? && !s.chans[k].closed
    ensures s.cancelled
  {
    assert StageOk(p.stages[k].workers, s.stages[k], s.chans[k], s.chans[k + 1].closed, s.err, s.cancelled, s.doomed);
  }

  /** The sink and the closers of all stages from c on have returned. */
  lemma {:induction false} LeftoversMove<T>(p: Plan<T>, s: State<T>, c: nat)
    requires Control(p, s) && c <= |p.stages| && !s.sink.Draining? && !Quiescent(s)
    requires forall k :: c <= k < |p.stages| ==> s.stages[k].closer.Returned?
    ensures exists a :: Enabled(p, s, a)
    decreases c
  {
    if c == 0 {
      if s.producer.Offering? {
        AbandonedMeansCancelled(p, s, 0);
      }
      ProducerMoves(p, s);
    } else {
      var k := c - 1;
      match s.stages[k].closer
      case Closed => assert Enabled(p, s, ReturnCloser(k));
      case Returned => LeftoversMove(p, s, k);
      case Waiting =>
        assert StageOk(p.stages[k].workers, s.stages[k], s.chans[k], s.chans[c].closed, s.err, s.cancelled, s.doomed);
        if c < |p.stages| {
          AbandonedMeansCancelled(p, s, c);
        }
        UpstreamMoves(p, s, k);
    }
  }

  /** Deadlock freedom: in every reachable state some step is possible, unless all goroutines have returned. */
  lemma DeadlockFree<T>(p: Plan<T>, s: State<T>)
    requires p.Valid() && Reachable(p, s)
    ensures Shaped(p, s) && (Quiescent(s) || exists a :: Enabled(p, s, a))
  {
    InvReachable(p, s);
    var n := |p.stages|;
    if !s.sink.Draining? {
      if !Quiescent(s) {
        LeftoversMove(p, s, n);
      }
    } else if s.chans[n].queue != [] {
      assert Enabled(p, s, Consume);
    } else if s.chans[n].closed {
      assert Enabled(p, s, Finish);
    } else {
      assert StageOk(p.stages[n - 1].workers, s.stages[n - 1], s.chans[n - 1], s.chans[n].closed,
                     s.err, s.cancelled, s.doomed);
      UpstreamMoves(p, s, n - 1);
    }
  }

  // ---------------------------------------------------------------- termination

  function ClosersLeft(c: Closer): nat {
    match c case Waiting => 2 case Closed => 1 case Returned => 0
  }

  function ProducerLeft(r: Producer): nat {
    match r case Reading => 4 case Offering => 3 case Leaving(_) => 2 case FeedClosed(_) => 1 case Gone => 0
  }

  /** Steps left for what is queued, when an item in the first channel has `top` steps to go. */
  function QueuedWork<T>(cs: seq<Chan<T>>, top: int): int {
    if cs == [] then 0 else |cs[0].queue| * top + QueuedWork(cs[1..], top - 3)
  }

  function StageWork<T>(g: Stage<T>, top: int): int {
    |g.busy| * (top - 1) + |g.sending| * (top - 2) + (g.idle + |g.busy| + |g.sending|) + ClosersLeft(g.closer)
  }

  function HeldWork<T>(gs: seq<Stage<T>>, top: int): int {
    if gs == [] then 0 else StageWork(gs[0], top) + HeldWork(gs[1..], top - 3)
  }

  /** Steps from the feed to the sink: take, compute and send per stage, and the final receive. */
  function Path<T>(p: Plan<T>): nat {
    3 * |p.stages| + 1
  }

  /** An upper bound on the number of steps left. */
  function Fuel<T>(p: Plan<T>, s: State<T>): int {
    (|p.inputs| - s.next) * (Path(p) + 2) + ProducerLeft(s.producer) +
    QueuedWork(s.chans, Path(p)) + HeldWork(s.stages, Path(p)) + (if s.sink.Draining? then 1 else 0)
  }

  /** d * x for a change d of at most one. */
  function Times(d: int, x: int): int {
    if d == 1 then x else if d == -1 then -x else 0
  }

  lemma {:induction false} QueuedUpdate<T>(cs: seq<Chan<T>>, c: nat, d: Chan<T>, top: int)
    requires c < |cs| && -1 <= |d.queue| - |cs[c].queue| <= 1
    ensures QueuedWork(cs[c := d], top) == QueuedWork(cs, top) + Times(|d.queue| - |cs[c].queue|, top - 3 * c)
  {
    if c == 0 {
      assert cs[c := d][1..] == cs[1..];
      assert (|d.queue| - |cs[0].queue|) * top == |d.queue| * top - |cs[0].queue| * top;
    } else {
      assert cs[c := d][1..] == cs[1..][c - 1 := d];
      QueuedUpdate(cs[1..], c - 1, d, top - 3);
    }
  }

  lemma {:induction false} HeldUpdate<T>(gs: seq<Stage<T>>, k: nat, h: Stage<T>, top: int)
    requires k < |gs|
    ensures HeldWork(gs[k := h], top) == HeldWork(gs, top) - StageWork(gs[k], top - 3 * k) + StageWork(h, top - 3 * k)
  {
    if k == 0 {
      assert gs[k := h][1..] == gs[1..];
    } else {
      assert gs[k := h][1..] == gs[1..][k - 1 := h];
      HeldUpdate(gs[1..], k - 1, h, top - 3);
    }
  }

  lemma {:induction false} WorkNonNegative<T>(cs: seq<Chan<T>>, gs: seq<Stage<T>>, top: int)
    requires top >= 3 * |gs| + 1 && |cs| <= |gs| + 1
    ensures QueuedWork(cs, top) >= 0 && HeldWork(gs, top) >= 0
    decreases |cs| + |gs|
  {
    if cs != [] && gs != [] {
      WorkNonNegative(cs[1..], gs[1..], top - 3);
      assert |cs[0].queue| * top >= 0;
      assert |gs[0].busy| * (top - 1) >= 0 && |gs[0].sending| * (top - 2) >= 0;
    } else if cs != [] {
      assert |cs[0].queue| * top >= 0;
      assert cs[1..] == [];
    } else if gs != [] {
      WorkNonNegative(cs, gs[1..], top - 3);
      assert |gs[0].busy| * (top - 1) >= 0 && |gs[0].sending| * (top - 2) >= 0;
    }
  }

  lemma FuelNonNegative<T>(p: Plan<T>, s: State<T>)
    requires Shaped(p, s)
    ensures Fuel(p, s) >= 0
  {
    WorkNonNegative(s.chans, s.stages, Path(p));
  }

  lemma StageWorkChange<T>(g: Stage<T>, h: Stage<T>, top: int)
    requires -1 <= |h.busy| - |g.busy| <= 1 && -1 <= |h.sending| - |g.sending| <= 1
    ensures StageWork(h, top) - StageWork(g, top)
         == Times(|h.busy| - |g.busy|, top - 1) + Times(|h.sending| - |g.sending|, top - 2)
            + (h.idle + |h.busy| + |h.sending|) - (g.idle + |g.busy| + |g.sending|)
            + ClosersLeft(h.closer) - ClosersLeft(g.closer)
  {
    assert (|h.busy| - |g.busy|) * (top - 1) == |h.busy| * (top - 1) - |g.busy| * (top - 1);
    assert (|h.sending| - |g.sending|) * (top - 2) == |h.sending| * (top - 2) - |g.sending| * (top - 2);
  }

  /** A step that changes stage k and at most one channel. */
  lemma FuelChange<T>(p: Plan<T>, s: State<T>, t: State<T>, k: nat, c: nat)
    requires Shaped(p, s) && Shaped(p, t) && k < |p.stages| && c <= |p.stages|
    requires t.stages == s.stages[k := t.stages[k]] && t.chans == s.chans[c := t.chans[c]]
    requires t.next == s.next && t.producer == s.producer && t.sink == s.sink
    requires -1 <= |t.chans[c].queue| - |s.chans[c].queue| <= 1
    ensures Fuel(p, t) - Fuel(p, s)
         == StageWork(t.stages[k], Path(p) - 3 * k) - StageWork(s.stages[k], Path(p) - 3 * k)
            + Times(|t.chans[c].queue| - |s.chans[c].queue|, Path(p) - 3 * c)
  {
    HeldUpdate(s.stages, k, t.stages[k], Path(p));
    QueuedUpdate(s.chans, c, t.chans[c], Path(p));
  }

  lemma FuelOffer<T>(p: Plan<T>, s: State<T>)
    requires Shaped(p, s) && CanOffer(p, s)
    ensures Fuel(p, DoOffer(p, s)) < Fuel(p, s)
  {
    var c, item := s.chans[0], Item(s.next, p.inputs[s.next]);
    QueuedUpdate(s.chans, 0, Chan(c.queue + [item], c.closed), Path(p));
    var left := |p.inputs| - s.next;
    assert (left - 1) * (Path(p) + 2) == left * (Path(p) + 2) - (Path(p) + 2);
  }

  lemma FuelTake<T>(p: Plan<T>, s: State<T>, k: nat)
    requires Shaped(p, s) && CanTake(p, s, k)
    ensures Fuel(p, DoTake(p, s, k)) < Fuel(p, s)
  {
    var t := DoTake(p, s, k);
    FuelChange(p, s, t, k, k);
    StageWorkChange(s.stages[k], t.stages[k], Path(p) - 3 * k);
  }

  /** A call that returns changes nothing but its own stage. */
  lemma ComputeShape<T>(p: Plan<T>, s: State<T>, k: nat, j: nat)
    requires Shaped(p, s) && CanCompute(p, s, k, j)
    ensures var t := DoCompute(p, s, k, j);
      && Shaped(p, t) && t.stages == s.stages[k := t.stages[k]] && t.chans == s.chans
      && t.next == s.next && t.producer == s.producer && t.sink == s.sink
      && |t.stages[k].busy| == |s.stages[k].busy| - 1 && t.stages[k].closer == s.stages[k].closer
      && t.stages[k].idle + |t.stages[k].sending| <= s.stages[k].idle + |s.stages[k].sending| + 1
      && |s.stages[k].sending| <= |t.stages[k].sending| <= |s.stages[k].sending| + 1
      && t.stages[k].idle >= s.stages[k].idle
  {
  }

  lemma FuelCompute<T>(p: Plan<T>, s: State<T>, k: nat, j: nat)
    requires Shaped(p, s) && CanCompute(p, s, k, j)
    ensures Fuel(p, DoCompute(p, s, k, j)) < Fuel(p, s)
  {
    var t := DoCompute(p, s, k, j);
    ComputeShape(p, s, k, j);
    FuelChange(p, s, t, k, k);
    StageWorkChange(s.stages[k], t.stages[k], Path(p) - 3 * k);
  }

  lemma FuelSend<T>(p: Plan<T>, s: State<T>, k: nat, j: nat)
    requires Shaped(p, s) && CanSend(p, s, k, j)
    ensures Fuel(p, DoSend(p, s, k, j)) < Fuel(p, s)
  {
    var t := DoSend(p, s, k, j);
    FuelChange(p, s, t, k, k + 1);
    StageWorkChange(s.stages[k], t.stages[k], Path(p) - 3 * k);
  }

  lemma FuelAbort<T>(p: Plan<T>, s: State<T>, k: nat, j: nat)
    requires Shaped(p, s) && CanAbort(p, s, k, j)
    ensures Fuel(p, DoAbort(p, s, k, j)) < Fuel(p, s)
  {
    var t := DoAbort(p, s, k, j);
    FuelChange(p, s, t, k, k);
    StageWorkChange(s.stages[k], t.stages[k], Path(p) - 3 * k);
  }

  lemma FuelRetire<T>(p: Plan<T>, s: State<T>, k: nat)
    requires Shaped(p, s) && (CanRetire(p, s, k) || CanLeave(p, s, k))
    ensures Fuel(p, DoRetire(p, s, k)) < Fuel(p, s)
  {
    var t := DoRetire(p, s, k);
    FuelChange(p, s, t, k, k);
    StageWorkChange(s.stages[k], t.stages[k], Path(p) - 3 * k);
  }

  lemma FuelCloseOut<T>(p: Plan<T>, s: State<T>, k: nat)
    requires Shaped(p, s) && CanCloseOut(p, s, k)
    ensures Fuel(p, DoCloseOut(p, s, k)) < Fuel(p, s)
  {
    var t := DoCloseOut(p, s, k);
    FuelChange(p, s, t, k, k + 1);
    StageWorkChange(s.stages[k], t.stages[k], Path(p) - 3 * k);
  }

  lemma FuelReturn<T>(p: Plan<T>, s: State<T>, k: nat)
    requires Shaped(p, s) && CanReturn(p, s, k)
    ensures Fuel(p, DoReturn(p, s, k)) < Fuel(p, s)
  {
    var t := DoReturn(p, s, k);
    FuelChange(p, s, t, k, k);
    StageWorkChange(s.stages[k], t.stages[k], Path(p) - 3 * k);
  }

  lemma FuelConsume<T>(p: Plan<T>, s: State<T>)
    requires Shaped(p, s) && CanConsume(p, s)
    ensures Fuel(p, DoConsume(p, s)) < Fuel(p, s)
  {
    var n := |p.stages|;
    QueuedUpdate(s.chans, n, Chan(s.chans[n].queue[1..], s.chans[n].closed), Path(p));
  }

  /** Every step, of whatever goroutine, on error and cancel paths too, lowers the bound. */
  lemma StepBurnsFuel<T>(p: Plan<T>, s: State<T>, a: Action)
    requires Shaped(p, s) && Enabled(p, s, a)
    ensures Fuel(p, Apply(p, s, a)) < Fuel(p, s)
  {
    match a
    case Offer => FuelOffer(p, s);
    case CloseFeed => QueuedUpdate(s.chans, 0, Chan(s.chans[0].queue, true), Path(p));
    case Take(k) => FuelTake(p, s, k);
    case Compute(k, j) => FuelCompute(p, s, k, j);
    case Send(k, j) => FuelSend(p, s, k, j);
    case Abort(k, j) => FuelAbort(p, s, k, j);
    case Retire(k) => FuelRetire(p, s, k);
    case Leave(k) => FuelRetire(p, s, k);
    case CloseOut(k) => FuelCloseOut(p, s, k);
    case ReturnCloser(k) => FuelReturn(p, s, k);
    case Consume => FuelConsume(p, s);
    case _ =>
  }

  /** Termination: no schedule is longer than the bound of the state it starts from. */
  lemma {:induction false} RunsAreBounded<T>(p: Plan<T>, s: State<T>, run: seq<Action>)
    requires Legal(p, s, run)
    ensures |run| <= Fuel(p, s)
    decreases |run|
  {
    FuelNonNegative(p, s);
    if run != [] {
      StepBurnsFuel(p, s, run[0]);
      RunsAreBounded(p, Apply(p, s, run[0]), run[1..]);
    }
  }

  lemma {:induction false} ExtendRun<T>(p: Plan<T>, s: State<T>, run: seq<Action>, a: Action)
    requires Legal(p, s, run) && Shaped(p, After(p, s, run)) && Enabled(p, After(p, s, run), a)
    requires Shaped(p, Apply(p, After(p, s, run), a))
    ensures Legal(p, s, run + [a]) && After(p, s, run + [a]) == Apply(p, After(p, s, run), a)
    decreases |run|
  {
    if run == [] {
      assert run + [a] == [a];
      assert Legal(p, Apply(p, s, a), []);
    } else {
      assert (run + [a])[1..] == run[1..] + [a];
      ExtendRun(p, Apply(p, s, run[0]), run[1..], a);
    }
  }

  lemma StepReachable<T>(p: Plan<T>, s: State<T>, a: Action)
    requires p.Valid() && Reachable(p, s) && Shaped(p, s) && Enabled(p, s, a)
    ensures Reachable(p, Apply(p, s, a)) && Shaped(p, Apply(p, s, a))
  {
    var run :| Legal(p, Init(p), run) && After(p, Init(p), run) == s;
    InvReachable(p, s);
    InvStep(p, s, a);
    ExtendRun(p, Init(p), run, a);
  }

  /** From every reachable state there is a run at whose end all goroutines have returned. */
  lemma {:induction false} EveryRunCompletes<T>(p: Plan<T>, s: State<T>)
    requires p.Valid() && Reachable(p, s)
    ensures exists run :: Legal(p, s, run) && Quiescent(After(p, s, run))
    decreases Fuel(p, s)
  {
    DeadlockFree(p, s);
    FuelNonNegative(p, s);
    if Quiescent(s) {
      assert Legal(p, s, []) && After(p, s, []) == s;
    } else {
      var a :| Enabled(p, s, a);
      var t := Apply(p, s, a);
      StepReachable(p, s, a);
      StepBurnsFuel(p, s, a);
      FuelNonNegative(p, t);
      EveryRunCompletes(p, t);
      var rest :| Legal(p, t, rest) && Quiescent(After(p, t, rest));
      PrependStep(p, s, a, rest);
    }
  }

  lemma {:induction false} PrependStep<T>(p: Plan<T>, s: State<T>, a: Action, rest: seq<Action>)
    requires Shaped(p, s) && Enabled(p, s, a) && Legal(p, Apply(p, s, a), rest)
    ensures Legal(p, s, [a] + rest) && After(p, s, [a] + rest) == After(p, Apply(p, s, a), rest)
  {
    assert ([a] + rest)[1..] == rest;
  }

  /** A schedule that cannot be continued. */
  ghost predicate Maximal<T>(p: Plan<T>, run: seq<Action>) {
    Legal(p, Init(p), run) && Shaped(p, After(p, Init(p), run)) && forall a :: !Enabled(p, After(p, Init(p), run), a)
  }

  /** Every schedule is finite, and when it cannot be continued all goroutines have returned. */
  lemma {:induction false} MaximalRunsComplete<T>(p: Plan<T>, run: seq<Action>)
    requires p.Valid() && Maximal(p, run)
    ensures |run| <= Fuel(p, Init(p)) && Reachable(p, After(p, Init(p), run)) && Quiescent(After(p, Init(p), run))
  {
    RunsAreBounded(p, Init(p), run);
    DeadlockFree(p, After(p, Init(p), run));
  }

  /** Some schedule completes. */
  lemma SomeRunCompletes<T>(p: Plan<T>) returns (s: State<T>)
    requires p.Valid()
    ensures Reachable(p, s) && Quiescent(s)
  {
    assert Legal(p, Init(p), []) && After(p, Init(p), []) == Init(p);
    EveryRunCompletes(p, Init(p));
    var run :| Legal(p, Init(p), run) && Quiescent(After(p, Init(p), run));
    s := After(p, Init(p), run);
  }

  /** All of this for any network. */
  lemma {:induction false} NeverHangs<T>(p: Plan<T>, s: State<T>, run: seq<Action>)
    requires p.Valid() && Reachable(p, s)
    ensures Shaped(p, s) && (Quiescent(s) || exists a :: Enabled(p, s, a))
    ensures Legal(p, s, run) ==> |run| <= Fuel(p, s)
    ensures Maximal(p, run) ==> Quiescent(After(p, Init(p), run))
  {
    DeadlockFree(p, s);
    if Legal(p, s, run) {
      RunsAreBounded(p, s, run);
    }
    if Maximal(p, run) {
      MaximalRunsComplete(p, run);
    }
  }
}
