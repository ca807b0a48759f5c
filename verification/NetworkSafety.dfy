/**
 * What every step of a goroutine network keeps, whatever the schedule: no block is lost, doubled
 * or altered, and an error is reported exactly when there is a cause for one.
 */
module NetworkSafety {
  import opened Lists
  import opened Metatypes
  import opened Network

  // ---------------------------------------------------------------- values

  ghost predicate ItemOk<T>(p: Plan<T>, next: nat, level: nat, x: Item<T>) {
    x.index < next <= |p.inputs| && p.Trace(level, x.index) == Emit(x.value)
  }

  ghost predicate QueueOk<T>(p: Plan<T>, next: nat, level: nat, q: seq<Item<T>>) {
    forall j :: 0 <= j < |q| ==> ItemOk(p, next, level, q[j])
  }

  ghost predicate GoneOk<T>(p: Plan<T>, next: nat, doomed: bool, gone: multiset<nat>) {
    forall i :: i in gone ==> i < next <= |p.inputs| && (doomed || p.Result(i) == Skip)
  }

  /** Every item in flight carries what its stages made of the input with its index. */
  ghost predicate Values<T>(p: Plan<T>, s: State<T>) {
    && Shaped(p, s)
    && (forall c :: 0 <= c <= |p.stages| ==> QueueOk(p, s.next, c, s.chans[c].queue))
    && (forall k :: 0 <= k < |p.stages| ==> QueueOk(p, s.next, k, s.stages[k].busy))
    && (forall k :: 0 <= k < |p.stages| ==> QueueOk(p, s.next, k + 1, s.stages[k].sending))
    && QueueOk(p, s.next, |p.stages|, s.received)
    && GoneOk(p, s.next, s.doomed, s.gone)
  }

  /** A fault or a drop at one stage is what the whole network makes of that input. */
  lemma {:induction false} TraceStays<T>(p: Plan<T>, k: nat, n: nat, i: nat)
    requires i < |p.inputs| && k <= n && !p.Trace(k, i).Emit?
    ensures p.Trace(n, i) == p.Trace(k, i)
    decreases n
  {
    if k < n {
      TraceStays(p, k, n - 1, i);
    }
  }

  lemma ValuesOffer<T>(p: Plan<T>, s: State<T>)
    requires Values(p, s) && CanOffer(p, s)
    ensures Values(p, DoOffer(p, s))
  {
    var t := DoOffer(p, s);
    forall c | 0 <= c <= |p.stages|
      ensures QueueOk(p, t.next, c, t.chans[c].queue)
    {
      assert QueueOk(p, s.next, c, s.chans[c].queue);
    }
  }

  lemma ValuesTake<T>(p: Plan<T>, s: State<T>, k: nat)
    requires Values(p, s) && CanTake(p, s, k)
    ensures Values(p, DoTake(p, s, k))
  {
    assert QueueOk(p, s.next, k, s.chans[k].queue);
    assert QueueOk(p, s.next, k, DoTake(p, s, k).stages[k].busy);
  }

  /** Values does not depend on counters, flags and closers. */
  lemma ValuesFrame<T>(p: Plan<T>, s: State<T>, t: State<T>)
    requires Values(p, s) && Shaped(p, t)
    requires t.next == s.next && t.received == s.received && t.gone == s.gone && (s.doomed ==> t.doomed)
    requires forall c :: 0 <= c <= |p.stages| ==> t.chans[c].queue == s.chans[c].queue
    requires forall k :: 0 <= k < |p.stages| ==> t.stages[k].busy == s.stages[k].busy
    requires forall k :: 0 <= k < |p.stages| ==> t.stages[k].sending == s.stages[k].sending
    ensures Values(p, t)
  {
  }

  lemma ValuesCompute<T>(p: Plan<T>, s: State<T>, k: nat, j: nat)
    requires Values(p, s) && CanCompute(p, s, k, j)
    ensures Values(p, DoCompute(p, s, k, j))
  {
    var g := s.stages[k];
    var x := g.busy[j];
    var t := DoCompute(p, s, k, j);
    assert ItemOk(p, s.next, k, x);
    assert QueueOk(p, s.next, k, Without(g.busy, j));
    assert p.Trace(k + 1, x.index) == p.work(k, x.index, x.value);
    match p.work(k, x.index, x.value) {
      case Emit(v) => assert QueueOk(p, s.next, k + 1, g.sending + [Item(x.index, v)]);
      case Skip => TraceStays(p, k + 1, |p.stages|, x.index);
      case Fail =>
    }
    assert GoneOk(p, t.next, t.doomed, t.gone);
    assert QueueOk(p, t.next, k + 1, t.stages[k].sending);
  }

  lemma ValuesSend<T>(p: Plan<T>, s: State<T>, k: nat, j: nat)
    requires Values(p, s) && CanSend(p, s, k, j)
    ensures Values(p, DoSend(p, s, k, j))
  {
    var t := DoSend(p, s, k, j);
    assert QueueOk(p, s.next, k + 1, s.stages[k].sending);
    assert QueueOk(p, s.next, k + 1, t.stages[k].sending);
    assert QueueOk(p, s.next, k + 1, t.chans[k + 1].queue);
  }

  lemma ValuesAbort<T>(p: Plan<T>, s: State<T>, k: nat, j: nat)
    requires Values(p, s) && CanAbort(p, s, k, j)
    requires s.doomed
    ensures Values(p, DoAbort(p, s, k, j))
  {
    var t := DoAbort(p, s, k, j);
    assert ItemOk(p, s.next, k + 1, s.stages[k].sending[j]);
    assert QueueOk(p, s.next, k + 1, t.stages[k].sending);
  }

  lemma ValuesConsume<T>(p: Plan<T>, s: State<T>)
    requires Values(p, s) && CanConsume(p, s)
    ensures Values(p, DoConsume(p, s))
  {
    var n := |p.stages|;
    var c := s.chans[n];
    assert QueueOk(p, s.next, n, c.queue);
    var u := s.(chans := s.chans[n := Chan(c.queue[1..], c.closed)], received := s.received + [c.queue[0]]);
    assert QueueOk(p, s.next, n, u.chans[n].queue);
    assert QueueOk(p, s.next, n, u.received);
    ValuesFrame(p, u, DoConsume(p, s));
  }

  lemma ValuesStep<T>(p: Plan<T>, s: State<T>, a: Action)
    requires Values(p, s) && Enabled(p, s, a)
    requires a.Abort? ==> s.doomed
    ensures Values(p, Apply(p, s, a))
  {
    match a
    case Offer => ValuesOffer(p, s);
    case Take(k) => ValuesTake(p, s, k);
    case Compute(k, j) => ValuesCompute(p, s, k, j);
    case Send(k, j) => ValuesSend(p, s, k, j);
    case Abort(k, j) => ValuesAbort(p, s, k, j);
    case Consume => ValuesConsume(p, s);
    case _ => ValuesFrame(p, s, Apply(p, s, a));
  }

  // ---------------------------------------------------------------- control

  /**
   * A worker group and its closer. A worker leaves without error only on a drained channel or on
   * cancellation, and the output is closed only after all workers have left.
   */
  ghost predicate StageOk<T>(
    workers: nat, g: Stage<T>, input: Chan<T>, outputClosed: bool, err: bool, cancelled: bool, doomed: bool)
  {
    && g.idle + |g.busy| + |g.sending| + g.exited + g.failed == workers
    && (outputClosed <==> !g.closer.Waiting?)
    && (!g.closer.Waiting? ==> g.exited + g.failed == workers)
    && (g.closer.Returned? && g.failed > 0 ==> err)
    && (g.exited > 0 ==> (input.closed && input.queue == []) || cancelled)
    && (g.exited > 0 ==> (input.closed && input.queue == []) || doomed)
    && (g.failed > 0 ==> doomed)
  }

  ghost predicate StagesOk<T>(p: Plan<T>, s: State<T>)
    requires Shaped(p, s)
  {
    forall k :: 0 <= k < |p.stages| ==>
      StageOk(p.stages[k].workers, s.stages[k], s.chans[k], s.chans[k + 1].closed, s.err, s.cancelled, s.doomed)
  }

  ghost predicate SomeFailed<T>(s: State<T>) {
    exists k :: 0 <= k < |s.stages| && s.stages[k].failed > 0
  }

  /** How errors, cancellation and closed channels hang together. */
  ghost predicate FlagsOk<T>(p: Plan<T>, s: State<T>)
    requires Shaped(p, s)
  {
    && (s.err ==> s.cancelled && s.doomed)
    && (s.sink.Stopped? || s.sink.Rejected? ==> s.cancelled && s.doomed)
    && (s.sink.Rejected? ==> s.err)
    && (s.doomed ==> s.err || s.sink.Stopped? || SomeFailed(s))
    && (s.cancelled ==> s.doomed || (p.eager && !s.stages[0].closer.Waiting?))
    && (s.sink.Finished? ==> s.chans[|p.stages|].closed && s.chans[|p.stages|].queue == [])
    && (s.sink.Finished? && p.finishFails(s.received) ==> s.err)
  }

  ghost predicate ProducerOk<T>(p: Plan<T>, s: State<T>)
    requires Shaped(p, s)
  {
    && (s.chans[0].closed <==> s.producer.FeedClosed? || s.producer.Gone?)
    && (!s.producer.Reading? && !s.producer.Offering? ==> s.doomed || s.next == |p.inputs|)
    && (s.producer.Leaving? || s.producer.FeedClosed? ==>
          (s.producer.failing ==> p.endFails) && (p.endFails ==> s.producer.failing || s.doomed))
    && (s.producer.Gone? && p.endFails ==> s.doomed)
  }

  ghost predicate Control<T>(p: Plan<T>, s: State<T>) {
    Shaped(p, s) && StagesOk(p, s) && FlagsOk(p, s) && ProducerOk(p, s)
  }

  /** Only a fault cancels a network that still has something to send or a worker waiting for work. */
  lemma CancelIsDoom<T>(p: Plan<T>, s: State<T>)
    requires Control(p, s) && s.cancelled
    requires s.producer.Offering? ||
             exists k :: 0 <= k < |p.stages| && (s.stages[k].sending != [] || s.stages[k].idle > 0)
    ensures s.doomed
  {
    var _ := StageOk(p.stages[0].workers, s.stages[0], s.chans[0], s.chans[1].closed, s.err, s.cancelled, s.doomed);
  }

  lemma StagesFrame<T>(p: Plan<T>, s: State<T>, t: State<T>)
    requires Shaped(p, s) && StagesOk(p, s) && Shaped(p, t) && t.stages == s.stages
    requires s.err ==> t.err
    requires s.cancelled ==> t.cancelled
    requires s.doomed ==> t.doomed
    requires forall c :: 0 < c <= |p.stages| ==> t.chans[c].closed == s.chans[c].closed
    requires forall c :: 0 <= c < |p.stages| && s.chans[c].closed && s.chans[c].queue == [] ==>
      t.chans[c].closed && t.chans[c].queue == []
    ensures StagesOk(p, t)
  {
  }

  lemma ControlProducer<T>(p: Plan<T>, s: State<T>, a: Action)
    requires Control(p, s) && Enabled(p, s, a)
    requires a.Produce? || a.End? || a.Offer? || a.Quit? || a.CloseFeed? || a.LeaveProducer?
    ensures Control(p, Apply(p, s, a))
  {
    var t := Apply(p, s, a);
    if a.Quit? {
      CancelIsDoom(p, s);
    }
    StagesFrame(p, s, t);
  }

  lemma ControlSink<T>(p: Plan<T>, s: State<T>, a: Action)
    requires Control(p, s) && Enabled(p, s, a)
    requires a.Consume? || a.Finish?
    ensures Control(p, Apply(p, s, a))
  {
    StagesFrame(p, s, Apply(p, s, a));
  }

  lemma FailedStays<T>(s: State<T>, t: State<T>)
    requires |s.stages| == |t.stages|
    requires forall k :: 0 <= k < |s.stages| ==> s.stages[k].failed <= t.stages[k].failed
    ensures SomeFailed(s) ==> SomeFailed(t)
  {
    if k :| 0 <= k < |s.stages| && s.stages[k].failed > 0 {
      assert t.stages[k].failed > 0;
    }
  }

  /** Only stage k changed, and it is in order. */
  lemma StagesSet<T>(p: Plan<T>, s: State<T>, t: State<T>, k: nat)
    requires Shaped(p, s) && StagesOk(p, s) && Shaped(p, t) && k < |p.stages|
    requires t.stages == s.stages[k := t.stages[k]] && t.chans == s.chans
    requires s.err ==> t.err
    requires s.cancelled ==> t.cancelled
    requires s.doomed ==> t.doomed
    requires StageOk(p.stages[k].workers, t.stages[k], t.chans[k], t.chans[k + 1].closed, t.err, t.cancelled, t.doomed)
    ensures StagesOk(p, t)
  {
  }

  lemma ControlTake<T>(p: Plan<T>, s: State<T>, k: nat)
    requires Control(p, s) && CanTake(p, s, k)
    ensures Control(p, DoTake(p, s, k))
  {
    FailedStays(s, DoTake(p, s, k));
  }

  lemma ControlRetire<T>(p: Plan<T>, s: State<T>, k: nat)
    requires Control(p, s) && (CanRetire(p, s, k) || CanLeave(p, s, k))
    ensures Control(p, DoRetire(p, s, k))
  {
    if CanLeave(p, s, k) {
      CancelIsDoom(p, s);
    }
    FailedStays(s, DoRetire(p, s, k));
  }

  lemma ControlCompute<T>(p: Plan<T>, s: State<T>, k: nat, j: nat)
    requires Control(p, s) && CanCompute(p, s, k, j)
    ensures Control(p, DoCompute(p, s, k, j))
  {
    var t := DoCompute(p, s, k, j);
    var x := s.stages[k].busy[j];
    assert StageOk(p.stages[k].workers, s.stages[k], s.chans[k], s.chans[k + 1].closed, s.err, s.cancelled, s.doomed);
    StagesSet(p, s, t, k);
    FailedStays(s, t);
    if p.work(k, x.index, x.value).Fail? {
      assert t.stages[k].failed > 0;
    } else {
      assert t.doomed == s.doomed && t.cancelled == s.cancelled;
    }
  }

  lemma ControlSend<T>(p: Plan<T>, s: State<T>, k: nat, j: nat)
    requires Control(p, s) && CanSend(p, s, k, j)
    ensures Control(p, DoSend(p, s, k, j))
  {
    assert !s.chans[k + 1].closed;
    FailedStays(s, DoSend(p, s, k, j));
  }

  lemma ControlAbort<T>(p: Plan<T>, s: State<T>, k: nat, j: nat)
    requires Control(p, s) && CanAbort(p, s, k, j)
    ensures s.doomed && Control(p, DoAbort(p, s, k, j))
  {
    CancelIsDoom(p, s);
    FailedStays(s, DoAbort(p, s, k, j));
  }

  lemma ControlCloseOut<T>(p: Plan<T>, s: State<T>, k: nat)
    requires Control(p, s) && CanCloseOut(p, s, k)
    ensures Control(p, DoCloseOut(p, s, k))
  {
    FailedStays(s, DoCloseOut(p, s, k));
  }

  lemma ControlReturn<T>(p: Plan<T>, s: State<T>, k: nat)
    requires Control(p, s) && CanReturn(p, s, k)
    ensures Control(p, DoReturn(p, s, k))
  {
    var t := DoReturn(p, s, k);
    FailedStays(s, t);
    StagesSet(p, s, t, k);
  }

  lemma ControlStep<T>(p: Plan<T>, s: State<T>, a: Action)
    requires Control(p, s) && Enabled(p, s, a)
    ensures Control(p, Apply(p, s, a))
  {
    match a
    case Take(k) => ControlTake(p, s, k);
    case Retire(k) => ControlRetire(p, s, k);
    case Leave(k) => ControlRetire(p, s, k);
    case Compute(k, j) => ControlCompute(p, s, k, j);
    case Send(k, j) => ControlSend(p, s, k, j);
    case Abort(k, j) => ControlAbort(p, s, k, j);
    case CloseOut(k) => ControlCloseOut(p, s, k);
    case ReturnCloser(k) => ControlReturn(p, s, k);
    case Consume => ControlSink(p, s, a);
    case Finish => ControlSink(p, s, a);
    case _ => ControlProducer(p, s, a);
  }

  // ---------------------------------------------------------------- who is to blame

  /** Something in the environment makes the producer or some worker return an error. */
  ghost predicate Faulty<T>(p: Plan<T>) {
    p.endFails || exists i :: 0 <= i < |p.inputs| && p.Result(i).Fail?
  }

  /** The sink has seen each input exactly once, apart from the inputs a stage drops. */
  ghost predicate Complete<T>(p: Plan<T>, received: seq<Item<T>>) {
    forall i :: 0 <= i < |p.inputs| ==>
      !p.Result(i).Fail? && Occ(received, i) == if p.Result(i).Emit? then 1 else 0
  }

  ghost predicate Patient<T>(p: Plan<T>, received: seq<Item<T>>, n: nat) {
    n <= |received| && forall j :: 0 < j <= n ==> p.verdict(received[..j]) == Continue
  }

  /** The sink waits as long as its verdict says so, and leaves as its last verdict says. */
  ghost predicate SinkOk<T>(p: Plan<T>, s: State<T>) {
    var n := |s.received|;
    && (s.sink.Draining? || s.sink.Finished? ==> Patient(p, s.received, n))
    && (s.sink.Stopped? ==> n > 0 && Patient(p, s.received, n - 1) && p.verdict(s.received) == Stop)
    && (s.sink.Rejected? ==> n > 0 && Patient(p, s.received, n - 1) && p.verdict(s.received) == Reject)
  }

  ghost predicate Blame<T>(p: Plan<T>, s: State<T>) {
    && (s.err || SomeFailed(s) ==> Faulty(p) || s.sink.Rejected? || (s.sink.Finished? && p.finishFails(s.received)))
    && (s.sink.Finished? ==> Faulty(p) || Complete(p, s.received))
  }

  ghost predicate Placed<T>(s: State<T>) {
    forall i: nat :: Places(s, i) == if i < s.next then 1 else 0
  }

  ghost predicate Inv<T>(p: Plan<T>, s: State<T>) {
    Control(p, s) && Values(p, s) && Placed(s) && SinkOk(p, s) && Blame(p, s)
  }

  /** Without a fault, a closed channel has nothing left upstream. */
  lemma {:induction false} Drained<T>(p: Plan<T>, s: State<T>, c: nat)
    requires Control(p, s) && !s.doomed && c <= |p.stages| && s.chans[c].closed
    ensures s.next == |p.inputs|
    ensures forall k :: 0 <= k < c ==> s.chans[k].queue == [] && s.stages[k].busy == [] && s.stages[k].sending == []
  {
    if c > 0 {
      var k := c - 1;
      assert StageOk(p.stages[k].workers, s.stages[k], s.chans[k], s.chans[k + 1].closed, s.err, s.cancelled, s.doomed);
      Drained(p, s, k);
    }
  }

  lemma {:induction false} OccMember<T>(q: seq<Item<T>>, i: nat)
    requires Occ(q, i) > 0
    ensures exists j :: 0 <= j < |q| && q[j].index == i
  {
    if q[0].index != i {
      OccMember(q[1..], i);
      var j :| 0 <= j < |q[1..]| && q[1..][j].index == i;
      assert q[j + 1].index == i;
    }
  }

  lemma CompleteWhenDrained<T>(p: Plan<T>, s: State<T>)
    requires Control(p, s) && Values(p, s) && Placed(s) && !s.doomed
    requires s.chans[|p.stages|].closed && s.chans[|p.stages|].queue == []
    ensures Complete(p, s.received)
  {
    Drained(p, s, |p.stages|);
    forall i | 0 <= i < |p.inputs|
      ensures !p.Result(i).Fail? && Occ(s.received, i) == if p.Result(i).Emit? then 1 else 0
    {
      OccInit(s.chans, s.stages, i);
      assert Places(s, i) == 1;
      if Occ(s.received, i) > 0 {
        OccMember(s.received, i);
      } else {
        assert i in s.gone;
      }
    }
  }

  lemma SinkConsume<T>(p: Plan<T>, s: State<T>)
    requires Shaped(p, s) && CanConsume(p, s) && SinkOk(p, s)
    ensures SinkOk(p, DoConsume(p, s))
  {
    var received := s.received + [s.chans[|p.stages|].queue[0]];
    assert forall j :: 0 < j <= |s.received| ==> received[..j] == s.received[..j];
    assert received[..|received|] == received;
  }

  lemma SinkStep<T>(p: Plan<T>, s: State<T>, a: Action)
    requires Shaped(p, s) && Enabled(p, s, a) && SinkOk(p, s)
    ensures SinkOk(p, Apply(p, s, a))
  {
    if a.Consume? {
      SinkConsume(p, s);
    } else {
      var t := Apply(p, s, a);
      assert t.received == s.received && (t.sink == s.sink || (a.Finish? && t.sink.Finished?));
    }
  }

  lemma BlameCompute<T>(p: Plan<T>, s: State<T>, k: nat, j: nat)
    requires Values(p, s) && CanCompute(p, s, k, j) && Blame(p, s)
    ensures Blame(p, DoCompute(p, s, k, j))
  {
    var x := s.stages[k].busy[j];
    assert ItemOk(p, s.next, k, x);
    if p.work(k, x.index, x.value).Fail? {
      assert p.Trace(k + 1, x.index).Fail?;
      TraceStays(p, k + 1, |p.stages|, x.index);
      assert p.Result(x.index).Fail?;
    } else {
      FailedStays(DoCompute(p, s, k, j), s);
    }
  }

  /** A worker's return, a reader's error or the sink's decision. */
  lemma BlameSink<T>(p: Plan<T>, s: State<T>, a: Action)
    requires Inv(p, s) && Enabled(p, s, a) && (a.Consume? || a.Finish?)
    ensures Blame(p, Apply(p, s, a))
  {
    assert Apply(p, s, a).stages == s.stages;
    if a.Finish? && !s.doomed {
      CompleteWhenDrained(p, s);
    }
  }

  lemma BlameOther<T>(p: Plan<T>, s: State<T>, a: Action)
    requires Inv(p, s) && Enabled(p, s, a) && !a.Consume? && !a.Finish? && !a.Compute?
    ensures Blame(p, Apply(p, s, a))
  {
    var t := Apply(p, s, a);
    assert t.sink == s.sink && t.received == s.received;
    FailedStays(t, s);
  }

  lemma BlameStep<T>(p: Plan<T>, s: State<T>, a: Action)
    requires Inv(p, s) && Enabled(p, s, a)
    ensures Blame(p, Apply(p, s, a))
  {
    if a.Compute? {
      BlameCompute(p, s, a.k, a.j);
    } else if a.Consume? || a.Finish? {
      BlameSink(p, s, a);
    } else {
      BlameOther(p, s, a);
    }
  }

  lemma PlacedStep<T>(p: Plan<T>, s: State<T>, a: Action)
    requires Shaped(p, s) && Enabled(p, s, a) && Placed(s)
    ensures Placed(Apply(p, s, a))
  {
    var t := Apply(p, s, a);
    assert t.next == s.next + if a.Offer? then 1 else 0;
    forall i: nat
      ensures Places(t, i) == if i < t.next then 1 else 0
    {
      StepPlaces(p, s, a, i);
    }
  }

  lemma InvInit<T>(p: Plan<T>)
    requires p.Valid()
    ensures Inv(p, Init(p))
  {
    var s := Init(p);
    forall i: nat
      ensures Places(s, i) == 0
    {
      OccInit(s.chans, s.stages, i);
    }
  }

  lemma InvStep<T>(p: Plan<T>, s: State<T>, a: Action)
    requires Inv(p, s) && Enabled(p, s, a)
    ensures Inv(p, Apply(p, s, a))
  {
    if a.Abort? {
      ControlAbort(p, s, a.k, a.j);
    }
    ControlStep(p, s, a);
    ValuesStep(p, s, a);
    PlacedStep(p, s, a);
    SinkStep(p, s, a);
    BlameStep(p, s, a);
  }

  lemma {:induction false} InvRun<T>(p: Plan<T>, s: State<T>, run: seq<Action>)
    requires Inv(p, s) && Legal(p, s, run)
    ensures Inv(p, After(p, s, run))
    decreases |run|
  {
    if run != [] {
      InvStep(p, s, run[0]);
      InvRun(p, Apply(p, s, run[0]), run[1..]);
    }
  }

  lemma InvReachable<T>(p: Plan<T>, s: State<T>)
    requires p.Valid() && Reachable(p, s)
    ensures Inv(p, s)
  {
    var run :| Legal(p, Init(p), run) && After(p, Init(p), run) == s;
    InvInit(p);
    InvRun(p, Init(p), run);
  }

  // ---------------------------------------------------------------- main results

  /** Results the sink has so far: no index twice, each with the value its stages computed. */
  ghost predicate Sound<T>(p: Plan<T>, received: seq<Item<T>>) {
    && (forall j :: 0 <= j < |received| ==>
          received[j].index < |p.inputs| && p.Result(received[j].index) == Emit(received[j].value))
    && (forall i, j :: 0 <= i < j < |received| ==> received[i].index != received[j].index)
  }

  /** In every state of every run, failing ones included, what the sink has is sound. */
  lemma ReceivedSound<T>(p: Plan<T>, s: State<T>)
    requires p.Valid() && Reachable(p, s)
    ensures Sound(p, s.received)
    ensures SinkOk(p, s)
  {
    InvReachable(p, s);
    forall i, j | 0 <= i < j < |s.received|
      ensures s.received[i].index != s.received[j].index
    {
      var x := s.received[i].index;
      assert Places(s, x) <= 1;
      OccWithout(s.received, j, x);
      OccPositive(Without(s.received, j), i);
    }
  }

  /** An error group whose members have all returned without error, and whose sink drained everything. */
  lemma NoErrorNoLoss<T>(p: Plan<T>, s: State<T>)
    requires p.Valid() && Reachable(p, s) && Quiescent(s) && !s.err && !s.sink.Stopped?
    ensures s.sink.Finished? && Complete(p, s.received)
    ensures !Faulty(p) && !p.finishFails(s.received)
  {
    InvReachable(p, s);
    forall k | 0 <= k < |s.stages|
      ensures s.stages[k].failed == 0
    {
      assert StageOk(p.stages[k].workers, s.stages[k], s.chans[k], s.chans[k + 1].closed, s.err, s.cancelled, s.doomed);
    }
    CompleteWhenDrained(p, s);
  }

  /** An error has a cause: the reader, a worker's call, the sink, or a sink that refuses a complete delivery. */
  lemma ErrorHasCause<T>(p: Plan<T>, s: State<T>)
    requires p.Valid() && Reachable(p, s) && s.err
    ensures Faulty(p) || s.sink.Rejected? ||
            (s.sink.Finished? && Complete(p, s.received) && p.finishFails(s.received))
  {
    InvReachable(p, s);
  }

  // ---------------------------------------------------------------- which error is kept

  /** This step is a call that fails, and the item it is about. */
  predicate FailsNow<T>(p: Plan<T>, s: State<T>, a: Action)
    requires Shaped(p, s) && Enabled(p, s, a)
  {
    a.Compute? && var x := s.stages[a.k].busy[a.j]; p.work(a.k, x.index, x.value).Fail?
  }

  /** The item whose call is the first to fail in this run: the error that an error group keeps. */
  ghost function FirstFail<T>(p: Plan<T>, s: State<T>, run: seq<Action>): Option<nat>
    requires Legal(p, s, run)
    decreases |run|
  {
    if run == [] then None
    else if FailsNow(p, s, run[0]) then Some(s.stages[run[0].k].busy[run[0].j].index)
    else FirstFail(p, Apply(p, s, run[0]), run[1..])
  }

  /** Only workers can fail. */
  ghost predicate OnlyWorkersFail<T>(p: Plan<T>) {
    !p.endFails && p.verdict == NeverStops() && p.finishFails == NeverFails()
  }

  lemma StaysCalm<T>(p: Plan<T>, s: State<T>, a: Action)
    requires Inv(p, s) && Enabled(p, s, a) && OnlyWorkersFail(p) && !s.doomed && !FailsNow(p, s, a)
    ensures !Apply(p, s, a).doomed
  {
    if a.ReturnCloser? {
      assert StageOk(p.stages[a.k].workers, s.stages[a.k], s.chans[a.k], s.chans[a.k + 1].closed,
        s.err, s.cancelled, s.doomed);
    }
  }

  lemma FailingItem<T>(p: Plan<T>, s: State<T>, a: Action)
    requires Inv(p, s) && Enabled(p, s, a) && FailsNow(p, s, a)
    ensures var i := s.stages[a.k].busy[a.j].index; i < |p.inputs| && p.Result(i).Fail?
  {
    var x := s.stages[a.k].busy[a.j];
    assert ItemOk(p, s.next, a.k, x);
    TraceStays(p, a.k + 1, |p.stages|, x.index);
  }

  lemma {:induction false} FirstFailRun<T>(p: Plan<T>, s: State<T>, run: seq<Action>)
    requires Inv(p, s) && Legal(p, s, run) && OnlyWorkersFail(p) && !s.doomed
    ensures FirstFail(p, s, run).None? ==> !After(p, s, run).doomed
    ensures
      var first := FirstFail(p, s, run);
      first.Some? ==> first.value < |p.inputs| && p.Result(first.value).Fail?
    decreases |run|
  {
    if run != [] {
      if FailsNow(p, s, run[0]) {
        FailingItem(p, s, run[0]);
      } else {
        StaysCalm(p, s, run[0]);
        InvStep(p, s, run[0]);
        FirstFailRun(p, Apply(p, s, run[0]), run[1..]);
      }
    }
  }

  /** When only workers can fail, an error is that of the first call that failed. */
  lemma {:induction false} FirstErrorIsKept<T>(p: Plan<T>, run: seq<Action>)
    requires p.Valid() && OnlyWorkersFail(p) && Legal(p, Init(p), run) && After(p, Init(p), run).err
    ensures
      var first := FirstFail(p, Init(p), run);
      first.Some? && first.value < |p.inputs| && p.Result(first.value).Fail?
  {
    InvInit(p);
    FirstFailRun(p, Init(p), run);
    InvRun(p, Init(p), run);
  }
}
