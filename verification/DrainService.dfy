/** The whole chain of main in one machine: worker pools, and behind the last of
    them the outcome worker with its goroutine, its batch and its writes.

    The machine refines the chain of pools: seen from the chain, the outcome
    worker is a pool of one, which is busy while its goroutine holds an outcome
    and exits when the event loop returns. */
module DrainService {
  import opened Options
  import opened Sequences
  import opened DrainChain
  import opened DrainSafety
  import opened DrainTheorems
  import OW = OutcomeWorker

  /** `capacity` is the buffer of the outcome pipeline, whose queue is the
      worker's; the rest is as in a chain. */
  datatype Service = Service(pools: seq<Stage>, capacity: nat, sink: OW.Worker<Item>, pos: nat, waiting: bool,
                             submits: map<nat, Submit>, raced: bool, refused: bool)

  datatype Act = Pools(step: Step) | Sink(act: OW.Step<Item>)

  function Init(sizes: seq<(nat, nat)>, capacity: nat, queueSize: nat): Service {
    Service(DrainChain.Init(sizes).stages, capacity, OW.Init<Item>(queueSize), 0, false, map[], false, false)
  }

  // ---- the service as a chain ----------------------------------------------------------------

  function SinkWorker(w: OW.Worker<Item>): Worker {
    if w.exited then Exited else if w.hand.Some? then Busy(w.hand.value.children) else Receiving
  }

  function SinkStage(w: OW.Worker<Item>, capacity: nat): Stage {
    Stage(capacity, w.accepted, if |w.queue| <= |w.accepted| then |w.accepted| - |w.queue| else 0, w.closed, [SinkWorker(w)])
  }

  function Seen(y: Service): Chain {
    Chain(y.pools + [SinkStage(y.sink, y.capacity)], y.pos, y.waiting, y.submits, y.raced, y.refused)
  }

  // ---- steps --------------------------------------------------------------------------------

  /** A step the outcome worker takes itself. */
  predicate IsSinks(step: Step, n: nat) {
    (step.Receive? || step.Emit? || step.Handoff? || step.Finish? || step.Exit?) && step.k == n
  }

  predicate IntoSink(step: Step, n: nat) {
    (step.Emit? || step.Handoff?) && step.k + 1 == n
  }

  /** What the outcome worker does while its context is live; outcomes arrive and
      the queue is closed by steps of the pools. */
  predicate IsLive(act: OW.Step<Item>) {
    act.Receive? || act.EndReceiving? || act.HandOver? || act.Tick? || act.Finish?
  }

  predicate Enabled(y: Service, act: Act) {
    match act
    case Pools(step) =>
      && DrainChain.Enabled(Seen(y), step) && !IsSinks(step, |y.pools|)
      && (IntoSink(step, |y.pools|) && step.Handoff? ==> y.sink.receiving && y.sink.hand.None? && |y.sink.queue| == 0)
    case Sink(act) => OW.Enabled(y.sink, act) && IsLive(act)
  }

  /** The item a worker is about to hand on. */
  function Next(y: Service, step: Step): Item
    requires Enabled(y, Pools(step)) && (step.Emit? || step.Handoff?)
  {
    Seen(y).stages[step.k].workers[step.w].left[0]
  }

  /** What a step of the pools does to the outcome worker. */
  function Feed(y: Service, step: Step): OW.Worker<Item>
    requires Enabled(y, Pools(step))
  {
    if step.Close? && y.pos == |y.pools| then OW.Do(y.sink, OW.CloseQueue)
    else if !IntoSink(step, |y.pools|) || y.sink.closed then y.sink
    else
      var fed := OW.Do(y.sink, OW.Arrive(Next(y, step)));
      if step.Emit? then fed else OW.Do(fed, OW.Receive)
  }

  function Do(y: Service, act: Act): Service
    requires Enabled(y, act)
  {
    match act
    case Sink(act) => y.(sink := OW.Do(y.sink, act))
    case Pools(step) =>
      var c := DrainChain.Do(Seen(y), step);
      var n := if |y.pools| <= |c.stages| then |y.pools| else 0;
      Service(c.stages[..n], y.capacity, Feed(y, step), c.pos, c.waiting, c.submits, c.raced, c.refused)
  }

  function Exec(y: Service, acts: seq<Act>): Option<Service> {
    if acts == [] then Some(y)
    else
      match Exec(y, acts[..|acts| - 1])
      case None => None
      case Some(mid) => if Enabled(mid, acts[|acts| - 1]) then Some(Do(mid, acts[|acts| - 1])) else None
  }

  ghost predicate Reachable(y: Service) {
    exists sizes, capacity: nat, queueSize: nat, acts ::
      |sizes| > 0 && queueSize >= 1 && Exec(Init(sizes, capacity, queueSize), acts) == Some(y)
  }

  // ---- refinement ----------------------------------------------------------------------------

  ghost predicate Inv(y: Service) {
    && |y.pools| > 0
    && OW.Inv(y.sink) && !y.sink.cancelled
    && DrainSafety.Inv(Seen(y))
  }

  /** The step of the chain that an act of the outcome worker is, if any. */
  function SeenAs(act: OW.Step<Item>, n: nat): Option<Step> {
    match act
    case Receive => Some(Receive(n, 0))
    case HandOver(_) => Some(Finish(n, 0))
    case Finish(_) => Some(Exit(n, 0))
    case _ => None
  }

  lemma SinkCounts(w: OW.Worker<Item>)
    requires OW.Inv(w) && !w.cancelled
    ensures |w.queue| <= |w.accepted| && w.accepted[|w.accepted| - |w.queue|..] == w.queue
    ensures w.hand.None? && !w.receiving ==> w.closed && w.queue == []
  {
  }

  /** An act of the outcome worker is a step of the chain, or not seen by it. */
  lemma SinkRefines(y: Service, act: OW.Step<Item>)
    requires Inv(y) && Enabled(y, Sink(act))
    ensures match SeenAs(act, |y.pools|)
            case Some(step) => Steps(Seen(y), step, Seen(Do(y, Sink(act))))
            case None => Seen(Do(y, Sink(act))) == Seen(y)
  {
    SinkCounts(y.sink);
    var n, stage, after := |y.pools|, SinkStage(y.sink, y.capacity), SinkStage(OW.Do(y.sink, act), y.capacity);
    assert Seen(y).stages[n] == stage;
    SinkStageMoves(y.sink, y.capacity, act);
    assert Seen(Do(y, Sink(act))).stages == Seen(y).stages[n := after];
  }

  lemma SinkStageMoves(w: OW.Worker<Item>, capacity: nat, act: OW.Step<Item>)
    requires OW.Inv(w) && !w.cancelled && OW.Enabled(w, act) && IsLive(act)
    ensures var s, s' := SinkStage(w, capacity), SinkStage(OW.Do(w, act), capacity);
      match act
      case Receive => s.workers[0].Receiving? && Buffered(s) && s' == TakeNext(s, 0)
      case HandOver(_) => s.workers[0].Busy? && s' == SetWorker(s, 0, Receiving)
      case Finish(_) => s.workers[0].Receiving? && s.closed && !Buffered(s) && s' == SetWorker(s, 0, Exited)
      case _ => s' == s
  {
    SinkCounts(w);
    if act.Receive? {
      assert w.accepted[|w.accepted| - |w.queue|..][0] == w.queue[0];
    }
  }

  ghost predicate Steps(c: Chain, step: Step, c': Chain) {
    DrainChain.Enabled(c, step) && DrainChain.Do(c, step) == c'
  }

  lemma SinkArrives(w: OW.Worker<Item>, capacity: nat, item: Item)
    requires OW.Inv(w) && !w.cancelled && !w.closed
    ensures SinkStage(OW.Do(w, OW.Arrive(item)), capacity) == Accept(SinkStage(w, capacity), item)
  {
    SinkCounts(w);
  }

  lemma SinkHandoff(w: OW.Worker<Item>, capacity: nat, item: Item)
    requires OW.Inv(w) && !w.cancelled && !w.closed && w.receiving && w.hand.None? && w.queue == []
    ensures var s := Accept(SinkStage(w, capacity), item);
      Buffered(s) && SinkStage(OW.Do(OW.Do(w, OW.Arrive(item)), OW.Receive), capacity) == TakeNext(s, 0)
  {
    SinkCounts(w);
  }

  /** Steps of the pools that leave the last stage alone. */
  lemma LastStays(y: Service, step: Step)
    requires Enabled(y, Pools(step)) && !IntoSink(step, |y.pools|) && !(step.Close? && y.pos == |y.pools|) && |y.pools| > 0
    ensures var c := DrainChain.Do(Seen(y), step);
      |c.stages| == |y.pools| + 1 && c.stages[|y.pools|] == SinkStage(y.sink, y.capacity)
  {
    LeavesStage(Seen(y), step, |y.pools|);
  }

  lemma Rejoin(stages: seq<Stage>, n: nat, last: Stage)
    requires |stages| == n + 1 && stages[n] == last
    ensures stages[..n] + [last] == stages
  {
  }

  lemma LastMoves(y: Service, step: Step)
    requires Inv(y) && Enabled(y, Pools(step))
    ensures var c := DrainChain.Do(Seen(y), step);
      |c.stages| == |y.pools| + 1 && c.stages[|y.pools|] == SinkStage(Feed(y, step), y.capacity)
  {
    if IntoSink(step, |y.pools|) {
      IntoSinkRefines(y, step);
    } else if !(step.Close? && y.pos == |y.pools|) {
      LastStays(y, step);
    }
  }

  /** A step of the pools is that step of the chain. */
  lemma PoolsRefine(y: Service, step: Step)
    requires Inv(y) && Enabled(y, Pools(step))
    ensures Seen(Do(y, Pools(step))) == DrainChain.Do(Seen(y), step)
  {
    LastMoves(y, step);
    var c := DrainChain.Do(Seen(y), step);
    Rejoin(c.stages, |y.pools|, c.stages[|y.pools|]);
  }

  lemma EmitRefines(y: Service, step: Step)
    requires Inv(y) && Enabled(y, Pools(step)) && step.Emit? && IntoSink(step, |y.pools|)
    ensures var c := DrainChain.Do(Seen(y), step);
      |c.stages| == |y.pools| + 1 && c.stages[|y.pools|] == SinkStage(Feed(y, step), y.capacity)
    ensures !y.sink.closed
  {
    NextIsOpen(Seen(y), step.k, step.w);
    assert Seen(y).stages[|y.pools|] == SinkStage(y.sink, y.capacity);
    SinkArrives(y.sink, y.capacity, Next(y, step));
  }

  lemma HandoffRefines(y: Service, step: Step)
    requires Inv(y) && Enabled(y, Pools(step)) && step.Handoff? && IntoSink(step, |y.pools|)
    ensures var c := DrainChain.Do(Seen(y), step);
      |c.stages| == |y.pools| + 1 && c.stages[|y.pools|] == SinkStage(Feed(y, step), y.capacity)
    ensures !y.sink.closed
  {
    NextIsOpen(Seen(y), step.k, step.w);
    assert Seen(y).stages[|y.pools|] == SinkStage(y.sink, y.capacity);
    HandoffDoes(Seen(y), step.k, step.w, step.v);
    SinkHandoff(y.sink, y.capacity, Next(y, step));
  }

  lemma IntoSinkRefines(y: Service, step: Step)
    requires Inv(y) && Enabled(y, Pools(step)) && IntoSink(step, |y.pools|)
    ensures var c := DrainChain.Do(Seen(y), step);
      |c.stages| == |y.pools| + 1 && c.stages[|y.pools|] == SinkStage(Feed(y, step), y.capacity)
    ensures !y.sink.closed
  {
    if step.Emit? {
      EmitRefines(y, step);
    } else {
      HandoffRefines(y, step);
    }
  }

  /** The outcome worker keeps its own invariant. */
  lemma SinkKeeps(w: OW.Worker<Item>, act: OW.Step<Item>)
    requires OW.Inv(w) && OW.Enabled(w, act)
    ensures OW.Inv(OW.Do(w, act)) && (OW.Do(w, act).cancelled <==> w.cancelled || act.Cancel?)
  {
    OW.OrderStep(w, act);
    OW.PhasesStep(w, act);
  }

  lemma FeedKeeps(y: Service, step: Step)
    requires OW.Inv(y.sink) && !y.sink.cancelled && Enabled(y, Pools(step))
    ensures OW.Inv(Feed(y, step)) && !Feed(y, step).cancelled
  {
    if step.Close? && y.pos == |y.pools| {
      SinkKeeps(y.sink, OW.CloseQueue);
    } else if IntoSink(step, |y.pools|) && !y.sink.closed {
      SinkKeeps(y.sink, OW.Arrive(Next(y, step)));
      if step.Handoff? {
        SinkKeeps(OW.Do(y.sink, OW.Arrive(Next(y, step))), OW.Receive);
      }
    }
  }

  lemma PoolsKeep(y: Service, step: Step)
    requires Inv(y) && Enabled(y, Pools(step))
    ensures Inv(Do(y, Pools(step)))
  {
    PoolsRefine(y, step);
    FeedKeeps(y, step);
    DrainSafety.InvStep(Seen(y), step);
    assert |Seen(Do(y, Pools(step))).stages| == |Seen(y).stages| by {
      StepShape(Seen(y), step);
    }
  }

  lemma SinkActKeeps(y: Service, act: OW.Step<Item>)
    requires Inv(y) && Enabled(y, Sink(act))
    ensures Inv(Do(y, Sink(act)))
  {
    SinkRefines(y, act);
    SinkKeeps(y.sink, act);
    if SeenAs(act, |y.pools|).Some? {
      DrainSafety.InvStep(Seen(y), SeenAs(act, |y.pools|).value);
    }
  }

  lemma InvStep(y: Service, act: Act)
    requires Inv(y) && Enabled(y, act)
    ensures Inv(Do(y, act))
  {
    match act
    case Pools(step) => PoolsKeep(y, step);
    case Sink(act) => SinkActKeeps(y, act);
  }

  lemma InitInv(sizes: seq<(nat, nat)>, capacity: nat, queueSize: nat)
    requires |sizes| > 0 && queueSize >= 1
    ensures Inv(Init(sizes, capacity, queueSize))
  {
    var y, more := Init(sizes, capacity, queueSize), sizes + [(capacity, 1 as nat)];
    assert SinkStage(y.sink, capacity) == Fresh(capacity, 1);
    assert Seen(y).stages == DrainChain.Init(more).stages;
    assert Seen(y) == DrainChain.Init(more);
    DrainSafety.InitInv(more);
  }

  lemma {:induction false} RunInv(y: Service, acts: seq<Act>)
    requires Inv(y) && Exec(y, acts).Some?
    ensures Inv(Exec(y, acts).value)
  {
    if acts == [] {
    } else {
      RunInv(y, acts[..|acts| - 1]);
      InvStep(Exec(y, acts[..|acts| - 1]).value, acts[|acts| - 1]);
    }
  }

  lemma ReachableInv(y: Service)
    requires Reachable(y)
    ensures Inv(y)
  {
    var sizes, capacity: nat, queueSize: nat, acts :|
      |sizes| > 0 && queueSize >= 1 && Exec(Init(sizes, capacity, queueSize), acts) == Some(y);
    InitInv(sizes, capacity, queueSize);
    RunInv(Init(sizes, capacity, queueSize), acts);
  }

  // ---- end to end ------------------------------------------------------------------------------

  lemma Parts<T>(a: seq<T>, b: seq<T>, whole: seq<T>)
    requires a + b == whole
    ensures multiset(a) + multiset(b) == multiset(whole)
    ensures multiset(a) == multiset(whole) <==> b == []
  {
    assert multiset(a + b) == multiset(a) + multiset(b);
    assert |multiset(a)| == |a| && |multiset(whole)| == |whole|;
  }

  /** The outcome worker after its event loop has returned. */
  ghost predicate AllOffered(w: OW.Worker<Item>, outcomes: multiset<Item>) {
    && w.exited && w.queue == [] && w.hand.None?
    && multiset(Flatten(w.calls)) + multiset(w.batch) == outcomes
    && (w.batch == [] || w.batch == w.tried)
    && (multiset(Flatten(w.calls)) == outcomes <==> !w.flushFailed)
  }

  lemma ExitedOffered(w: OW.Worker<Item>)
    requires OW.Inv(w) && !w.cancelled && w.exited
    ensures AllOffered(w, multiset(w.accepted))
  {
    assert Flatten(w.calls) + w.batch == w.accepted;
    Parts(Flatten(w.calls), w.batch, w.accepted);
  }

  ghost predicate PoolsStaffed(y: Service) {
    forall k :: 0 <= k < |y.pools| ==> y.pools[k].workers != []
  }

  lemma SeenStaffed(y: Service)
    requires PoolsStaffed(y)
    ensures Staffed(Seen(y))
  {
  }

  /** End to end: when `drainChain` has returned, with workers in every pool and no
      submit in flight at the first close (or no buffer there), each pool has
      received all it accepted and handed all of it on, item by item; the event
      loop has returned; every outcome was offered to the store, and all were
      applied exactly when its last write did not fail. */
  lemma EndToEnd(y: Service)
    requires Reachable(y) && y.pos == |y.pools| + 1 && PoolsStaffed(y)
    requires !y.raced || (|y.pools| > 0 && y.pools[0].capacity == 0)
    ensures |y.pools| > 0
    ensures forall k :: 0 <= k < |y.pools| ==> Emptied(y.pools[k])
    ensures forall k :: 0 <= k < |y.pools| - 1 ==> multiset(y.pools[k + 1].accepted) == Children(y.pools[k].accepted)
    ensures AllOffered(y.sink, Children(y.pools[|y.pools| - 1].accepted))
  {
    ReachableInv(y);
    SeenStaffed(y);
    var c, n := Seen(y), |y.pools|;
    forall k | 0 <= k <= n ensures Emptied(c.stages[k]) && HandedOn(c, k) {
      DrainedInv(c, k);
    }
    forall k | 0 <= k < n ensures Emptied(y.pools[k]) {
      assert c.stages[k] == y.pools[k];
    }
    forall k | 0 <= k < n - 1 ensures multiset(y.pools[k + 1].accepted) == Children(y.pools[k].accepted) {
      assert HandedOn(c, k) && c.stages[k] == y.pools[k] && c.stages[k + 1] == y.pools[k + 1];
    }
    assert HandedOn(c, n - 1) && c.stages[n - 1] == y.pools[n - 1];
    assert c.stages[n].workers[0].Exited?;
    ExitedOffered(y.sink);
  }

  /** The outcome worker never blocks the drain either: until it is over, some act
      other than a tick or a submit from outside is enabled. */
  lemma NeverStuck(y: Service) returns (act: Act)
    requires Inv(y) && PoolsStaffed(y) && y.pos <= |y.pools|
    ensures Enabled(y, act) && !(act.Pools? && IsOutside(act.step)) && act != Sink(OW.Tick(true)) && act != Sink(OW.Tick(false))
  {
    SeenStaffed(y);
    SinkCounts(y.sink);
    var n := |y.pools|;
    var step := DrainTheorems.NeverStuck(Seen(y));
    if IsSinks(step, n) {
      var own := SinksAct(y, step);
      act := Sink(own);
    } else if step.Handoff? && step.k + 1 == n {
      NextIsOpen(Seen(y), step.k, step.w);
      act := Pools(step);
    } else {
      act := Pools(step);
    }
  }

  /** What the outcome worker does where the chain has its pool take a step. */
  lemma SinksAct(y: Service, step: Step) returns (act: OW.Step<Item>)
    requires Inv(y) && DrainChain.Enabled(Seen(y), step) && IsSinks(step, |y.pools|)
    ensures OW.Enabled(y.sink, act) && IsLive(act) && !act.Tick?
  {
    SinkCounts(y.sink);
    assert Seen(y).stages[|y.pools|] == SinkStage(y.sink, y.capacity);
    match step
    case Receive(_, _) => act := OW.Receive;
    case Finish(_, _) => act := OW.HandOver(true);
    case Exit(_, _) => act := if y.sink.receiving then OW.EndReceiving else OW.Finish(true);
  }

  /** Every such act brings the end nearer: what is left to do, and whether the
      goroutine is still receiving. */
  lemma ActShrinks(y: Service, act: Act)
    requires Inv(y) && Enabled(y, act) && !(act.Pools? && IsOutside(act.step)) && !(act.Sink? && act.act.Tick?)
    ensures Measure(Do(y, act)) < Measure(y)
  {
    match act
    case Pools(step) =>
      PoolsRefine(y, step);
      StepShrinks(Seen(y), step);
    case Sink(act) =>
      SinkRefines(y, act);
      if SeenAs(act, |y.pools|).Some? {
        StepShrinks(Seen(y), SeenAs(act, |y.pools|).value);
      }
  }

  function Measure(y: Service): nat {
    2 * Weight(Seen(y)) + if y.sink.receiving then 1 else 0
  }
}
