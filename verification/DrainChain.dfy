/** A chain of worker pools and its shutdown: each pool receives from its own
    pipeline and submits what the items turn into to the next one, and
    `drainChain` closes the pipelines upstream first.

    The pipelines appear through their proved behaviour: a submit that begins
    after the close is refused, an item is accepted while there is room or a
    receiver is waiting, items come out in order, and a receive reports
    ErrClosed when the pipeline is closed and empty.  The workers of the chain
    have all left before the pipeline they submit to is closed, so only the
    submits from outside, into the first pipeline, are shown as the two selects
    they are. */
module DrainChain {
  import opened Options

  /** A piece of work and the pieces it turns into at the next stage: a job and
      its tasks, a task and its outcome. */
  datatype Item = Item(id: nat, children: seq<Item>)

  datatype Worker = Receiving | Busy(left: seq<Item>) | Exited

  /** `accepted` is everything the stage's pipeline took, `taken` how much of it
      the workers have received: the rest is in the buffer. */
  datatype Stage = Stage(capacity: nat, accepted: seq<Item>, taken: nat, closed: bool, workers: seq<Worker>)

  /** A submit from outside: before its first select, past it, or answered. */
  datatype Submit = Checking(item: Item) | Waiting(item: Item) | Accepted | Refused

  /** `pos` and `waiting` are `drainChain`'s place: the stage it is at, and
      whether it has closed it and waits for its workers.  `raced` says that a
      submit from outside was past its first select when the first pipeline was
      closed; `refused` that a worker's submit met a closed pipeline. */
  datatype Chain = Chain(stages: seq<Stage>, pos: nat, waiting: bool, submits: map<nat, Submit>, raced: bool, refused: bool)

  datatype Step =
    | Arrive(i: nat, item: Item)
    | Check(i: nat)
    | Send(i: nat)
    | Offer(i: nat, v: nat)
    | GiveUp(i: nat)
    | Receive(k: nat, w: nat)
    | Emit(k: nat, w: nat)
    | Handoff(k: nat, w: nat, v: nat)
    | Finish(k: nat, w: nat)
    | Exit(k: nat, w: nat)
    | Close
    | Join

  function Fresh(capacity: nat, workers: nat): Stage {
    Stage(capacity, [], 0, false, seq(workers, _ => Receiving))
  }

  /** `sizes` lists each stage's buffer size and number of workers. */
  function Init(sizes: seq<(nat, nat)>): Chain {
    Chain(seq(|sizes|, k requires 0 <= k < |sizes| => Fresh(sizes[k].0, sizes[k].1)), 0, false, map[], false, false)
  }

  predicate Buffered(s: Stage) {
    s.taken < |s.accepted|
  }

  predicate Room(s: Stage) {
    |s.accepted| - s.taken < s.capacity
  }

  predicate AllExited(s: Stage) {
    forall w :: 0 <= w < |s.workers| ==> s.workers[w].Exited?
  }

  predicate At(c: Chain, k: nat, w: nat) {
    k < |c.stages| && w < |c.stages[k].workers|
  }

  /** Worker `w` of stage `k` has something to hand to the next stage. */
  predicate Emitting(c: Chain, k: nat, w: nat) {
    At(c, k, w) && c.stages[k].workers[w].Busy? && |c.stages[k].workers[w].left| > 0 && k + 1 < |c.stages|
  }

  predicate IsWaiting(submits: map<nat, Submit>, i: nat) {
    i in submits && submits[i].Waiting?
  }

  /** Some submit from outside is past its first select. */
  predicate InFlight(c: Chain) {
    exists i :: i in c.submits && IsWaiting(c.submits, i)
  }

  predicate Enabled(c: Chain, step: Step) {
    match step
    case Arrive(i, _) => i !in c.submits
    case Check(i) => i in c.submits && c.submits[i].Checking? && |c.stages| > 0
    case Send(i) => IsWaiting(c.submits, i) && |c.stages| > 0 && Room(c.stages[0])
    case Offer(i, v) =>
      && IsWaiting(c.submits, i) && At(c, 0, v)
      && c.stages[0].workers[v].Receiving? && c.stages[0].taken == |c.stages[0].accepted|
    case GiveUp(i) => IsWaiting(c.submits, i)
    case Receive(k, w) => At(c, k, w) && c.stages[k].workers[w].Receiving? && Buffered(c.stages[k])
    case Emit(k, w) => Emitting(c, k, w) && (c.stages[k + 1].closed || Room(c.stages[k + 1]))
    case Handoff(k, w, v) =>
      && Emitting(c, k, w) && At(c, k + 1, v)
      && c.stages[k + 1].workers[v].Receiving? && c.stages[k + 1].taken == |c.stages[k + 1].accepted|
    case Finish(k, w) =>
      && At(c, k, w) && c.stages[k].workers[w].Busy?
      && (|c.stages[k].workers[w].left| == 0 || k + 1 == |c.stages|)
    case Exit(k, w) =>
      At(c, k, w) && c.stages[k].workers[w].Receiving? && c.stages[k].closed && !Buffered(c.stages[k])
    case Close => c.pos < |c.stages| && !c.waiting
    case Join => c.pos < |c.stages| && c.waiting && AllExited(c.stages[c.pos])
  }

  function SetWorker(s: Stage, w: nat, worker: Worker): Stage
    requires w < |s.workers|
  {
    s.(workers := s.workers[w := worker])
  }

  function SetStage(c: Chain, k: nat, s: Stage): Chain
    requires k < |c.stages|
  {
    c.(stages := c.stages[k := s])
  }

  function Accept(s: Stage, item: Item): Stage {
    s.(accepted := s.accepted + [item])
  }

  /** Worker `w` of stage `k` is rid of its next item. */
  function Sent(c: Chain, k: nat, w: nat): Chain
    requires Emitting(c, k, w)
  {
    SetStage(c, k, SetWorker(c.stages[k], w, Busy(c.stages[k].workers[w].left[1..])))
  }

  /** Worker `w` of stage `k` gets the next item rid of into stage `k + 1`. */
  function Pass(c: Chain, k: nat, w: nat): Chain
    requires Emitting(c, k, w)
  {
    SetStage(Sent(c, k, w), k + 1, Accept(c.stages[k + 1], c.stages[k].workers[w].left[0]))
  }

  function TakeNext(s: Stage, w: nat): Stage
    requires w < |s.workers| && Buffered(s)
  {
    SetWorker(s, w, Busy(s.accepted[s.taken].children)).(taken := s.taken + 1)
  }

  /** The first pipeline takes the item of submit `i`. */
  function Admit(c: Chain, i: nat): Chain
    requires IsWaiting(c.submits, i) && |c.stages| > 0
  {
    SetStage(c, 0, Accept(c.stages[0], c.submits[i].item)).(submits := c.submits[i := Accepted])
  }

  function Do(c: Chain, step: Step): Chain
    requires Enabled(c, step)
  {
    match step
    case Arrive(i, item) => c.(submits := c.submits[i := Checking(item)])
    case Check(i) => c.(submits := c.submits[i := if c.stages[0].closed then Refused else Waiting(c.submits[i].item)])
    case Send(i) => Admit(c, i)
    case Offer(i, v) => SetStage(Admit(c, i), 0, TakeNext(Admit(c, i).stages[0], v))
    case GiveUp(i) => c.(submits := c.submits[i := Refused])
    case Receive(k, w) => SetStage(c, k, TakeNext(c.stages[k], w))
    case Emit(k, w) => if c.stages[k + 1].closed then Sent(c, k, w).(refused := true) else Pass(c, k, w)
    case Handoff(k, w, v) =>
      var passed := Pass(c, k, w);
      SetStage(passed, k + 1, TakeNext(passed.stages[k + 1], v))
    case Finish(k, w) => SetStage(c, k, SetWorker(c.stages[k], w, Receiving))
    case Exit(k, w) => SetStage(c, k, SetWorker(c.stages[k], w, Exited))
    case Close =>
      SetStage(c, c.pos, c.stages[c.pos].(closed := true)).(waiting := true, raced := c.raced || (c.pos == 0 && InFlight(c)))
    case Join => c.(pos := c.pos + 1, waiting := false)
  }

  function Exec(c: Chain, steps: seq<Step>): Option<Chain> {
    if steps == [] then Some(c)
    else
      match Exec(c, steps[..|steps| - 1])
      case None => None
      case Some(mid) => if Enabled(mid, steps[|steps| - 1]) then Some(Do(mid, steps[|steps| - 1])) else None
  }

  ghost predicate Reachable(c: Chain) {
    exists sizes, steps :: Exec(Init(sizes), steps) == Some(c)
  }

  /** The steps the workers take. */
  predicate IsWorkers(step: Step) {
    step.Receive? || step.Emit? || step.Handoff? || step.Finish? || step.Exit?
  }

  /** The steps of submits from outside. */
  predicate IsOutside(step: Step) {
    step.Arrive? || step.Check? || step.Send? || step.Offer? || step.GiveUp?
  }
}
