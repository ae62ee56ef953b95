/** The promises of the shutdown: nothing lost, nothing stuck, and exactly when
    the first close is safe. */
module DrainTheorems {
  import opened Options
  import opened DrainChain
  import opened DrainSafety
  import opened Iterations

  /** No worker ever submits into a closed pipeline: a worker that is still
      running finds the next pipeline open, in every interleaving. */
  lemma NeverRefused(c: Chain, k: nat, w: nat)
    requires Reachable(c) && At(c, k, w) && !c.stages[k].workers[w].Exited?
    ensures k + 1 < |c.stages| ==> !c.stages[k + 1].closed
    ensures !c.refused
  {
    ReachableInv(c);
    if k + 1 < |c.stages| {
      NextIsOpen(c, k, w);
    }
  }

  /** A pipeline is closed only after every worker that feeds it has exited. */
  lemma UpstreamFirst(c: Chain, k: nat)
    requires Reachable(c) && k + 1 < |c.stages| && c.stages[k + 1].closed
    ensures c.stages[k].closed && AllExited(c.stages[k])
  {
    ReachableInv(c);
    assert StageOk(c.stages[k], k, c.pos, c.waiting, c.raced);
    assert StageOk(c.stages[k + 1], k + 1, c.pos, c.waiting, c.raced);
  }

  /** Nothing is lost on the way: in every state the items stage `k` has
      received turned into what the next pipeline accepted and what the workers
      still hold. */
  lemma NothingLost(c: Chain, k: nat)
    requires Reachable(c) && k + 1 < |c.stages|
    ensures c.stages[k].taken <= |c.stages[k].accepted|
    ensures multiset(c.stages[k + 1].accepted) + Pending(c.stages[k].workers)
         == Children(c.stages[k].accepted[..c.stages[k].taken])
  {
    ReachableInv(c);
    assert FlowOk(c.stages[k], c.stages[k + 1]);
  }

  /** A pool without workers takes nothing, so its stage ends as it is filled. */
  lemma UnstaffedKeeps(c: Chain, k: nat)
    requires Reachable(c) && k < |c.stages| && c.stages[k].workers == []
    ensures c.stages[k].taken == 0
  {
    ReachableInv(c);
    assert StageOk(c.stages[k], k, c.pos, c.waiting, c.raced);
  }

  /** Stage `k` cannot be left with anything: it has workers, and if it is the
      first, no submit raced its close, or there is no buffer to be left in. */
  ghost predicate Safe(c: Chain, k: nat)
    requires k < |c.stages|
  {
    c.stages[k].workers != [] && (k > 0 || !c.raced || c.stages[k].capacity == 0)
  }

  ghost predicate Emptied(s: Stage) {
    AllExited(s) && s.taken == |s.accepted|
  }

  ghost predicate HandedOn(c: Chain, k: nat) {
    k + 1 < |c.stages| ==> multiset(c.stages[k + 1].accepted) == Children(c.stages[k].accepted)
  }

  lemma DrainedInv(c: Chain, k: nat)
    requires Inv(c) && c.pos == |c.stages| && k < |c.stages| && Safe(c, k)
    ensures Emptied(c.stages[k]) && HandedOn(c, k)
  {
    assert StageOk(c.stages[k], k, c.pos, c.waiting, c.raced) && Fits(c.stages[k]);
    if k + 1 < |c.stages| {
      assert FlowOk(c.stages[k], c.stages[k + 1]);
      NonePending(c.stages[k].workers);
      assert c.stages[k].accepted[..c.stages[k].taken] == c.stages[k].accepted;
    }
  }

  /** When `drainChain` has returned, a stage with workers, and with no submit in
      flight at the first close or no buffer, has received all it accepted, and
      what the next stage accepted is exactly, item by item, what those turned
      into. */
  lemma DrainLosesNothing(c: Chain, k: nat)
    requires Reachable(c) && c.pos == |c.stages| && k < |c.stages| && Safe(c, k)
    ensures Emptied(c.stages[k]) && HandedOn(c, k)
  {
    ReachableInv(c);
    DrainedInv(c, k);
  }

  ghost predicate Staffed(c: Chain) {
    forall k :: 0 <= k < |c.stages| ==> c.stages[k].workers != []
  }

  // ---- the drain ends ----------------------------------------------------------------------

  function Size(item: Item): nat {
    2 + Total(item.children) + |item.children|
  }

  function Total(items: seq<Item>): nat {
    if items == [] then 0 else 1 + Size(items[0]) + Total(items[1..])
  }

  function WorkerWeight(worker: Worker): nat {
    match worker
    case Receiving => 1
    case Busy(left) => 2 + Total(left) + |left|
    case Exited => 0
  }

  function PoolWeight(workers: seq<Worker>): nat {
    if workers == [] then 0 else WorkerWeight(workers[0]) + PoolWeight(workers[1..])
  }

  function StageWeight(s: Stage): nat {
    PoolWeight(s.workers) + if s.taken <= |s.accepted| then Total(s.accepted[s.taken..]) else 0
  }

  function StagesWeight(stages: seq<Stage>): nat {
    if stages == [] then 0 else StageWeight(stages[0]) + StagesWeight(stages[1..])
  }

  /** The work that is left before the drain is over. */
  function Weight(c: Chain): nat {
    StagesWeight(c.stages) + if c.pos < |c.stages| then 2 * (|c.stages| - c.pos) - (if c.waiting then 1 else 0) else 0
  }

  lemma {:induction false} PoolUpdate(workers: seq<Worker>, w: nat, worker: Worker)
    requires w < |workers|
    ensures PoolWeight(workers[w := worker]) == PoolWeight(workers) - WorkerWeight(workers[w]) + WorkerWeight(worker)
  {
    if w == 0 {
      assert workers[w := worker][1..] == workers[1..];
    } else {
      assert workers[w := worker][1..] == workers[1..][w - 1 := worker];
      PoolUpdate(workers[1..], w - 1, worker);
    }
  }

  lemma {:induction false} StagesUpdate(stages: seq<Stage>, k: nat, s: Stage)
    requires k < |stages|
    ensures StagesWeight(stages[k := s]) == StagesWeight(stages) - StageWeight(stages[k]) + StageWeight(s)
  {
    if k == 0 {
      assert stages[k := s][1..] == stages[1..];
    } else {
      assert stages[k := s][1..] == stages[1..][k - 1 := s];
      StagesUpdate(stages[1..], k - 1, s);
    }
  }

  lemma {:induction false} TotalNext(items: seq<Item>, item: Item)
    ensures Total(items + [item]) == Total(items) + 1 + Size(item)
  {
    if items == [] {
      assert items + [item] == [item];
    } else {
      assert (items + [item])[1..] == items[1..] + [item];
      TotalNext(items[1..], item);
    }
  }

  lemma TakeShrinks(s: Stage, w: nat)
    requires w < |s.workers| && s.workers[w].Receiving? && Buffered(s)
    ensures StageWeight(TakeNext(s, w)) < StageWeight(s)
  {
    PoolUpdate(s.workers, w, Busy(s.accepted[s.taken].children));
    var rest := s.accepted[s.taken..];
    assert rest[0] == s.accepted[s.taken] && rest[1..] == s.accepted[s.taken + 1..];
    assert Total(rest) == 1 + Size(rest[0]) + Total(rest[1..]);
  }

  lemma SentShrinks(s: Stage, w: nat)
    requires w < |s.workers| && s.workers[w].Busy? && |s.workers[w].left| > 0
    ensures StageWeight(SetWorker(s, w, Busy(s.workers[w].left[1..]))) == StageWeight(s) - 2 - Size(s.workers[w].left[0])
  {
    PoolUpdate(s.workers, w, Busy(s.workers[w].left[1..]));
  }

  lemma AcceptGrows(s: Stage, item: Item)
    requires s.taken <= |s.accepted|
    ensures StageWeight(Accept(s, item)) == StageWeight(s) + 1 + Size(item)
  {
    assert Accept(s, item).accepted[s.taken..] == s.accepted[s.taken..] + [item];
    TotalNext(s.accepted[s.taken..], item);
  }

  lemma SentWeight(c: Chain, k: nat, w: nat)
    requires Emitting(c, k, w)
    ensures Weight(Sent(c, k, w)) == Weight(c) - 2 - Size(c.stages[k].workers[w].left[0])
  {
    var s := c.stages[k];
    SentShrinks(s, w);
    StagesUpdate(c.stages, k, SetWorker(s, w, Busy(s.workers[w].left[1..])));
  }

  lemma PassWeight(c: Chain, k: nat, w: nat)
    requires Emitting(c, k, w) && c.stages[k + 1].taken <= |c.stages[k + 1].accepted|
    ensures Weight(Pass(c, k, w)) == Weight(c) - 1
  {
    var item := c.stages[k].workers[w].left[0];
    SentWeight(c, k, w);
    AcceptGrows(c.stages[k + 1], item);
    StagesUpdate(Sent(c, k, w).stages, k + 1, Accept(c.stages[k + 1], item));
  }

  lemma TakeWeight(c: Chain, k: nat, w: nat)
    requires At(c, k, w) && c.stages[k].workers[w].Receiving? && Buffered(c.stages[k])
    ensures Weight(SetStage(c, k, TakeNext(c.stages[k], w))) < Weight(c)
  {
    TakeShrinks(c.stages[k], w);
    StagesUpdate(c.stages, k, TakeNext(c.stages[k], w));
  }

  lemma IdleWeight(c: Chain, k: nat, w: nat, worker: Worker)
    requires At(c, k, w) && WorkerWeight(worker) < WorkerWeight(c.stages[k].workers[w])
    ensures Weight(SetStage(c, k, SetWorker(c.stages[k], w, worker))) < Weight(c)
  {
    PoolUpdate(c.stages[k].workers, w, worker);
    StagesUpdate(c.stages, k, SetWorker(c.stages[k], w, worker));
  }

  lemma EmitWeight(c: Chain, k: nat, w: nat)
    requires StagesOk(c) && Enabled(c, Emit(k, w))
    ensures Weight(Do(c, Emit(k, w))) < Weight(c)
  {
    assert StageOk(c.stages[k + 1], k + 1, c.pos, c.waiting, c.raced);
    SentWeight(c, k, w);
    PassWeight(c, k, w);
  }

  lemma HandoffWeight(c: Chain, k: nat, w: nat, v: nat)
    requires Enabled(c, Handoff(k, w, v))
    ensures Weight(Do(c, Handoff(k, w, v))) < Weight(c)
  {
    HandoffDoes(c, k, w, v);
    PassOffers(c, k, w, v);
    PassWeight(c, k, w);
    TakeWeight(Pass(c, k, w), k + 1, v);
  }

  /** Every step but a new submit brings the end nearer. */
  lemma StepShrinks(c: Chain, step: Step)
    requires Inv(c) && Enabled(c, step) && !IsOutside(step)
    ensures Weight(Do(c, step)) < Weight(c)
  {
    match step
    case Receive(k, w) => TakeWeight(c, k, w);
    case Emit(k, w) => EmitWeight(c, k, w);
    case Handoff(k, w, v) => HandoffWeight(c, k, w, v);
    case Finish(k, w) => IdleWeight(c, k, w, Receiving);
    case Exit(k, w) => IdleWeight(c, k, w, Exited);
    case Close => StagesUpdate(c.stages, c.pos, c.stages[c.pos].(closed := true));
    case Join =>
  }

  ghost predicate CanRun(c: Chain) {
    exists step :: IsWorkers(step) && Enabled(c, step)
  }

  /** A busy worker can go on, or something downstream of it can: full buffers
      never deadlock the chain. */
  lemma {:induction false} BusyCanRun(c: Chain, k: nat, w: nat) returns (step: Step)
    requires StagesOk(c) && Staffed(c) && At(c, k, w) && c.stages[k].workers[w].Busy?
    ensures IsWorkers(step) && Enabled(c, step)
    decreases |c.stages| - k
  {
    if !Emitting(c, k, w) {
      return Finish(k, w);
    }
    var next := c.stages[k + 1];
    NextIsOpen(c, k, w);
    assert StageOk(next, k + 1, c.pos, c.waiting, c.raced);
    if Room(next) {
      return Emit(k, w);
    }
    match next.workers[0]
    case Receiving => step := if Buffered(next) then Receive(k + 1, 0) else Handoff(k, w, 0);
    case Busy(_) => step := BusyCanRun(c, k + 1, 0);
    case Exited => assert false;
  }

  /** The drain never gets stuck: until it is over some step is enabled. */
  lemma NeverStuck(c: Chain) returns (step: Step)
    requires Inv(c) && Staffed(c) && c.pos < |c.stages|
    ensures Enabled(c, step) && !IsOutside(step)
    ensures c.waiting && !AllExited(c.stages[c.pos]) ==> IsWorkers(step)
  {
    if !c.waiting {
      return Close;
    }
    if AllExited(c.stages[c.pos]) {
      return Join;
    }
    var w :| 0 <= w < |c.stages[c.pos].workers| && !c.stages[c.pos].workers[w].Exited?;
    assert StageOk(c.stages[c.pos], c.pos, c.pos, c.waiting, c.raced);
    if c.stages[c.pos].workers[w].Busy? {
      step := BusyCanRun(c, c.pos, w);
    } else {
      step := if Buffered(c.stages[c.pos]) then Receive(c.pos, w) else Exit(c.pos, w);
    }
  }

  // ---- exactly when the first close is safe ----------------------------------------------------

  lemma {:induction false} ExecConcat(c: Chain, a: seq<Step>, b: seq<Step>)
    requires Exec(c, a).Some? && Exec(Exec(c, a).value, b).Some?
    ensures Exec(c, a + b) == Exec(Exec(c, a).value, b)
  {
    if b == [] {
      assert a + b == a;
    } else {
      ExecConcat(c, a, b[..|b| - 1]);
      assert (a + b)[..|a + b| - 1] == a + b[..|b| - 1];
    }
  }

  lemma ExecCons(c: Chain, step: Step, steps: seq<Step>)
    requires Enabled(c, step) && Exec(Do(c, step), steps).Some?
    ensures Exec(c, [step] + steps) == Exec(Do(c, step), steps)
  {
    assert [step][..0] == [];
    assert Exec(c, [step]) == Some(Do(c, step));
    ExecConcat(c, [step], steps);
  }

  /** Stages keep their buffers and their number of workers. */
  ghost predicate SameShape(c: Chain, c': Chain) {
    && |c'.stages| == |c.stages|
    && forall k :: 0 <= k < |c.stages| ==>
         c'.stages[k].capacity == c.stages[k].capacity && |c'.stages[k].workers| == |c.stages[k].workers|
  }

  lemma ReplaceShape(c: Chain, k: nat, s: Stage)
    requires k < |c.stages| && s.capacity == c.stages[k].capacity && |s.workers| == |c.stages[k].workers|
    ensures SameShape(c, SetStage(c, k, s))
  {
  }

  lemma StepShape(c: Chain, step: Step)
    requires Enabled(c, step)
    ensures SameShape(c, Do(c, step))
  {
    match step
    case Receive(k, w) => ReplaceShape(c, k, TakeNext(c.stages[k], w));
    case Emit(k, w) => PassShape(c, k, w);
    case Handoff(k, w, v) =>
      PassShape(c, k, w);
      HandoffDoes(c, k, w, v);
      ReplaceShape(Pass(c, k, w), k + 1, TakeNext(Pass(c, k, w).stages[k + 1], v));
    case Finish(k, w) => ReplaceShape(c, k, SetWorker(c.stages[k], w, Receiving));
    case Exit(k, w) => ReplaceShape(c, k, SetWorker(c.stages[k], w, Exited));
    case Close => ReplaceShape(c, c.pos, c.stages[c.pos].(closed := true));
    case _ =>
  }

  lemma PassShape(c: Chain, k: nat, w: nat)
    requires Emitting(c, k, w)
    ensures SameShape(c, Sent(c, k, w)) && SameShape(c, Pass(c, k, w))
  {
    ReplaceShape(c, k, SetWorker(c.stages[k], w, Busy(c.stages[k].workers[w].left[1..])));
    ReplaceShape(Sent(c, k, w), k + 1, Accept(c.stages[k + 1], c.stages[k].workers[w].left[0]));
  }

  ghost predicate Closing(c: Chain) {
    c.pos > 0 || c.waiting
  }

  lemma ClosingStays(c: Chain, step: Step)
    requires Enabled(c, step) && Closing(c)
    ensures Closing(Do(c, step)) && Do(c, step).raced == c.raced
  {
  }

  lemma {:induction false} RunShape(c: Chain, steps: seq<Step>)
    requires Exec(c, steps).Some? && Closing(c)
    ensures var c' := Exec(c, steps).value;
      SameShape(c, c') && Closing(c') && c'.raced == c.raced
  {
    if steps == [] {
    } else {
      var init, last := steps[..|steps| - 1], steps[|steps| - 1];
      RunShape(c, init);
      StepShape(Exec(c, init).value, last);
      ClosingStays(Exec(c, init).value, last);
    }
  }

  /** However it goes on, the drain ends with every stage emptied. */
  ghost predicate DrainsAlways(c: Chain) {
    forall steps :: Exec(c, steps).Some? && Exec(c, steps).value.pos == |c.stages| ==>
      forall k :: 0 <= k < |Exec(c, steps).value.stages| ==> Emptied(Exec(c, steps).value.stages[k])
  }

  lemma SafeCloseDrains(c: Chain)
    requires Inv(c) && Staffed(c) && Closing(c) && |c.stages| > 0 && (!c.raced || c.stages[0].capacity == 0)
    ensures DrainsAlways(c)
  {
    forall steps | Exec(c, steps).Some? && Exec(c, steps).value.pos == |c.stages|
      ensures forall k :: 0 <= k < |Exec(c, steps).value.stages| ==> Emptied(Exec(c, steps).value.stages[k])
    {
      var c' := Exec(c, steps).value;
      RunShape(c, steps);
      RunInv(c, steps);
      forall k | 0 <= k < |c'.stages| ensures Emptied(c'.stages[k]) {
        DrainedInv(c', k);
      }
    }
  }

  ghost predicate SamePlace(c: Chain, c': Chain) {
    c'.pos == c.pos && c'.waiting == c.waiting && c'.raced == c.raced && c'.submits == c.submits
  }

  lemma PassKeeps(c: Chain, k: nat, w: nat)
    requires Emitting(c, k, w)
    ensures SamePlace(c, Sent(c, k, w)) && SamePlace(c, Pass(c, k, w))
  {
  }

  lemma WorkersKeep(c: Chain, step: Step)
    requires Enabled(c, step) && IsWorkers(step)
    ensures SamePlace(c, Do(c, step))
  {
    match step
    case Emit(k, w) => PassKeeps(c, k, w);
    case Handoff(k, w, v) =>
      PassKeeps(c, k, w);
      HandoffDoes(c, k, w, v);
    case _ =>
  }

  lemma StaffKept(c: Chain, step: Step)
    requires Staffed(c) && Enabled(c, step)
    ensures Staffed(Do(c, step))
  {
    StepShape(c, step);
  }

  /** The workers can always run until the first pool has left. */
  lemma WorkersLeave(c: Chain) returns (steps: seq<Step>)
    requires Inv(c) && Staffed(c) && c.pos == 0 && c.waiting
    ensures Exec(c, steps).Some?
    ensures var c' := Exec(c, steps).value;
      && Inv(c') && Staffed(c') && SameShape(c, c') && c'.pos == 0 && c'.waiting
      && c'.submits == c.submits && AllExited(c'.stages[0])
    decreases Weight(c)
  {
    if AllExited(c.stages[0]) {
      return [];
    }
    var step := NeverStuck(c);
    WorkersKeep(c, step);
    StepShrinks(c, step);
    StaffKept(c, step);
    StepShape(c, step);
    InvStep(c, step);
    var rest := WorkersLeave(Do(c, step));
    ExecCons(c, step, rest);
    steps := [step] + rest;
  }

  /** The stages a step may change. */
  predicate Touches(c: Chain, step: Step, k: nat) {
    match step
    case Send(_) => k == 0
    case Offer(_, _) => k == 0
    case Receive(n, _) => k == n
    case Emit(n, _) => k == n || k == n + 1
    case Handoff(n, _, _) => k == n || k == n + 1
    case Finish(n, _) => k == n
    case Exit(n, _) => k == n
    case Close => k == c.pos
    case _ => false
  }

  lemma PassLeaves(c: Chain, k: nat, w: nat, n: nat)
    requires Emitting(c, k, w) && n < |c.stages| && n != k && n != k + 1
    ensures Sent(c, k, w).stages[n] == c.stages[n] && |Sent(c, k, w).stages| == |c.stages|
    ensures Pass(c, k, w).stages[n] == c.stages[n] && |Pass(c, k, w).stages| == |c.stages|
  {
  }

  lemma LeavesStage(c: Chain, step: Step, k: nat)
    requires Enabled(c, step) && k < |c.stages| && !Touches(c, step, k)
    ensures |Do(c, step).stages| == |c.stages| && Do(c, step).stages[k] == c.stages[k]
  {
    match step
    case Emit(n, w) => PassLeaves(c, n, w, k);
    case Handoff(n, w, v) =>
      PassLeaves(c, n, w, k);
      HandoffDoes(c, n, w, v);
    case _ =>
  }

  /** The first stage of a chain whose first pool has left is touched by no step
      but a submit from outside. */
  lemma FirstStays(c: Chain, step: Step)
    requires Enabled(c, step) && !IsOutside(step) && Closing(c) && |c.stages| > 0 && AllExited(c.stages[0])
    ensures |Do(c, step).stages| == |c.stages| && Do(c, step).stages[0] == c.stages[0]
  {
    LeavesStage(c, step, 0);
  }

  /** And then the drain can always be run to its end. */
  lemma RunsOut(c: Chain) returns (steps: seq<Step>)
    requires Inv(c) && Staffed(c) && Closing(c) && |c.stages| > 0 && AllExited(c.stages[0])
    ensures Exec(c, steps).Some?
    ensures var c' := Exec(c, steps).value;
      c'.pos == |c.stages| && |c'.stages| == |c.stages| && c'.stages[0] == c.stages[0]
    decreases Weight(c)
  {
    if c.pos == |c.stages| {
      return [];
    }
    var step := NeverStuck(c);
    FirstStays(c, step);
    StepShrinks(c, step);
    StaffKept(c, step);
    StepShape(c, step);
    ClosingStays(c, step);
    InvStep(c, step);
    var rest := RunsOut(Do(c, step));
    ExecCons(c, step, rest);
    steps := [step] + rest;
  }

  /** A submit that is past its first select at the close can strand its item,
      wherever the chain has got to, if the first pipeline has a buffer. */
  lemma RacingSubmitStrands(c: Chain, i: nat) returns (steps: seq<Step>)
    requires Inv(c) && Staffed(c) && c.pos == 0 && c.waiting && IsWaiting(c.submits, i)
    requires c.stages[0].capacity >= 1
    ensures Exec(c, steps).Some?
    ensures var c' := Exec(c, steps).value;
      c'.pos == |c.stages| == |c'.stages| && Buffered(c'.stages[0])
  {
    var leave := WorkersLeave(c);
    var gone := Exec(c, leave).value;
    if Buffered(gone.stages[0]) {
      var rest := RunsOut(gone);
      ExecConcat(c, leave, rest);
      return leave + rest;
    }
    assert Enabled(gone, Send(i));
    var late := Do(gone, Send(i));
    InvStep(gone, Send(i));
    StaffKept(gone, Send(i));
    var rest := RunsOut(late);
    ExecCons(gone, Send(i), rest);
    ExecConcat(c, leave, [Send(i)] + rest);
    steps := leave + ([Send(i)] + rest);
  }

  /** Exactly when closing the first pipeline is safe, for every state a chain can
      be in at that moment: no submit from outside is past its first select, or
      the pipeline has no buffer. */
  lemma CloseIsSafeExactlyWhen(c: Chain)
    requires Reachable(c) && Staffed(c) && Enabled(c, Close) && c.pos == 0
    ensures DrainsAlways(Do(c, Close)) <==> !InFlight(c) || c.stages[0].capacity == 0
  {
    ReachableInv(c);
    var closed := Do(c, Close);
    InvStep(c, Close);
    StaffKept(c, Close);
    if !InFlight(c) || c.stages[0].capacity == 0 {
      SafeCloseDrains(closed);
    } else {
      var i :| i in c.submits && IsWaiting(c.submits, i);
      var steps := RacingSubmitStrands(closed, i);
      assert !Emptied(Exec(closed, steps).value.stages[0]);
    }
  }

  // ---- the loop as it is -------------------------------------------------------------------

  lemma ExecNext(c: Chain, steps: seq<Step>, mid: Chain, step: Step)
    requires Exec(c, steps) == Some(mid) && Enabled(mid, step)
    ensures Exec(c, steps + [step]) == Some(Do(mid, step))
  {
    assert (steps + [step])[..|steps|] == steps;
  }

  /** The chain and what submits from outside are still to do. */
  datatype Moment = Moment(c: Chain, outside: seq<seq<Step>>)

  /** Submits from outside take their enabled steps, in order. */
  function OutsideActs(c: Chain, steps: seq<Step>): Chain {
    if steps == [] then c
    else
      var mid, step := OutsideActs(c, steps[..|steps| - 1]), steps[|steps| - 1];
      if IsOutside(step) && Enabled(mid, step) then Do(mid, step) else mid
  }

  function Heard(m: Moment): Moment {
    if m.outside == [] then m else Moment(OutsideActs(m.c, m.outside[0]), m.outside[1..])
  }

  function Did(c: Chain, step: Step): Chain {
    if Enabled(c, step) then Do(c, step) else c
  }

  /** What the loop does next: close the pipeline of its stage, let the pools run
      until the stage's pool is gone, and go on to the next. */
  function Next(m: Moment, pick: Chain -> Step): Moment {
    if m.c.pos >= |m.c.stages| then m
    else if !m.c.waiting then m.(c := Did(m.c, Close))
    else if AllExited(m.c.stages[m.c.pos]) then m.(c := Did(m.c, Join))
    else
      var mid := Heard(m);
      if mid.c.pos < |mid.c.stages| && AllExited(mid.c.stages[mid.c.pos]) then mid else mid.(c := Did(mid.c, pick(mid.c)))
  }

  function Turning(pick: Chain -> Step): Moment -> Moment {
    m => Next(m, pick)
  }

  /** `m'` is what the loop makes of `m` in some number of turns. */
  ghost predicate Follows(m: Moment, m': Moment, pick: Chain -> Step) {
    TurnsInto(Turning(pick), m, m')
  }

  lemma FollowsOn(m: Moment, m': Moment, m'': Moment, pick: Chain -> Step)
    requires Follows(m, m', pick) && Follows(m', m'', pick)
    ensures Follows(m, m'', pick)
  {
    TurnsOn(Turning(pick), m, m', m'');
  }

  lemma FollowsOne(m: Moment, pick: Chain -> Step)
    ensures Follows(m, m, pick) && Follows(m, Next(m, pick), pick)
  {
    OneTurn(Turning(pick), m);
  }

  lemma FollowsNext(m: Moment, m': Moment, pick: Chain -> Step)
    requires Follows(m, m', pick)
    ensures Follows(m, Next(m', pick), pick)
  {
    FollowsOne(m', pick);
    FollowsOn(m, m', Next(m', pick), pick);
  }

  class Shutdown {
    var chain: Chain
    /** Which of the workers that can run does so next. */
    const pick: Chain -> Step
    /** What submits from outside do before each turn of the workers. */
    var outside: seq<seq<Step>>
    ghost const origin: Chain
    ghost var trace: seq<Step>

    ghost function Now(): Moment
      reads this
    {
      Moment(chain, outside)
    }

    ghost predicate Valid()
      reads this
    {
      Reachable(origin) && Exec(origin, trace) == Some(chain) && Staffed(chain)
    }

    constructor (c: Chain, pick: Chain -> Step, outside: seq<seq<Step>>)
      requires Reachable(c) && Staffed(c)
      ensures Valid() && chain == c && this.pick == pick && this.outside == outside && trace == []
    {
      chain, this.pick, this.outside, origin, trace := c, pick, outside, c, [];
    }

    method Advance(step: Step)
      requires Valid() && Enabled(chain, step)
      modifies this`chain, this`trace
      ensures Valid() && chain == Do(old(chain), step) && trace == old(trace) + [step]
    {
      StaffKept(chain, step);
      ExecNext(origin, trace, chain, step);
      chain := Do(chain, step);
      trace := trace + [step];
    }

    lemma Known()
      requires Valid()
      ensures Inv(chain)
    {
      ReachableInv(origin);
      RunInv(origin, trace);
    }

    /** `stage.pipe.Close`. */
    method ClosePipe()
      requires Valid() && Enabled(chain, Close)
      modifies this`chain, this`trace
      ensures Valid() && chain == Do(old(chain), Close) && trace == old(trace) + [Close]
    {
      Advance(Close);
    }

    /** Submits from outside get their turn. */
    method Outside()
      requires Valid() && Closing(chain)
      modifies this`chain, this`outside, this`trace
      ensures Valid() && old(trace) <= trace && Held(old(chain), chain)
      ensures Now() == Heard(old(Now()))
      ensures if old(outside) == [] then outside == [] && chain == old(chain) else |outside| < |old(outside)|
    {
      if outside == [] {
        return;
      }
      var turn := outside[0];
      outside := outside[1..];
      for n := 0 to |turn|
        invariant Valid() && old(trace) <= trace && Held(old(chain), chain) && outside == old(outside)[1..]
        invariant chain == OutsideActs(old(chain), turn[..n])
      {
        assert turn[..n + 1][..n] == turn[..n];
        if IsOutside(turn[n]) && Enabled(chain, turn[n]) {
          OutsideHolds(chain, turn[n]);
          Advance(turn[n]);
        }
      }
      assert turn[..|turn|] == turn;
    }

    /** Some worker that can run does. */
    method RunWorker()
      requires Valid() && chain.pos < |chain.stages| && chain.waiting && !AllExited(chain.stages[chain.pos])
      requires forall c :: CanRun(c) ==> IsWorkers(pick(c)) && Enabled(c, pick(c))
      modifies this`chain, this`trace
      ensures Valid() && old(trace) <= trace && Held(old(chain), chain)
      ensures chain == Did(old(chain), pick(old(chain)))
      ensures Weight(chain) < Weight(old(chain))
    {
      Known();
      ghost var some := NeverStuck(chain);
      assert CanRun(chain);
      var step := pick(chain);
      StepShrinks(chain, step);
      WorkersKeep(chain, step);
      StepShape(chain, step);
      Advance(step);
    }

    /** `workers.Wait()`: the pools run, and submits from outside with them, until
        the pool of this stage is gone. */
    method Wait()
      requires Valid() && chain.pos < |chain.stages| && chain.waiting
      requires forall c :: CanRun(c) ==> IsWorkers(pick(c)) && Enabled(c, pick(c))
      modifies this
      ensures Valid() && old(trace) <= trace && Held(old(chain), chain)
      ensures AllExited(chain.stages[chain.pos]) && Follows(old(Now()), Now(), pick)
    {
      ghost var start := Now();
      FollowsOne(start, pick);
      while !AllExited(chain.stages[chain.pos])
        invariant Valid() && old(trace) <= trace && Held(old(chain), chain)
        invariant Follows(start, Now(), pick)
        decreases |outside|, Weight(chain)
      {
        FollowsNext(start, Now(), pick);
        WaitTurn();
      }
    }

    /** One turn of the wait: submits from outside, then a worker. */
    method WaitTurn()
      requires Valid() && chain.pos < |chain.stages| && chain.waiting && !AllExited(chain.stages[chain.pos])
      requires forall c :: CanRun(c) ==> IsWorkers(pick(c)) && Enabled(c, pick(c))
      modifies this
      ensures Valid() && old(trace) <= trace && Held(old(chain), chain)
      ensures Now() == Next(old(Now()), pick)
      ensures |outside| < |old(outside)| || (outside == old(outside) && Weight(chain) < Weight(old(chain)))
    {
      Outside();
      if !AllExited(chain.stages[chain.pos]) {
        RunWorker();
      }
    }

    /** One stage of `drainChain`. */
    method DrainStage()
      requires Valid() && chain.pos < |chain.stages| && !chain.waiting && Enabled(chain, Close)
      requires forall c :: CanRun(c) ==> IsWorkers(pick(c)) && Enabled(c, pick(c))
      modifies this
      ensures Valid() && old(trace) <= trace && SameShape(old(chain), chain)
      ensures chain.pos == old(chain).pos + 1 && !chain.waiting
      ensures chain.raced == if old(chain).pos == 0 then InFlight(old(chain)) else old(chain).raced
      ensures Follows(old(Now()), Now(), pick)
    {
      ghost var start := Now();
      FollowsOne(start, pick);
      Known();
      StepShape(chain, Close);
      ClosePipe();
      ghost var closed := Now();
      Wait();
      FollowsOn(start, closed, Now(), pick);
      FollowsNext(start, Now(), pick);
      StepShape(chain, Join);
      Advance(Join);
    }

    /** `drainChain`.  Whichever worker runs next and whatever finitely many submits
        from outside do, it returns, and every stage it leaves safe is empty and
        handed on.  What it did is what the loop makes of the chain with those
        choices. */
    method DrainChain()
      requires Valid() && chain.pos == 0 && !chain.waiting
      requires forall c :: CanRun(c) ==> IsWorkers(pick(c)) && Enabled(c, pick(c))
      modifies this
      ensures Valid() && old(trace) <= trace && chain.pos == |chain.stages| && SameShape(old(chain), chain)
      ensures Follows(old(Now()), Now(), pick)
      ensures forall k :: 0 <= k < |chain.stages| ==> AllExited(chain.stages[k]) && chain.stages[k].closed
      ensures forall k :: 0 <= k < |chain.stages| && (k > 0 || !InFlight(old(chain)) || chain.stages[k].capacity == 0) ==>
        Emptied(chain.stages[k]) && HandedOn(chain, k)
    {
      Known();
      ghost var start := Now();
      FollowsOne(start, pick);
      for k := 0 to |chain.stages|
        invariant Valid() && old(trace) <= trace && SameShape(old(chain), chain)
        invariant chain.pos == k && !chain.waiting
        invariant if k == 0 then chain == old(chain) else chain.raced == InFlight(old(chain))
        invariant Follows(start, Now(), pick)
      {
        ghost var here := Now();
        DrainStage();
        FollowsOn(start, here, Now(), pick);
      }
      Known();
      forall k | 0 <= k < |chain.stages|
        ensures AllExited(chain.stages[k]) && chain.stages[k].closed
        ensures (k > 0 || !InFlight(old(chain)) || chain.stages[k].capacity == 0) ==> Emptied(chain.stages[k]) && HandedOn(chain, k)
      {
        assert StageOk(chain.stages[k], k, chain.pos, chain.waiting, chain.raced);
        if k > 0 || !InFlight(old(chain)) || chain.stages[k].capacity == 0 {
          DrainedInv(chain, k);
        }
      }
    }
  }

  /** What neither workers nor submits from outside change. */
  ghost predicate Held(c: Chain, c': Chain) {
    SameShape(c, c') && c'.pos == c.pos && c'.waiting == c.waiting && c'.raced == c.raced
  }

  lemma OutsideHolds(c: Chain, step: Step)
    requires Enabled(c, step) && IsOutside(step)
    ensures Held(c, Do(c, step))
  {
    StepShape(c, step);
  }
}
