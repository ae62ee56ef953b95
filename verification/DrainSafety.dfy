/** What every step of a chain keeps. */
module DrainSafety {
  import opened Options
  import opened Sequences
  import opened DrainChain

  /** Stage `k` is closed exactly when `drainChain` has got to it; its workers
      leave only a closed pipeline, and the last one leaves an empty one, unless a
      submit from outside raced the close. */
  ghost predicate StageOk(s: Stage, k: nat, pos: nat, waiting: bool, raced: bool) {
    && (s.closed <==> k < pos || (k == pos && waiting))
    && (k < pos ==> AllExited(s))
    && (forall w :: 0 <= w < |s.workers| && s.workers[w].Exited? ==> s.closed)
    && s.taken <= |s.accepted|
    && (s.workers == [] ==> s.taken == 0)
    && (AllExited(s) && s.workers != [] && (k > 0 || !raced) ==> !Buffered(s))
  }

  ghost predicate StagesOk(c: Chain) {
    forall k :: 0 <= k < |c.stages| ==> StageOk(c.stages[k], k, c.pos, c.waiting, c.raced)
  }

  function Left(worker: Worker): multiset<Item> {
    if worker.Busy? then multiset(worker.left) else multiset{}
  }

  /** What the workers of a pool still have to hand on. */
  function Pending(workers: seq<Worker>): multiset<Item> {
    if workers == [] then multiset{} else Left(workers[0]) + Pending(workers[1..])
  }

  function Children(items: seq<Item>): multiset<Item> {
    if items == [] then multiset{} else Children(items[..|items| - 1]) + multiset(items[|items| - 1].children)
  }

  /** What stage `s` has handed on and what it still holds is what its received
      items turn into. */
  ghost predicate FlowOk(s: Stage, next: Stage) {
    s.taken <= |s.accepted| && multiset(next.accepted) + Pending(s.workers) == Children(s.accepted[..s.taken])
  }

  ghost predicate Conserved(c: Chain) {
    forall k :: 0 <= k < |c.stages| - 1 ==> FlowOk(c.stages[k], c.stages[k + 1])
  }

  ghost predicate Core(c: Chain) {
    && c.pos <= |c.stages| && (c.waiting ==> c.pos < |c.stages|)
    && !c.refused
    && StagesOk(c) && Conserved(c)
  }

  /** Once the first pipeline is closed no submit is past its first select, unless
      one was at the close. */
  ghost predicate RaceOk(c: Chain) {
    && (c.raced ==> c.pos > 0 || c.waiting)
    && ((c.pos > 0 || c.waiting) && !c.raced ==> forall i :: !IsWaiting(c.submits, i))
  }

  ghost predicate Fits(s: Stage) {
    |s.accepted| - s.taken <= s.capacity
  }

  ghost predicate Bounded(c: Chain) {
    forall k :: 0 <= k < |c.stages| ==> Fits(c.stages[k])
  }

  ghost predicate Inv(c: Chain) {
    Core(c) && RaceOk(c) && Bounded(c)
  }

  // ---- one stage -------------------------------------------------------------------------

  lemma TakeNextOk(s: Stage, k: nat, pos: nat, waiting: bool, raced: bool, w: nat)
    requires StageOk(s, k, pos, waiting, raced)
    requires w < |s.workers| && s.workers[w].Receiving? && Buffered(s)
    ensures StageOk(TakeNext(s, w), k, pos, waiting, raced)
  {
    assert TakeNext(s, w).workers[w].Busy?;
  }

  lemma SetWorkerOk(s: Stage, k: nat, pos: nat, waiting: bool, raced: bool, w: nat, worker: Worker)
    requires StageOk(s, k, pos, waiting, raced)
    requires w < |s.workers| && !s.workers[w].Exited? && !worker.Exited?
    ensures StageOk(SetWorker(s, w, worker), k, pos, waiting, raced)
  {
    assert SetWorker(s, w, worker).workers[w] == worker;
  }

  lemma ExitOk(s: Stage, k: nat, pos: nat, waiting: bool, raced: bool, w: nat)
    requires StageOk(s, k, pos, waiting, raced)
    requires w < |s.workers| && s.workers[w].Receiving? && s.closed && !Buffered(s)
    ensures StageOk(SetWorker(s, w, Exited), k, pos, waiting, raced)
  {
  }

  /** A submit lands only in a stage that is still open, or in the first one if
      it raced the close. */
  lemma AcceptOk(s: Stage, k: nat, pos: nat, waiting: bool, raced: bool, item: Item)
    requires StageOk(s, k, pos, waiting, raced) && (!s.closed || (k == 0 && raced))
    ensures StageOk(Accept(s, item), k, pos, waiting, raced)
  {
    if !s.closed {
      OpenHasWorkers(s);
    }
  }

  lemma OpenHasWorkers(s: Stage)
    requires !s.closed && forall w :: 0 <= w < |s.workers| && s.workers[w].Exited? ==> s.closed
    ensures s.workers != [] ==> !AllExited(s)
  {
    assert s.workers != [] ==> !s.workers[0].Exited?;
  }

  lemma Shift<T>(a: multiset<T>, b: multiset<T>, b': multiset<T>, c: multiset<T>, c': multiset<T>)
    requires b' + c == b + c'
    ensures (a + b') + c == (a + b) + c'
  {
    assert (a + b') + c == a + (b' + c);
    assert (a + b) + c' == a + (b + c');
  }

  lemma PendingSplit(workers: seq<Worker>)
    requires workers != []
    ensures Pending(workers) == Left(workers[0]) + Pending(workers[1..])
  {
  }

  lemma {:induction false} PendingUpdate(workers: seq<Worker>, w: nat, worker: Worker)
    requires w < |workers|
    ensures Pending(workers[w := worker]) + Left(workers[w]) == Pending(workers) + Left(worker)
  {
    var workers' := workers[w := worker];
    PendingSplit(workers);
    PendingSplit(workers');
    if w == 0 {
      assert workers'[1..] == workers[1..];
    } else {
      assert workers'[1..] == workers[1..][w - 1 := worker];
      PendingUpdate(workers[1..], w - 1, worker);
      Shift(Left(workers[0]), Pending(workers[1..]), Pending(workers'[1..]), Left(workers[w]), Left(worker));
    }
  }

  lemma {:induction false} NonePending(workers: seq<Worker>)
    requires forall w :: 0 <= w < |workers| ==> workers[w].Exited?
    ensures Pending(workers) == multiset{}
  {
    if workers == [] {
    } else {
      NonePending(workers[1..]);
    }
  }

  lemma ChildrenNext(items: seq<Item>, n: nat)
    requires n < |items|
    ensures Children(items[..n + 1]) == Children(items[..n]) + multiset(items[n].children)
  {
    assert items[..n + 1][..n] == items[..n];
  }

  lemma PendingTake(workers: seq<Worker>, w: nat, children: seq<Item>)
    requires w < |workers| && workers[w].Receiving?
    ensures Pending(workers[w := Busy(children)]) == Pending(workers) + multiset(children)
  {
    PendingUpdate(workers, w, Busy(children));
    Cancel(Pending(workers[w := Busy(children)]), Pending(workers) + multiset(children), multiset{});
  }

  lemma TakeFlow(s: Stage, next: Stage, w: nat)
    requires FlowOk(s, next) && w < |s.workers| && s.workers[w].Receiving? && Buffered(s)
    ensures FlowOk(TakeNext(s, w), next)
  {
    var children := s.accepted[s.taken].children;
    assert TakeNext(s, w) == s.(workers := s.workers[w := Busy(children)], taken := s.taken + 1);
    PendingTake(s.workers, w, children);
    ChildrenNext(s.accepted, s.taken);
    Associate(multiset(next.accepted), Pending(s.workers), multiset(children));
  }

  lemma Associate<T>(a: multiset<T>, b: multiset<T>, c: multiset<T>)
    ensures a + (b + c) == (a + b) + c
  {
  }

  lemma PendingPass(workers: seq<Worker>, w: nat)
    requires w < |workers| && workers[w].Busy? && |workers[w].left| > 0
    ensures Pending(workers) == multiset{workers[w].left[0]} + Pending(workers[w := Busy(workers[w].left[1..])])
  {
    var left := workers[w].left;
    var workers' := workers[w := Busy(left[1..])];
    PendingUpdate(workers, w, Busy(left[1..]));
    assert left == [left[0]] + left[1..];
    Associate(multiset{left[0]}, Pending(workers'), multiset(left[1..]));
    Associate(Pending(workers'), multiset{left[0]}, multiset(left[1..]));
    Cancel(multiset{left[0]} + Pending(workers'), Pending(workers), multiset(left[1..]));
  }

  lemma PassFlow(s: Stage, next: Stage, w: nat)
    requires FlowOk(s, next) && w < |s.workers| && s.workers[w].Busy? && |s.workers[w].left| > 0
    ensures FlowOk(SetWorker(s, w, Busy(s.workers[w].left[1..])), Accept(next, s.workers[w].left[0]))
  {
    var item := s.workers[w].left[0];
    PendingPass(s.workers, w);
    assert multiset(next.accepted + [item]) == multiset(next.accepted) + multiset{item};
    Associate(multiset(next.accepted), multiset{item}, Pending(s.workers[w := Busy(s.workers[w].left[1..])]));
  }

  lemma IdleFlow(s: Stage, next: Stage, w: nat, worker: Worker)
    requires FlowOk(s, next) && w < |s.workers| && Left(s.workers[w]) == multiset{} == Left(worker)
    ensures FlowOk(SetWorker(s, w, worker), next)
  {
    PendingUpdate(s.workers, w, worker);
    Cancel(Pending(s.workers[w := worker]), Pending(s.workers), Left(worker));
  }

  lemma AcceptFlow(s: Stage, next: Stage, item: Item)
    requires FlowOk(s, next)
    ensures FlowOk(Accept(s, item), next)
  {
    assert Accept(s, item).accepted[..s.taken] == s.accepted[..s.taken];
  }

  // ---- one step of the chain ----------------------------------------------------------------

  /** A worker that has something to hand on finds the next pipeline open. */
  lemma NextIsOpen(c: Chain, k: nat, w: nat)
    requires StagesOk(c) && k + 1 < |c.stages| && w < |c.stages[k].workers| && !c.stages[k].workers[w].Exited?
    ensures !c.stages[k + 1].closed
  {
    assert StageOk(c.stages[k], k, c.pos, c.waiting, c.raced);
    assert StageOk(c.stages[k + 1], k + 1, c.pos, c.waiting, c.raced);
  }

  /** A stage changes in place: what it has accepted stays. */
  lemma ReplaceOk(c: Chain, k: nat, s: Stage)
    requires Core(c) && k < |c.stages| && StageOk(s, k, c.pos, c.waiting, c.raced)
    requires s.accepted == c.stages[k].accepted
    requires k + 1 < |c.stages| ==> FlowOk(s, c.stages[k + 1])
    ensures Core(SetStage(c, k, s))
  {
    var c' := SetStage(c, k, s);
    forall n | 0 <= n < |c'.stages| - 1 ensures FlowOk(c'.stages[n], c'.stages[n + 1]) {
      assert n != k ==> FlowOk(c.stages[n], c.stages[n + 1]);
    }
  }

  lemma FlowSame(s: Stage, next: Stage, next': Stage)
    requires FlowOk(s, next) && next'.accepted == next.accepted
    ensures FlowOk(s, next')
  {
  }

  lemma ReplaceTwoFlow(c: Chain, k: nat, s: Stage, next: Stage)
    requires Conserved(c) && k + 1 < |c.stages|
    requires s.accepted == c.stages[k].accepted && FlowOk(s, next)
    requires k + 2 < |c.stages| ==> FlowOk(next, c.stages[k + 2])
    ensures Conserved(SetStage(SetStage(c, k, s), k + 1, next))
  {
    var c' := SetStage(SetStage(c, k, s), k + 1, next);
    forall n | 0 <= n < |c'.stages| - 1 ensures FlowOk(c'.stages[n], c'.stages[n + 1]) {
      if n != k && n != k + 1 {
        FlowSame(c.stages[n], c.stages[n + 1], c'.stages[n + 1]);
      }
    }
  }

  lemma ReplaceTwoOk(c: Chain, k: nat, s: Stage, next: Stage)
    requires Core(c) && k + 1 < |c.stages|
    requires StageOk(s, k, c.pos, c.waiting, c.raced) && StageOk(next, k + 1, c.pos, c.waiting, c.raced)
    requires s.accepted == c.stages[k].accepted && FlowOk(s, next)
    requires k + 2 < |c.stages| ==> FlowOk(next, c.stages[k + 2])
    ensures Core(SetStage(SetStage(c, k, s), k + 1, next))
  {
    ReplaceTwoFlow(c, k, s, next);
    assert StagesOk(SetStage(SetStage(c, k, s), k + 1, next));
  }

  lemma TakeStep(c: Chain, k: nat, w: nat)
    requires Core(c) && At(c, k, w) && c.stages[k].workers[w].Receiving? && Buffered(c.stages[k])
    ensures Core(SetStage(c, k, TakeNext(c.stages[k], w)))
  {
    TakeNextOk(c.stages[k], k, c.pos, c.waiting, c.raced, w);
    if k + 1 < |c.stages| {
      TakeFlow(c.stages[k], c.stages[k + 1], w);
    }
    ReplaceOk(c, k, TakeNext(c.stages[k], w));
  }

  lemma PassStep(c: Chain, k: nat, w: nat)
    requires Core(c) && Emitting(c, k, w)
    ensures Core(Pass(c, k, w)) && !c.stages[k + 1].closed
  {
    var s, next := c.stages[k], c.stages[k + 1];
    var item, worker := s.workers[w].left[0], Busy(s.workers[w].left[1..]);
    NextIsOpen(c, k, w);
    SetWorkerOk(s, k, c.pos, c.waiting, c.raced, w, worker);
    AcceptOk(next, k + 1, c.pos, c.waiting, c.raced, item);
    PassFlow(s, next, w);
    if k + 2 < |c.stages| {
      AcceptFlow(next, c.stages[k + 2], item);
    }
    ReplaceTwoOk(c, k, SetWorker(s, w, worker), Accept(next, item));
  }

  lemma FinishStep(c: Chain, k: nat, w: nat)
    requires Core(c) && Enabled(c, Finish(k, w))
    ensures Core(Do(c, Finish(k, w)))
  {
    SetWorkerOk(c.stages[k], k, c.pos, c.waiting, c.raced, w, Receiving);
    if k + 1 < |c.stages| {
      IdleFlow(c.stages[k], c.stages[k + 1], w, Receiving);
    }
    ReplaceOk(c, k, SetWorker(c.stages[k], w, Receiving));
  }

  lemma ExitStep(c: Chain, k: nat, w: nat)
    requires Core(c) && Enabled(c, Exit(k, w))
    ensures Core(Do(c, Exit(k, w)))
  {
    ExitOk(c.stages[k], k, c.pos, c.waiting, c.raced, w);
    if k + 1 < |c.stages| {
      IdleFlow(c.stages[k], c.stages[k + 1], w, Exited);
    }
    ReplaceOk(c, k, SetWorker(c.stages[k], w, Exited));
  }

  lemma SubmitsMove(c: Chain, submits: map<nat, Submit>)
    requires Core(c)
    ensures Core(c.(submits := submits))
  {
  }

  lemma AdmitStep(c: Chain, i: nat)
    requires Core(c) && RaceOk(c) && IsWaiting(c.submits, i) && |c.stages| > 0
    ensures Core(Admit(c, i))
  {
    var s := c.stages[0];
    assert StageOk(s, 0, c.pos, c.waiting, c.raced);
    AcceptOk(s, 0, c.pos, c.waiting, c.raced, c.submits[i].item);
    if 1 < |c.stages| {
      AcceptFlow(s, c.stages[1], c.submits[i].item);
    }
    FirstGrows(c, Accept(s, c.submits[i].item));
    SubmitsMove(SetStage(c, 0, Accept(s, c.submits[i].item)), c.submits[i := Accepted]);
  }

  lemma FirstGrows(c: Chain, s: Stage)
    requires Core(c) && |c.stages| > 0 && StageOk(s, 0, c.pos, c.waiting, c.raced)
    requires 1 < |c.stages| ==> FlowOk(s, c.stages[1])
    ensures Core(SetStage(c, 0, s))
  {
    var c' := SetStage(c, 0, s);
    forall n | 0 <= n < |c'.stages| - 1 ensures FlowOk(c'.stages[n], c'.stages[n + 1]) {
      if n > 0 {
        FlowSame(c.stages[n], c.stages[n + 1], c'.stages[n + 1]);
      }
    }
  }

  lemma OfferStep(c: Chain, i: nat, v: nat)
    requires Core(c) && RaceOk(c) && Enabled(c, Offer(i, v))
    ensures Core(Do(c, Offer(i, v)))
  {
    AdmitStep(c, i);
    TakeStep(Admit(c, i), 0, v);
  }

  lemma ClosesStage(s: Stage, k: nat, pos: nat, raced: bool, raced': bool)
    requires StageOk(s, k, pos, false, raced) && (raced ==> raced')
    ensures StageOk(if k == pos then s.(closed := true) else s, k, pos, true, raced')
  {
    if k == pos && !s.closed {
      OpenHasWorkers(s);
    }
  }

  lemma CloseStep(c: Chain)
    requires Core(c) && Enabled(c, Close)
    ensures Core(Do(c, Close))
  {
    var c' := Do(c, Close);
    forall k | 0 <= k < |c'.stages| ensures StageOk(c'.stages[k], k, c'.pos, c'.waiting, c'.raced) {
      ClosesStage(c.stages[k], k, c.pos, c.raced, c'.raced);
    }
    forall k | 0 <= k < |c'.stages| - 1 ensures FlowOk(c'.stages[k], c'.stages[k + 1]) {
      assert FlowOk(c.stages[k], c.stages[k + 1]);
      FlowSame(c'.stages[k], c.stages[k + 1], c'.stages[k + 1]);
    }
  }

  lemma JoinStep(c: Chain)
    requires Core(c) && Enabled(c, Join)
    ensures Core(Do(c, Join))
  {
    var c' := Do(c, Join);
    forall k | 0 <= k < |c'.stages| ensures StageOk(c'.stages[k], k, c'.pos, c'.waiting, c'.raced) {
      assert StageOk(c.stages[k], k, c.pos, c.waiting, c.raced);
    }
  }

  /** After the first half of a handoff its item is there for the receiver. */
  lemma PassOffers(c: Chain, k: nat, w: nat, v: nat)
    requires Enabled(c, Handoff(k, w, v))
    ensures var p := Pass(c, k, w);
      At(p, k + 1, v) && p.stages[k + 1].workers[v].Receiving? && Buffered(p.stages[k + 1])
  {
  }

  lemma HandoffDoes(c: Chain, k: nat, w: nat, v: nat)
    requires Enabled(c, Handoff(k, w, v))
    ensures var p := Pass(c, k, w);
      At(p, k + 1, v) && Buffered(p.stages[k + 1]) &&
      Do(c, Handoff(k, w, v)) == SetStage(p, k + 1, TakeNext(p.stages[k + 1], v))
  {
  }

  lemma HandoffStep(c: Chain, k: nat, w: nat, v: nat)
    requires Core(c) && Enabled(c, Handoff(k, w, v))
    ensures Core(Do(c, Handoff(k, w, v)))
  {
    HandoffDoes(c, k, w, v);
    PassOffers(c, k, w, v);
    assert Core(Pass(c, k, w)) by {
      PassStep(c, k, w);
    }
    TakeStep(Pass(c, k, w), k + 1, v);
  }

  lemma CoreStep(c: Chain, step: Step)
    requires Core(c) && RaceOk(c) && Enabled(c, step)
    ensures Core(Do(c, step))
  {
    match step
    case Arrive(_, _) => SubmitsMove(c, Do(c, step).submits);
    case Check(_) => SubmitsMove(c, Do(c, step).submits);
    case GiveUp(_) => SubmitsMove(c, Do(c, step).submits);
    case Send(i) => AdmitStep(c, i);
    case Offer(i, v) => OfferStep(c, i, v);
    case Receive(k, w) => TakeStep(c, k, w);
    case Emit(k, w) => PassStep(c, k, w);
    case Handoff(k, w, v) => HandoffStep(c, k, w, v);
    case Finish(k, w) => FinishStep(c, k, w);
    case Exit(k, w) => ExitStep(c, k, w);
    case Close => CloseStep(c);
    case Join => JoinStep(c);
  }

  lemma OutsideRace(c: Chain, step: Step)
    requires Core(c) && RaceOk(c) && Enabled(c, step) && IsOutside(step)
    ensures RaceOk(Do(c, step))
  {
    var c' := Do(c, step);
    if (c.pos > 0 || c.waiting) && !c.raced {
      if |c.stages| > 0 {
        assert StageOk(c.stages[0], 0, c.pos, c.waiting, c.raced);
      }
      forall i ensures !IsWaiting(c'.submits, i) {
        assert !IsWaiting(c.submits, i);
      }
    }
  }

  lemma RaceStep(c: Chain, step: Step)
    requires Core(c) && RaceOk(c) && Enabled(c, step)
    ensures RaceOk(Do(c, step))
  {
    if IsOutside(step) {
      OutsideRace(c, step);
    } else if step.Close? && c.pos == 0 {
      CloseRaces(c);
    }
  }

  lemma CloseRaces(c: Chain)
    requires RaceOk(c) && Enabled(c, Close) && c.pos == 0
    ensures RaceOk(Do(c, Close))
  {
    if !InFlight(c) {
      forall i ensures !IsWaiting(c.submits, i) {
        assert i in c.submits ==> !IsWaiting(c.submits, i);
      }
    }
  }

  lemma ReplaceFits(c: Chain, k: nat, s: Stage)
    requires Bounded(c) && k < |c.stages| && Fits(s)
    ensures Bounded(SetStage(c, k, s))
  {
  }

  /** Nothing is accepted beyond the room there is. */
  lemma BoundedStep(c: Chain, step: Step)
    requires Bounded(c) && StagesOk(c) && Enabled(c, step)
    ensures Bounded(Do(c, step))
  {
    match step
    case Send(i) => ReplaceFits(c, 0, Accept(c.stages[0], c.submits[i].item));
    case Offer(i, v) => ReplaceFits(c, 0, TakeNext(Admit(c, i).stages[0], v));
    case Receive(k, w) => ReplaceFits(c, k, TakeNext(c.stages[k], w));
    case Emit(k, w) => EmitFits(c, k, w);
    case Handoff(k, w, v) => HandoffFits(c, k, w, v);
    case Finish(k, w) => ReplaceFits(c, k, SetWorker(c.stages[k], w, Receiving));
    case Exit(k, w) => ReplaceFits(c, k, SetWorker(c.stages[k], w, Exited));
    case Close => ReplaceFits(c, c.pos, c.stages[c.pos].(closed := true));
    case _ =>
  }

  lemma SentFits(c: Chain, k: nat, w: nat)
    requires Bounded(c) && Emitting(c, k, w)
    ensures Bounded(Sent(c, k, w))
  {
    ReplaceFits(c, k, SetWorker(c.stages[k], w, Busy(c.stages[k].workers[w].left[1..])));
  }

  lemma EmitFits(c: Chain, k: nat, w: nat)
    requires Bounded(c) && Enabled(c, Emit(k, w))
    ensures Bounded(Do(c, Emit(k, w)))
  {
    SentFits(c, k, w);
    if !c.stages[k + 1].closed {
      ReplaceFits(Sent(c, k, w), k + 1, Accept(c.stages[k + 1], c.stages[k].workers[w].left[0]));
    }
  }

  lemma HandoffFits(c: Chain, k: nat, w: nat, v: nat)
    requires Bounded(c) && Enabled(c, Handoff(k, w, v))
    ensures Bounded(Do(c, Handoff(k, w, v)))
  {
    var p := Pass(c, k, w);
    HandoffDoes(c, k, w, v);
    SentFits(c, k, w);
    ReplaceFits(Sent(c, k, w), k + 1, TakeNext(p.stages[k + 1], v));
    assert SetStage(p, k + 1, TakeNext(p.stages[k + 1], v)) == SetStage(Sent(c, k, w), k + 1, TakeNext(p.stages[k + 1], v));
  }

  lemma InvStep(c: Chain, step: Step)
    requires Inv(c) && Enabled(c, step)
    ensures Inv(Do(c, step))
  {
    CoreStep(c, step);
    RaceStep(c, step);
    BoundedStep(c, step);
  }

  lemma InitInv(sizes: seq<(nat, nat)>)
    ensures Inv(Init(sizes))
  {
    var c := Init(sizes);
    forall k | 0 <= k < |c.stages| ensures Pending(c.stages[k].workers) == multiset{} {
      IdlePending(c.stages[k].workers);
    }
    forall k | 0 <= k < |c.stages| ensures StageOk(c.stages[k], k, c.pos, c.waiting, c.raced) {
      assert c.stages[k].workers != [] ==> c.stages[k].workers[0].Receiving?;
    }
  }

  lemma {:induction false} IdlePending(workers: seq<Worker>)
    requires forall w :: 0 <= w < |workers| ==> workers[w].Receiving?
    ensures Pending(workers) == multiset{}
  {
    if workers == [] {
    } else {
      IdlePending(workers[1..]);
    }
  }

  lemma {:induction false} RunInv(c: Chain, steps: seq<Step>)
    requires Inv(c) && Exec(c, steps).Some?
    ensures Inv(Exec(c, steps).value)
  {
    if steps == [] {
    } else {
      RunInv(c, steps[..|steps| - 1]);
      InvStep(Exec(c, steps[..|steps| - 1]).value, steps[|steps| - 1]);
    }
  }

  lemma ReachableInv(c: Chain)
    requires Reachable(c)
    ensures Inv(c)
  {
    var sizes, steps :| Exec(Init(sizes), steps) == Some(c);
    InitInv(sizes);
    RunInv(Init(sizes), steps);
  }
}
