/** The outcome worker: a goroutine that receives outcomes from the queue, and
    an event loop that batches them, applies full batches, and keeps a batch
    whose write failed.

    The loop and the goroutine meet at an unbuffered channel, so an outcome
    can be in the goroutine's hand, out of the queue and not yet in the batch. */
module OutcomeWorker {
  import opened Options
  import opened Sequences
  import LA = LATables
  import LABatching
  import Push = PushTables

  /** `accepted` is every outcome the queue took, `calls` the apply calls that
      succeeded, `tried` the batch last offered to the store, `lost` an outcome
      the goroutine dropped because its context was cancelled. */
  datatype Worker<O> = Worker(queueSize: nat, queue: seq<O>, closed: bool, receiving: bool, hand: Option<O>, lost: Option<O>,
                              batch: seq<O>, calls: seq<seq<O>>, tried: seq<O>, flushFailed: bool,
                              cancelled: bool, exited: bool, accepted: seq<O>)

  datatype Step<O> =
    | Arrive(outcome: O)
    | CloseQueue
    | Receive
    | EndReceiving
    | DropHand
    | HandOver(ok: bool)
    | Tick(ok: bool)
    | Finish(ok: bool)
    | Cancel
    | Quit(ok: bool)

  function Init<O>(queueSize: nat): Worker<O> {
    Worker(queueSize, [], false, true, None, None, [], [], [], false, false, false, [])
  }

  /** `flush`: an empty batch makes no call, a failed call keeps the batch. */
  function Flush<O>(w: Worker<O>, ok: bool): Worker<O> {
    if w.batch == [] then w
    else if ok then w.(calls := w.calls + [w.batch], tried := w.batch, batch := [], flushFailed := false)
    else w.(tried := w.batch, flushFailed := true)
  }

  predicate Enabled<O>(w: Worker<O>, step: Step<O>) {
    match step
    case Arrive(_) => !w.closed
    case CloseQueue => true
    case Receive => w.receiving && w.hand.None? && |w.queue| > 0
    case EndReceiving => w.receiving && w.hand.None? && ((w.closed && |w.queue| == 0) || w.cancelled)
    case DropHand => w.hand.Some? && w.cancelled
    case HandOver(_) => w.hand.Some? && !w.exited
    case Tick(_) => !w.exited
    case Finish(_) => !w.receiving && !w.exited
    case Cancel => true
    case Quit(_) => w.cancelled && !w.exited
  }

  function Do<O>(w: Worker<O>, step: Step<O>): Worker<O>
    requires Enabled(w, step)
  {
    match step
    case Arrive(o) => w.(queue := w.queue + [o], accepted := w.accepted + [o])
    case CloseQueue => w.(closed := true)
    case Receive => w.(hand := Some(w.queue[0]), queue := w.queue[1..])
    case EndReceiving => w.(receiving := false)
    case DropHand => w.(lost := w.hand, hand := None, receiving := false)
    case HandOver(ok) =>
      var taken := w.(batch := w.batch + [w.hand.value], hand := None);
      if |taken.batch| >= w.queueSize then Flush(taken, ok) else taken
    case Tick(ok) => Flush(w, ok)
    case Finish(ok) => Flush(w, ok).(exited := true)
    case Cancel => w.(cancelled := true)
    case Quit(ok) => Flush(w, ok).(exited := true)
  }

  function Exec<O>(w: Worker<O>, steps: seq<Step<O>>): Option<Worker<O>> {
    if steps == [] then Some(w)
    else
      match Exec(w, steps[..|steps| - 1])
      case None => None
      case Some(mid) => if Enabled(mid, steps[|steps| - 1]) then Some(Do(mid, steps[|steps| - 1])) else None
  }

  ghost predicate Reachable<O(!new)>(w: Worker<O>) {
    exists queueSize: nat, steps :: queueSize >= 1 && Exec(Init<O>(queueSize), steps) == Some(w)
  }

  // ---- what every step keeps -----------------------------------------------------------

  function Held<O>(hand: Option<O>): seq<O> {
    if hand.None? then [] else [hand.value]
  }

  /** What the event loop has been handed. */
  function Handed<O>(w: Worker<O>): seq<O> {
    Flatten(w.calls) + w.batch
  }

  ghost predicate InOrder<O>(w: Worker<O>) {
    Handed(w) + Held(w.hand) + Held(w.lost) + w.queue == w.accepted
  }

  ghost predicate PhasesOk<O>(w: Worker<O>) {
    && w.queueSize >= 1
    && (!w.flushFailed ==> |w.batch| < w.queueSize)
    && (w.flushFailed ==> w.batch != [])
    && (w.hand.Some? ==> w.receiving && w.lost.None?)
    && (w.lost.Some? ==> w.cancelled && !w.receiving)
    && (!w.receiving && !w.cancelled ==> w.closed && w.queue == [])
    && (w.exited ==> w.cancelled || !w.receiving)
    && (w.exited && w.batch != [] ==> w.flushFailed && w.tried == w.batch)
  }

  ghost predicate Inv<O>(w: Worker<O>) {
    InOrder(w) && PhasesOk(w)
  }

  lemma FlushOrder<O>(w: Worker<O>, ok: bool)
    ensures Handed(Flush(w, ok)) == Handed(w)
  {
    if w.batch != [] && ok {
      var calls' := w.calls + [w.batch];
      assert calls'[..|calls'| - 1] == w.calls;
      assert Flatten(calls') == Flatten(w.calls) + w.batch;
      assert Flush(w, ok).calls == calls' && Flush(w, ok).batch == [];
    }
  }

  lemma HandOverOrder<O>(w: Worker<O>, ok: bool)
    requires Enabled(w, HandOver(ok))
    ensures Handed(Do(w, HandOver(ok))) == Handed(w) + Held(w.hand)
  {
    var taken := w.(batch := w.batch + [w.hand.value], hand := None);
    assert Handed(taken) == Handed(w) + Held(w.hand);
    FlushOrder(taken, ok);
  }

  lemma FourParts<O>(a: seq<O>, b: seq<O>, c: seq<O>, d: seq<O>, o: O)
    ensures (a + b + c + d) + [o] == a + b + c + (d + [o])
    ensures d != [] ==> a + [] + [] + d == a + [d[0]] + [] + d[1..]
  {
  }

  lemma FlushInOrder<O>(w: Worker<O>, ok: bool, exited: bool)
    requires InOrder(w)
    ensures InOrder(Flush(w, ok).(exited := exited))
  {
    FlushOrder(w, ok);
  }

  lemma HandOverInOrder<O>(w: Worker<O>, ok: bool)
    requires InOrder(w) && Enabled(w, HandOver(ok)) && w.lost.None?
    ensures InOrder(Do(w, HandOver(ok)))
  {
    HandOverOrder(w, ok);
    var w' := Do(w, HandOver(ok));
    assert w'.hand.None? && w'.lost.None? && w'.queue == w.queue && w'.accepted == w.accepted;
  }

  lemma ReceiveInOrder<O>(w: Worker<O>)
    requires InOrder(w) && Enabled(w, Receive) && w.lost.None?
    ensures InOrder(Do(w, Receive))
  {
    FourParts(Handed(w), [], [], w.queue, w.queue[0]);
  }

  lemma OrderStep<O>(w: Worker<O>, step: Step<O>)
    requires InOrder(w) && PhasesOk(w) && Enabled(w, step)
    ensures InOrder(Do(w, step))
  {
    match step
    case Arrive(o) => FourParts(Handed(w), Held(w.hand), Held(w.lost), w.queue, o);
    case Receive => ReceiveInOrder(w);
    case HandOver(ok) => HandOverInOrder(w, ok);
    case Tick(ok) => FlushInOrder(w, ok, w.exited);
    case Finish(ok) => FlushInOrder(w, ok, true);
    case Quit(ok) => FlushInOrder(w, ok, true);
    case _ =>
  }

  lemma HandOverPhases<O>(w: Worker<O>, ok: bool)
    requires PhasesOk(w) && Enabled(w, HandOver(ok))
    ensures PhasesOk(Do(w, HandOver(ok)))
  {
  }

  lemma PhasesStep<O>(w: Worker<O>, step: Step<O>)
    requires PhasesOk(w) && Enabled(w, step)
    ensures PhasesOk(Do(w, step))
  {
    if step.HandOver? {
      HandOverPhases(w, step.ok);
    }
  }

  lemma {:induction false} RunInv<O>(w: Worker<O>, steps: seq<Step<O>>)
    requires Inv(w) && Exec(w, steps).Some?
    ensures Inv(Exec(w, steps).value)
  {
    if steps == [] {
    } else {
      RunInv(w, steps[..|steps| - 1]);
      OrderStep(Exec(w, steps[..|steps| - 1]).value, steps[|steps| - 1]);
      PhasesStep(Exec(w, steps[..|steps| - 1]).value, steps[|steps| - 1]);
    }
  }

  lemma ReachableInv<O(!new)>(w: Worker<O>)
    requires Reachable(w)
    ensures Inv(w)
  {
    var queueSize: nat, steps :| queueSize >= 1 && Exec(Init<O>(queueSize), steps) == Some(w);
    RunInv(Init<O>(queueSize), steps);
  }

  // ---- the promises ----------------------------------------------------------------------

  /** Nothing is lost, duplicated or reordered on the way: what was applied, the
      batch, the outcome in hand, one dropped by cancellation and the queue
      always make up the accepted outcomes in order. */
  lemma Conserved<O(!new)>(w: Worker<O>)
    requires Reachable(w)
    ensures Flatten(w.calls) + w.batch + Held(w.hand) + Held(w.lost) + w.queue == w.accepted
    ensures !w.cancelled ==> w.lost.None?
  {
    ReachableInv(w);
  }

  /** After each step the batch is shorter than the limit, unless its last
      write failed. */
  lemma BatchIsShort<O(!new)>(w: Worker<O>)
    requires Reachable(w) && !w.flushFailed
    ensures |w.batch| < w.queueSize
  {
    ReachableInv(w);
  }

  /** Applied calls stay applied, and a failed write loses nothing: the batch is
      as before, with at most the outcome just handed over at its end. */
  lemma WritesOnlyAdd<O>(w: Worker<O>, step: Step<O>)
    requires Enabled(w, step)
    ensures w.calls <= Do(w, step).calls
    ensures Do(w, step).calls == w.calls ==>
      Do(w, step).batch == w.batch + if step.HandOver? then [w.hand.value] else []
  {
    match step
    case HandOver(ok) => FlushAdds(w.(batch := w.batch + [w.hand.value], hand := None), ok);
    case Tick(ok) => FlushAdds(w, ok);
    case Finish(ok) => FlushAdds(w, ok);
    case Quit(ok) => FlushAdds(w, ok);
    case _ =>
  }

  /** Exactly when the store is called, and with what: a full batch is written when
      its last outcome comes in, any batch on a tick and on the way out, and an
      empty one never. */
  lemma WritesExactlyWhen<O>(w: Worker<O>, step: Step<O>)
    requires Enabled(w, step)
    ensures Do(w, step).calls == w.calls +
      match step
      case HandOver(ok) => if ok && |w.batch| + 1 >= w.queueSize then [w.batch + [w.hand.value]] else []
      case Tick(ok) => if ok && w.batch != [] then [w.batch] else []
      case Finish(ok) => if ok && w.batch != [] then [w.batch] else []
      case Quit(ok) => if ok && w.batch != [] then [w.batch] else []
      case _ => []
  {
  }

  lemma FlushAdds<O>(w: Worker<O>, ok: bool)
    ensures w.calls <= Flush(w, ok).calls
    ensures Flush(w, ok).calls == w.calls ==> Flush(w, ok).batch == w.batch
  {
  }

  /** A graceful exit loses nothing but what its last write failed to apply:
      every accepted outcome was offered to the store, and all of them were
      applied exactly when that write did not fail. */
  lemma GracefulExit<O(!new)>(w: Worker<O>)
    requires Reachable(w) && w.exited && !w.cancelled
    ensures w.closed && Flatten(w.calls) + w.batch == w.accepted
    ensures if w.flushFailed then w.batch != [] && w.tried == w.batch else w.batch == []
    ensures Flatten(w.calls) == w.accepted <==> !w.flushFailed
  {
    ReachableInv(w);
    assert w.batch != [] ==> |Flatten(w.calls) + w.batch| > |Flatten(w.calls)|;
  }

  /** Live Activities: whatever the batch limit, the ticks and the failed writes
      were, the apply calls of a graceful exit change the tables as one
      transaction over the accepted outcomes would. */
  lemma LATablesAfterExit(w: Worker<LA.Outcome>, t: LA.Tables)
    requires Reachable(w) && w.exited && !w.cancelled && !w.flushFailed
    ensures LABatching.ApplyBatches(t, w.calls) == LA.ApplyOutcomes(t, w.accepted)
  {
    GracefulExit(w);
    LABatching.BatchingIsInvisible(t, w.calls);
  }

  /** The same for push outcomes. */
  lemma PushTablesAfterExit(w: Worker<Push.Receipt>, t: Push.Tables)
    requires Reachable(w) && w.exited && !w.cancelled && !w.flushFailed
    ensures Push.ApplyBatches(t, w.calls) == Push.ApplyReceipts(t, w.accepted)
  {
    GracefulExit(w);
    Push.BatchingIsInvisible(t, w.calls);
  }

  // ---- the event loop as it is ------------------------------------------------------------

  method NormalizeOutcomeSettings(queueSize: int, queueFlushTime: int) returns (size: nat, seconds: nat)
    ensures size >= 1 && (queueSize >= 1 ==> size == queueSize) && (queueSize < 1 ==> size == 1)
    ensures seconds >= 1 && (queueFlushTime >= 1 ==> seconds == queueFlushTime) && (queueFlushTime < 1 ==> seconds == 1)
  {
    size, seconds := 1, 1;
    if queueSize >= 1 {
      size := queueSize;
    }
    if queueFlushTime >= 1 {
      seconds := queueFlushTime;
    }
  }

  /** What the goroutine hands over: an outcome in its wrapper. */
  datatype Delivery<O> = Delivery(item: O, retryCount: nat)

  function Unwrapped<O>(deliveries: seq<Delivery<O>>): seq<O> {
    seq(|deliveries|, i requires 0 <= i < |deliveries| => deliveries[i].item)
  }

  datatype Case = OnDelivery | OnTick | OnContext

  /** A turn of the loop: what the others did, the case taken, and whether a
      write made in it succeeds. */
  datatype Turn<O> = Turn(others: seq<Step<O>>, choice: Case, ok: bool)

  /** The steps of everybody but the event loop. */
  predicate IsOther<O>(step: Step<O>) {
    step.Arrive? || step.CloseQueue? || step.Receive? || step.EndReceiving? || step.DropHand? || step.Cancel?
  }

  // ---- what a list of turns makes of the worker ----------------------------------------------

  /** The worker and what has happened so far. */
  datatype Logged<O> = Logged(w: Worker<O>, trace: seq<Step<O>>)

  /** The others take their enabled steps, in order. */
  function OthersAct<O>(m: Logged<O>, steps: seq<Step<O>>): Logged<O> {
    if steps == [] then m
    else
      var mid, step := OthersAct(m, steps[..|steps| - 1]), steps[|steps| - 1];
      if IsOther(step) && Enabled(mid.w, step) then Logged(Do(mid.w, step), mid.trace + [step]) else mid
  }

  lemma {:induction false} OthersLeave<O>(m: Logged<O>, steps: seq<Step<O>>)
    ensures var w := OthersAct(m, steps).w;
      w.exited == m.w.exited && w.batch == m.w.batch && w.calls == m.w.calls && w.queueSize == m.w.queueSize
  {
    if steps == [] {
    } else {
      OthersLeave(m, steps[..|steps| - 1]);
    }
  }

  /** What the loop does when the select picks a case; nothing if the case is not ready. */
  function Chosen<O>(w: Worker<O>, choice: Case, ok: bool): (step: Option<Step<O>>)
    ensures !w.exited && step.Some? ==> Enabled(w, step.value)
  {
    match choice
    case OnDelivery => if w.hand.Some? then Some(HandOver(ok)) else if !w.receiving then Some(Finish(ok)) else None
    case OnTick => Some(Tick(ok))
    case OnContext => if w.cancelled then Some(Quit(ok)) else None
  }

  function AfterTurn<O>(m: Logged<O>, turn: Turn<O>): Logged<O> {
    var mid := OthersAct(m, turn.others);
    var step := Chosen(mid.w, turn.choice, turn.ok);
    if step.Some? && Enabled(mid.w, step.value) then Logged(Do(mid.w, step.value), mid.trace + [step.value]) else mid
  }

  /** The turns one after the other, until the loop has returned. */
  function Played<O>(m: Logged<O>, turns: seq<Turn<O>>): Logged<O> {
    if turns == [] then m
    else
      var before := Played(m, turns[..|turns| - 1]);
      if before.w.exited then before else AfterTurn(before, turns[|turns| - 1])
  }

  lemma {:induction false} ReturnedStays<O>(m: Logged<O>, turns: seq<Turn<O>>, n: nat)
    requires n <= |turns| && Played(m, turns[..n]).w.exited
    ensures Played(m, turns) == Played(m, turns[..n])
  {
    if n < |turns| {
      var init := turns[..|turns| - 1];
      assert init[..n] == turns[..n];
      ReturnedStays(m, init, n);
    } else {
      assert turns[..n] == turns;
    }
  }

  lemma TurnCounts<O>(before: Logged<O>, turn: Turn<O>)
    requires !before.w.exited
    ensures var mid, after := OthersAct(before, turn.others), AfterTurn(before, turn);
      && (turn.choice == OnDelivery && mid.w.hand.Some? ==> after.trace == mid.trace + [HandOver(turn.ok)] && !after.w.exited)
      && (turn.choice == OnDelivery && mid.w.hand.None? && !mid.w.receiving ==>
            after.trace == mid.trace + [Finish(turn.ok)] && after.w.exited)
      && (turn.choice == OnTick ==> after.trace == mid.trace + [Tick(turn.ok)] && !after.w.exited)
      && (turn.choice == OnContext && mid.w.cancelled ==> after.trace == mid.trace + [Quit(turn.ok)] && after.w.exited)
  {
    OthersLeave(before, turn.others);
  }

  /** Every turn is used: a delivery is taken, a tick flushes, the end of the
      deliveries and a cancelled context make the loop return with a last flush,
      and a case that is not ready does nothing. */
  lemma EveryTurnCounts<O>(m: Logged<O>, turns: seq<Turn<O>>, n: nat)
    requires n < |turns| && !Played(m, turns[..n]).w.exited
    ensures var turn, mid := turns[n], OthersAct(Played(m, turns[..n]), turns[n].others);
      var after := Played(m, turns[..n + 1]);
      && (turn.choice == OnDelivery && mid.w.hand.Some? ==> after.trace == mid.trace + [HandOver(turn.ok)] && !after.w.exited)
      && (turn.choice == OnDelivery && mid.w.hand.None? && !mid.w.receiving ==>
            after.trace == mid.trace + [Finish(turn.ok)] && after.w.exited)
      && (turn.choice == OnTick ==> after.trace == mid.trace + [Tick(turn.ok)] && !after.w.exited)
      && (turn.choice == OnContext && mid.w.cancelled ==> after.trace == mid.trace + [Quit(turn.ok)] && after.w.exited)
      && (after.w.exited ==> Played(m, turns) == after)
  {
    NextTurn(m, turns, n);
    TurnCounts(Played(m, turns[..n]), turns[n]);
    if Played(m, turns[..n + 1]).w.exited {
      ReturnedStays(m, turns, n + 1);
    }
  }

  lemma NextTurn<O>(m: Logged<O>, turns: seq<Turn<O>>, n: nat)
    requires n < |turns| && !Played(m, turns[..n]).w.exited
    ensures Played(m, turns[..n + 1]) == AfterTurn(Played(m, turns[..n]), turns[n])
  {
    var longer := turns[..n + 1];
    assert longer[..n] == turns[..n];
  }

  class EventLoop<O(!new)> {
    var outcomeBatch: seq<Delivery<O>>
    var applied: seq<seq<O>>
    var around: Worker<O>
    ghost var trace: seq<Step<O>>

    function State(): Worker<O>
      reads this
    {
      around.(batch := Unwrapped(outcomeBatch), calls := applied)
    }

    ghost function Now(): Logged<O>
      reads this
    {
      Logged(State(), trace)
    }

    /** Everything that has happened is a run of the step machine. */
    ghost predicate Valid()
      reads this
    {
      around.queueSize >= 1 && Exec(Init<O>(around.queueSize), trace) == Some(State())
    }

    constructor (queueSize: int, queueFlushTime: int)
      ensures Valid() && trace == [] && State() == Init<O>(if queueSize < 1 then 1 else queueSize)
    {
      var size, _ := NormalizeOutcomeSettings(queueSize, queueFlushTime);
      outcomeBatch, applied, around, trace := [], [], Init<O>(size), [];
      assert Unwrapped<O>([]) == [];
    }

    method Commit(step: Step<O>, ghost was: Worker<O>, next: Worker<O>)
      requires was.queueSize >= 1 && Exec(Init<O>(was.queueSize), trace) == Some(was)
      requires Enabled(was, step) && next == Do(was, step)
      requires Unwrapped(outcomeBatch) == next.batch && applied == next.calls
      modifies this`around, this`trace
      ensures Valid() && State() == next && trace == old(trace) + [step]
    {
      assert (trace + [step])[..|trace|] == trace;
      around := next;
      trace := trace + [step];
    }

    /** `processOutcome` up to the store call: the outcomes in delivery order. */
    method ProcessOutcome(deliveries: seq<Delivery<O>>) returns (outcomes: seq<O>)
      ensures outcomes == Unwrapped(deliveries)
    {
      outcomes := [];
      for i := 0 to |deliveries|
        invariant outcomes == Unwrapped(deliveries)[..i]
      {
        outcomes := outcomes + [deliveries[i].item];
      }
    }

    method FlushBatch(ok: bool)
      modifies this`outcomeBatch, this`applied
      ensures Unwrapped(outcomeBatch) == Flush(old(State()), ok).batch && applied == Flush(old(State()), ok).calls
    {
      if |outcomeBatch| == 0 {
        return;
      }
      var outcomes := ProcessOutcome(outcomeBatch);
      if !ok {
        return;
      }
      applied := applied + [outcomes];
      outcomeBatch := [];
    }

    /** Everybody else moves. */
    method Others(steps: seq<Step<O>>)
      requires Valid()
      modifies this`around, this`trace
      ensures Valid() && old(trace) <= trace && around.exited == old(around.exited)
      ensures Now() == OthersAct(old(Now()), steps)
    {
      for n := 0 to |steps|
        invariant Valid() && old(trace) <= trace && around.exited == old(around.exited)
        invariant Now() == OthersAct(old(Now()), steps[..n])
      {
        assert steps[..n + 1][..n] == steps[..n];
        if IsOther(steps[n]) && Enabled(State(), steps[n]) {
          var was := State();
          Commit(steps[n], was, Do(was, steps[n]));
        }
      }
      assert steps[..|steps|] == steps;
    }

    /** A delivery is waiting: append it, and write a full batch. */
    method OnDelivery(ok: bool)
      requires Valid() && around.hand.Some? && !around.exited
      modifies this
      ensures Valid() && trace == old(trace) + [HandOver(ok)] && State() == Do(old(State()), HandOver(ok)) && !around.exited
    {
      var was := State();
      outcomeBatch := outcomeBatch + [Delivery(around.hand.value, 0)];
      assert Unwrapped(outcomeBatch) == was.batch + [around.hand.value];
      if |outcomeBatch| >= around.queueSize {
        FlushBatch(ok);
      }
      Commit(HandOver(ok), was, Do(was, HandOver(ok)));
    }

    method OnTick(ok: bool)
      requires Valid() && !around.exited
      modifies this
      ensures Valid() && trace == old(trace) + [Tick(ok)] && State() == Do(old(State()), Tick(ok)) && !around.exited
    {
      var was := State();
      FlushBatch(ok);
      Commit(Tick(ok), was, Do(was, Tick(ok)));
    }

    /** The last flush, after the delivery channel or the context ended. */
    method Leave(step: Step<O>)
      requires Valid() && (step.Finish? || step.Quit?) && Enabled(State(), step)
      modifies this
      ensures Valid() && trace == old(trace) + [step] && State() == Do(old(State()), step) && around.exited
    {
      var was := State();
      FlushBatch(step.ok);
      Commit(step, was, Do(was, step));
    }

    /** The others, and the case the select picks. */
    method TakeTurn(turn: Turn<O>)
      requires Valid() && !around.exited
      modifies this
      ensures Valid() && old(trace) <= trace && Now() == AfterTurn(old(Now()), turn)
    {
      Others(turn.others);
      match turn.choice
      case OnDelivery =>
        if around.hand.Some? {
          OnDelivery(turn.ok);
        } else if !around.receiving {
          Leave(Finish(turn.ok));
        }
      case OnTick => OnTick(turn.ok);
      case OnContext =>
        if around.cancelled {
          Leave(Quit(turn.ok));
        }
    }

    /** The event loop, until it returns or the turns run out: what it does is what
        the turns make of the worker. */
    method Start(turns: seq<Turn<O>>) returns (returned: bool)
      requires Valid() && !around.exited
      modifies this
      ensures Valid() && old(trace) <= trace && returned == around.exited
      ensures Now() == Played(old(Now()), turns)
      ensures returned && !around.cancelled ==>
        Flatten(applied) + Unwrapped(outcomeBatch) == around.accepted && (outcomeBatch == [] <==> !around.flushFailed)
    {
      for n := 0 to |turns|
        invariant Valid() && old(trace) <= trace && !around.exited
        invariant Now() == Played(old(Now()), turns[..n])
      {
        assert turns[..n + 1][..n] == turns[..n];
        TakeTurn(turns[n]);
        if around.exited {
          ReturnedStays(old(Now()), turns, n + 1);
          RunInv(Init<O>(around.queueSize), trace);
          return true;
        }
      }
      assert turns[..|turns|] == turns;
      return false;
    }
  }
}
