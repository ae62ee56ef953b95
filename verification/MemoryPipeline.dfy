/** `MemoryPipeline`: a bounded queue that many submitters and receivers use at
    once and that any of them may close.

    Every `select` is one step.  `Submit` is two of them, so a submit can pass
    its first look at `done`, see the pipeline closed under it, and still have
    its item accepted: a ready send and a closed `done` are an arbitrary choice. */
module MemoryPipeline {
  import opened Options
  import opened Sequences

  datatype Submit<T> = Checking(item: T) | Waiting(item: T) | Accepted(item: T) | Closed | Cancelled
  datatype Receive<T> = Receiving | Draining | Got(item: T) | GotClosed

  /** One accepted or delivered item, and the call it was handed to. */
  datatype Entry<T> = Entry(call: nat, item: T)

  /** `accepted` and `delivered` log what has gone in and out.  `raced` says
      that a submit was past its first check when the pipeline was closed;
      `live` that the receivers' context has not been cancelled. */
  datatype Pipe<T> = Pipe(capacity: nat, channel: seq<T>, done: bool,
                          submits: map<nat, Submit<T>>, receives: map<nat, Receive<T>>,
                          accepted: seq<Entry<T>>, delivered: seq<Entry<T>>, raced: bool, live: bool)

  datatype Step<T> =
    | BeginSubmit(i: nat, item: T)
    | Check(i: nat)
    | Send(i: nat)
    | Handoff(i: nat, j: nat)
    | SeeClosed(i: nat)
    | CancelSubmit(i: nat)
    | BeginReceive(j: nat)
    | Take(j: nat)
    | SeeDone(j: nat)
    | Empty(j: nat)
    | Cancel
    | CancelReceive(j: nat)
    | Close

  function Init<T>(capacity: nat): Pipe<T> {
    Pipe(capacity, [], false, map[], map[], [], [], false, true)
  }

  predicate IsWaiting<T>(p: Pipe<T>, i: nat) {
    i in p.submits && p.submits[i].Waiting?
  }

  predicate IsTaking<T>(p: Pipe<T>, j: nat) {
    j in p.receives && (p.receives[j].Receiving? || p.receives[j].Draining?)
  }

  predicate Enabled<T>(p: Pipe<T>, step: Step<T>) {
    match step
    case BeginSubmit(i, _) => i !in p.submits
    case Check(i) => i in p.submits && p.submits[i].Checking?
    case Send(i) => IsWaiting(p, i) && |p.channel| < p.capacity
    case Handoff(i, j) => IsWaiting(p, i) && IsTaking(p, j) && |p.channel| == 0
    case SeeClosed(i) => IsWaiting(p, i) && p.done
    case CancelSubmit(i) => IsWaiting(p, i)
    case BeginReceive(j) => j !in p.receives
    case Take(j) => IsTaking(p, j) && |p.channel| > 0
    case SeeDone(j) => j in p.receives && p.receives[j].Receiving? && p.done
    case Empty(j) => j in p.receives && p.receives[j].Draining? && |p.channel| == 0
    case Cancel => true
    case CancelReceive(j) => j in p.receives && p.receives[j].Receiving? && !p.live
    case Close => true
  }

  function Do<T>(p: Pipe<T>, step: Step<T>): Pipe<T>
    requires Enabled(p, step)
  {
    match step
    case BeginSubmit(i, item) => p.(submits := p.submits[i := Checking(item)])
    case Check(i) => p.(submits := p.submits[i := if p.done then Closed else Waiting(p.submits[i].item)])
    case Send(i) =>
      var item := p.submits[i].item;
      p.(submits := p.submits[i := Accepted(item)], channel := p.channel + [item], accepted := p.accepted + [Entry(i, item)])
    case Handoff(i, j) =>
      var item := p.submits[i].item;
      p.(submits := p.submits[i := Accepted(item)], receives := p.receives[j := Got(item)],
         accepted := p.accepted + [Entry(i, item)], delivered := p.delivered + [Entry(j, item)])
    case SeeClosed(i) => p.(submits := p.submits[i := Closed])
    case CancelSubmit(i) => p.(submits := p.submits[i := Cancelled])
    case BeginReceive(j) => p.(receives := p.receives[j := Receiving])
    case Take(j) =>
      var item := p.channel[0];
      p.(receives := p.receives[j := Got(item)], channel := p.channel[1..], delivered := p.delivered + [Entry(j, item)])
    case SeeDone(j) => p.(receives := p.receives[j := Draining])
    case Empty(j) => p.(receives := p.receives[j := GotClosed])
    case Cancel => p.(live := false)
    case CancelReceive(j) => p.(receives := p.receives[j := GotClosed])
    case Close =>
      if p.done then p else p.(done := true, raced := exists i :: i in p.submits && p.submits[i].Waiting?)
  }

  /** The state a run ends in, or None when some step of it is not enabled. */
  function Exec<T>(p: Pipe<T>, steps: seq<Step<T>>): Option<Pipe<T>> {
    if steps == [] then Some(p)
    else
      match Exec(p, steps[..|steps| - 1])
      case None => None
      case Some(mid) => if Enabled(mid, steps[|steps| - 1]) then Some(Do(mid, steps[|steps| - 1])) else None
  }

  ghost predicate Reachable<T(!new)>(p: Pipe<T>) {
    exists capacity: nat, steps :: Exec(Init<T>(capacity), steps) == Some(p)
  }

  // ---- what every step keeps -----------------------------------------------------------

  function Items<T>(log: seq<Entry<T>>): seq<T> {
    if log == [] then [] else Items(log[..|log| - 1]) + [log[|log| - 1].item]
  }

  /** No call twice in a log. */
  ghost predicate OnePerCall<T>(log: seq<Entry<T>>) {
    forall a, b :: 0 <= a < b < |log| ==> log[a].call != log[b].call
  }

  ghost predicate Logged<T>(log: seq<Entry<T>>, call: nat, item: T) {
    exists a :: 0 <= a < |log| && log[a] == Entry(call, item)
  }

  ghost predicate SubmitsOk<T(!new)>(p: Pipe<T>) {
    && OnePerCall(p.accepted)
    && (forall a :: 0 <= a < |p.accepted| ==>
          p.accepted[a].call in p.submits && p.submits[p.accepted[a].call] == Accepted(p.accepted[a].item))
    && (forall i :: i in p.submits && p.submits[i].Accepted? ==> Logged(p.accepted, i, p.submits[i].item))
  }

  ghost predicate ReceivesOk<T(!new)>(p: Pipe<T>) {
    && OnePerCall(p.delivered)
    && (forall a :: 0 <= a < |p.delivered| ==>
          p.delivered[a].call in p.receives && p.receives[p.delivered[a].call] == Got(p.delivered[a].item))
    && (forall j :: j in p.receives && p.receives[j].Got? ==> Logged(p.delivered, j, p.receives[j].item))
  }

  ghost predicate FlowOk<T>(p: Pipe<T>) {
    Items(p.accepted) == Items(p.delivered) + p.channel && |p.channel| <= p.capacity
  }

  ghost predicate ClosingOk<T(!new)>(p: Pipe<T>) {
    && (p.done && !p.raced ==> forall i :: !IsWaiting(p, i))
    && (forall j :: j in p.receives && p.receives[j].Draining? ==> p.done)
    && (p.live && SawClosed(p) ==> p.done && (p.raced || |p.channel| == 0))
  }

  /** Some receive has reported ErrClosed. */
  ghost predicate SawClosed<T>(p: Pipe<T>) {
    exists j :: j in p.receives && p.receives[j].GotClosed?
  }

  ghost predicate Inv<T(!new)>(p: Pipe<T>) {
    FlowOk(p) && ClosingOk(p) && SubmitsOk(p) && ReceivesOk(p)
  }

  lemma ItemsNext<T>(log: seq<Entry<T>>, e: Entry<T>)
    ensures Items(log + [e]) == Items(log) + [e.item]
  {
    assert (log + [e])[..|log|] == log;
  }

  lemma NoNewWaiting<T(!new)>(p: Pipe<T>, step: Step<T>)
    requires Enabled(p, step) && p.done
    ensures forall i :: IsWaiting(Do(p, step), i) ==> IsWaiting(p, i)
  {
  }

  lemma PushItem<T>(accepted: seq<Entry<T>>, delivered: seq<T>, channel: seq<T>, e: Entry<T>)
    requires Items(accepted) == delivered + channel
    ensures Items(accepted + [e]) == delivered + (channel + [e.item])
  {
    ItemsNext(accepted, e);
  }

  lemma PopItem<T>(accepted: seq<T>, delivered: seq<Entry<T>>, channel: seq<T>, j: nat)
    requires accepted == Items(delivered) + channel && channel != []
    ensures accepted == Items(delivered + [Entry(j, channel[0])]) + channel[1..]
  {
    ItemsNext(delivered, Entry(j, channel[0]));
  }

  lemma HandoffFlow<T(!new)>(p: Pipe<T>, i: nat, j: nat)
    requires FlowOk(p) && Enabled(p, Handoff(i, j))
    ensures FlowOk(Do(p, Handoff(i, j)))
  {
    var item := p.submits[i].item;
    PushItem(p.accepted, Items(p.delivered), p.channel, Entry(i, item));
    PopItem(Items(p.accepted + [Entry(i, item)]), p.delivered, [item], j);
  }

  lemma FlowStep<T(!new)>(p: Pipe<T>, step: Step<T>)
    requires FlowOk(p) && Enabled(p, step)
    ensures FlowOk(Do(p, step))
  {
    match step
    case Send(i) => PushItem(p.accepted, Items(p.delivered), p.channel, Entry(i, p.submits[i].item));
    case Handoff(i, j) => HandoffFlow(p, i, j);
    case Take(j) => PopItem(Items(p.accepted), p.delivered, p.channel, j);
    case _ =>
  }

  lemma ClosingStep<T(!new)>(p: Pipe<T>, step: Step<T>)
    requires ClosingOk(p) && Enabled(p, step)
    ensures ClosingOk(Do(p, step))
  {
    var p' := Do(p, step);
    if p.done {
      NoNewWaiting(p, step);
    } else if step.Close? {
      assert (exists i :: IsWaiting(p, i)) ==> p'.raced;
      assert forall i :: IsWaiting(p', i) ==> IsWaiting(p, i);
    }
    if SawClosed(p') {
      assert SawClosed(p) || (step.Empty? && p.receives[step.j].Draining?) || !p.live;
    }
  }

  lemma LogNext<T>(log: seq<Entry<T>>, e: Entry<T>, call: nat, item: T)
    ensures Logged(log + [e], call, item) <==> Logged(log, call, item) || e == Entry(call, item)
  {
    if Logged(log, call, item) {
      var a :| 0 <= a < |log| && log[a] == Entry(call, item);
      assert (log + [e])[a] == Entry(call, item);
    }
    assert (log + [e])[|log|] == e;
  }

  lemma SubmitsStep<T(!new)>(p: Pipe<T>, step: Step<T>)
    requires SubmitsOk(p) && Enabled(p, step)
    ensures SubmitsOk(Do(p, step))
  {
    var p' := Do(p, step);
    if step.Send? || step.Handoff? {
      var e := Entry(step.i, p.submits[step.i].item);
      forall i | i in p'.submits && p'.submits[i].Accepted? ensures Logged(p'.accepted, i, p'.submits[i].item) {
        LogNext(p.accepted, e, i, p'.submits[i].item);
      }
    }
  }

  lemma ReceivesStep<T(!new)>(p: Pipe<T>, step: Step<T>)
    requires ReceivesOk(p) && Enabled(p, step)
    ensures ReceivesOk(Do(p, step))
  {
    var p' := Do(p, step);
    if step.Take? || step.Handoff? {
      var e := Entry(step.j, if step.Take? then p.channel[0] else p.submits[step.i].item);
      forall j | j in p'.receives && p'.receives[j].Got? ensures Logged(p'.delivered, j, p'.receives[j].item) {
        LogNext(p.delivered, e, j, p'.receives[j].item);
      }
    }
  }

  lemma {:induction false} RunInv<T(!new)>(p: Pipe<T>, steps: seq<Step<T>>)
    requires Inv(p) && Exec(p, steps).Some?
    ensures Inv(Exec(p, steps).value)
  {
    if steps == [] {
    } else {
      RunInv(p, steps[..|steps| - 1]);
      var mid := Exec(p, steps[..|steps| - 1]).value;
      FlowStep(mid, steps[|steps| - 1]);
      ClosingStep(mid, steps[|steps| - 1]);
      SubmitsStep(mid, steps[|steps| - 1]);
      ReceivesStep(mid, steps[|steps| - 1]);
    }
  }

  lemma ReachableInv<T(!new)>(p: Pipe<T>)
    requires Reachable(p)
    ensures Inv(p)
  {
    var capacity: nat, steps :| Exec(Init<T>(capacity), steps) == Some(p);
    RunInv(Init<T>(capacity), steps);
  }

  // ---- the promises --------------------------------------------------------------------

  /** First in, first out, never over capacity, nothing lost, duplicated or
      reordered, in every interleaving. */
  lemma FirstInFirstOut<T(!new)>(p: Pipe<T>)
    requires Reachable(p)
    ensures Items(p.accepted) == Items(p.delivered) + p.channel
    ensures |p.channel| <= p.capacity
  {
    ReachableInv(p);
  }

  /** A submit that returned nil put its item in exactly once, one that returned
      an error never did, and each receive is handed at most one item. */
  lemma OneEntryPerCall<T(!new)>(p: Pipe<T>, i: nat, j: nat)
    requires Reachable(p) && i in p.submits && j in p.receives
    ensures p.submits[i].Accepted? <==> exists a :: 0 <= a < |p.accepted| && p.accepted[a].call == i
    ensures p.receives[j].Got? <==> exists a :: 0 <= a < |p.delivered| && p.delivered[a].call == j
    ensures forall a, b :: 0 <= a < b < |p.accepted| ==> p.accepted[a].call != p.accepted[b].call
    ensures forall a, b :: 0 <= a < b < |p.delivered| ==> p.delivered[a].call != p.delivered[b].call
  {
    ReachableInv(p);
    if p.submits[i].Accepted? {
      assert Logged(p.accepted, i, p.submits[i].item);
    }
    if p.receives[j].Got? {
      assert Logged(p.delivered, j, p.receives[j].item);
    }
  }

  /** Submit `i` has not begun, is at its first check, or has been refused. */
  ghost predicate NotIn<T>(p: Pipe<T>, i: nat) {
    p.done && (i in p.submits ==> p.submits[i].Checking? || p.submits[i].Closed?)
  }

  lemma NotInStep<T>(p: Pipe<T>, step: Step<T>, i: nat)
    requires NotIn(p, i) && Enabled(p, step)
    ensures NotIn(Do(p, step), i)
  {
  }

  /** A submit that starts after `Close` is refused, in every continuation. */
  lemma {:induction false} ClosedRefuses<T>(p: Pipe<T>, steps: seq<Step<T>>, i: nat)
    requires NotIn(p, i) && Exec(p, steps).Some?
    ensures NotIn(Exec(p, steps).value, i)
  {
    if steps == [] {
    } else {
      ClosedRefuses(p, steps[..|steps| - 1], i);
      NotInStep(Exec(p, steps[..|steps| - 1]).value, steps[|steps| - 1], i);
    }
  }

  /** Once closed with no submit left waiting, the pipeline takes nothing more in. */
  lemma {:induction false} Sealed<T(!new)>(p: Pipe<T>, steps: seq<Step<T>>)
    requires p.done && (forall i :: !IsWaiting(p, i)) && Exec(p, steps).Some?
    ensures var p' := Exec(p, steps).value;
      p'.done && p'.accepted == p.accepted && forall i :: !IsWaiting(p', i)
  {
    if steps == [] {
    } else {
      Sealed(p, steps[..|steps| - 1]);
      NoNewWaiting(Exec(p, steps[..|steps| - 1]).value, steps[|steps| - 1]);
    }
  }

  /** The first ErrClosed means drained: if no submit was past its first check
      when the pipeline was closed, then every item ever accepted, then or
      later, has been delivered by the time a receive reports ErrClosed. */
  lemma ErrClosedMeansDrained<T(!new)>(p: Pipe<T>, steps: seq<Step<T>>)
    requires Reachable(p) && p.live && SawClosed(p) && !p.raced && Exec(p, steps).Some?
    ensures Items(p.accepted) == Items(p.delivered)
    ensures Exec(p, steps).value.accepted == p.accepted
  {
    ReachableInv(p);
    Sealed(p, steps);
  }

  /** Without a buffer nothing can be stranded: each accepted item was handed
      over as it was accepted. */
  lemma UnbufferedNeverStrands<T(!new)>(p: Pipe<T>)
    requires Reachable(p) && p.capacity == 0
    ensures Items(p.accepted) == Items(p.delivered)
  {
    ReachableInv(p);
  }

  // ---- exactly when closing is safe ------------------------------------------------------------

  lemma ExecNext<T>(p: Pipe<T>, steps: seq<Step<T>>, mid: Pipe<T>, step: Step<T>)
    requires Exec(p, steps) == Some(mid) && Enabled(mid, step)
    ensures Exec(p, steps + [step]) == Some(Do(mid, step))
  {
    assert (steps + [step])[..|steps|] == steps;
  }

  lemma {:induction false} ExecConcat<T>(p: Pipe<T>, a: seq<Step<T>>, mid: Pipe<T>, b: seq<Step<T>>)
    requires Exec(p, a) == Some(mid) && Exec(mid, b).Some?
    ensures Exec(p, a + b) == Exec(mid, b)
  {
    if b == [] {
      assert a + b == a;
    } else {
      ExecConcat(p, a, mid, b[..|b| - 1]);
      assert (a + b)[..|a + b| - 1] == a + b[..|b| - 1];
    }
  }

  ghost predicate SameBut<T>(p: Pipe<T>, p': Pipe<T>) {
    p'.capacity == p.capacity && p'.done == p.done && p'.submits == p.submits && p'.live == p.live && p'.raced == p.raced
  }

  /** One more receive takes the head of the buffer. */
  lemma TakeOne<T>(p: Pipe<T>) returns (steps: seq<Step<T>>, p': Pipe<T>)
    requires |p.channel| > 0
    ensures Exec(p, steps) == Some(p') && SameBut(p, p') && p'.channel == p.channel[1..]
  {
    var j := AboveAll(p.receives.Keys);
    assert j !in p.receives;
    var begun := Do(p, BeginReceive(j));
    p' := Do(begun, Take(j));
    ExecNext(p, [], p, BeginReceive(j));
    ExecNext(p, [] + [BeginReceive(j)], begun, Take(j));
    steps := [] + [BeginReceive(j)] + [Take(j)];
  }

  lemma TakeAll<T>(p: Pipe<T>) returns (steps: seq<Step<T>>, p': Pipe<T>)
    ensures Exec(p, steps) == Some(p') && SameBut(p, p') && p'.channel == []
    decreases |p.channel|
  {
    if p.channel == [] {
      return [], p;
    }
    var one, mid := TakeOne(p);
    var rest: seq<Step<T>>;
    rest, p' := TakeAll(mid);
    ExecConcat(p, one, mid, rest);
    steps := one + rest;
  }

  /** A receive of a closed and empty pipeline reports ErrClosed. */
  lemma SeeEnd<T>(p: Pipe<T>) returns (steps: seq<Step<T>>, p': Pipe<T>)
    requires p.done && p.channel == []
    ensures Exec(p, steps) == Some(p') && SameBut(p, p') && p'.channel == [] && SawClosed(p')
  {
    var j := AboveAll(p.receives.Keys);
    assert j !in p.receives;
    var begun := Do(p, BeginReceive(j));
    var seen := Do(begun, SeeDone(j));
    p' := Do(seen, Empty(j));
    ExecNext(p, [], p, BeginReceive(j));
    ExecNext(p, [] + [BeginReceive(j)], begun, SeeDone(j));
    ExecNext(p, [] + [BeginReceive(j)] + [SeeDone(j)], seen, Empty(j));
    steps := [] + [BeginReceive(j)] + [SeeDone(j)] + [Empty(j)];
    assert p'.receives[j].GotClosed?;
  }

  /** Whatever the pipeline has been through, a submit that is past its first
      check when it is closed can strand its item, if there is a buffer: the
      receivers empty it, one of them sees ErrClosed, and then the item goes in. */
  lemma RacingSubmitStrands<T>(p: Pipe<T>, i: nat) returns (steps: seq<Step<T>>, p': Pipe<T>)
    requires p.done && p.live && IsWaiting(p, i) && p.capacity >= 1
    ensures Exec(p, steps) == Some(p') && p'.live && SawClosed(p')
    ensures i in p'.submits && p'.submits[i].Accepted? && p'.channel == [p.submits[i].item]
  {
    var take, empty := TakeAll(p);
    var see, ended := SeeEnd(empty);
    p' := Do(ended, Send(i));
    ExecConcat(p, take, empty, see);
    ExecNext(p, take + see, ended, Send(i));
    steps := take + see + [Send(i)];
    var j :| j in ended.receives && ended.receives[j].GotClosed?;
    assert p'.receives[j].GotClosed?;
  }

  lemma {:induction false} DoneStays<T>(p: Pipe<T>, steps: seq<Step<T>>)
    requires p.done && Exec(p, steps).Some?
    ensures var p' := Exec(p, steps).value;
      p'.done && p'.raced == p.raced && p'.capacity == p.capacity
  {
    if steps == [] {
    } else {
      DoneStays(p, steps[..|steps| - 1]);
      DoneStep(Exec(p, steps[..|steps| - 1]).value, steps[|steps| - 1]);
    }
  }

  lemma DoneStep<T>(p: Pipe<T>, step: Step<T>)
    requires p.done && Enabled(p, step)
    ensures Do(p, step).done && Do(p, step).raced == p.raced && Do(p, step).capacity == p.capacity
  {
  }

  /** However it goes on, ErrClosed is reported to a live receiver only when every
      accepted item has been delivered. */
  ghost predicate LosesNothing<T(!new)>(p: Pipe<T>) {
    forall steps :: Exec(p, steps).Some? && Exec(p, steps).value.live && SawClosed(Exec(p, steps).value) ==>
      Items(Exec(p, steps).value.accepted) == Items(Exec(p, steps).value.delivered)
  }

  lemma SafeClose<T(!new)>(p: Pipe<T>)
    requires Inv(p) && p.done && (!p.raced || p.capacity == 0)
    ensures LosesNothing(p)
  {
    forall steps | Exec(p, steps).Some? && Exec(p, steps).value.live && SawClosed(Exec(p, steps).value)
      ensures Items(Exec(p, steps).value.accepted) == Items(Exec(p, steps).value.delivered)
    {
      RunInv(p, steps);
      DoneStays(p, steps);
    }
  }

  lemma CloseRaces<T(!new)>(p: Pipe<T>)
    requires !p.done
    ensures Do(p, Close).raced <==> exists i :: IsWaiting(p, i)
  {
    if i :| IsWaiting(p, i) {
      assert i in p.submits && p.submits[i].Waiting?;
    }
    if Do(p, Close).raced {
      var i :| i in p.submits && p.submits[i].Waiting?;
      assert IsWaiting(p, i);
    }
  }

  /** Exactly when `Close` is safe, for every state a live pipeline can be in: no
      submit is past its first check, or there is no buffer. */
  lemma CloseIsSafeExactlyWhen<T(!new)>(p: Pipe<T>)
    requires Reachable(p) && p.live && !p.done
    ensures LosesNothing(Do(p, Close)) <==> (forall i :: !IsWaiting(p, i)) || p.capacity == 0
  {
    ReachableInv(p);
    var closed := Do(p, Close);
    FlowStep(p, Close);
    ClosingStep(p, Close);
    SubmitsStep(p, Close);
    ReceivesStep(p, Close);
    CloseRaces(p);
    if (forall i :: !IsWaiting(p, i)) || p.capacity == 0 {
      SafeClose(closed);
    } else {
      var i :| IsWaiting(p, i);
      var steps, end := RacingSubmitStrands(closed, i);
      RunInv(closed, steps);
      assert |Items(end.accepted)| == |Items(end.delivered)| + 1;
    }
  }

  // ---- the queue as the object it is ---------------------------------------------------

  /** Which ready case of a `select` is chosen. */
  datatype Case = OnChannel | OnContext | OnDone

  /** A wake-up: what the others did meanwhile, and the case the select takes. */
  datatype Turn<T> = Turn(others: seq<Step<T>>, choice: Case)

  datatype SubmitResult = Nil | ErrClosed | ErrContext | StillBlocked
  datatype ReceiveResult<T> = Delivery(item: T) | Ended | Parked

  /** The steps only submit `i` itself takes. */
  predicate SubmitStep<T>(step: Step<T>, i: nat) {
    (step.BeginSubmit? || step.Check? || step.Send? || step.SeeClosed? || step.CancelSubmit?) && step.i == i
  }

  /** The steps only receive `j` itself takes. */
  predicate ReceiveStep<T>(step: Step<T>, j: nat) {
    (step.BeginReceive? || step.Take? || step.SeeDone? || step.Empty? || step.CancelReceive?) && step.j == j
  }

  ghost predicate Submitting<T>(p: Pipe<T>, i: nat, item: T) {
    i in p.submits && (p.submits[i] == Waiting(item) || p.submits[i] == Accepted(item))
  }

  lemma SubmittingKept<T>(p: Pipe<T>, step: Step<T>, i: nat, item: T)
    requires Submitting(p, i, item) && Enabled(p, step) && !SubmitStep(step, i)
    ensures Submitting(Do(p, step), i, item)
  {
  }

  lemma ReceivingKept<T>(p: Pipe<T>, step: Step<T>, j: nat)
    requires j in p.receives && Enabled(p, step) && !ReceiveStep(step, j)
    ensures var p' := Do(p, step);
      j in p'.receives && (p'.receives[j] == p.receives[j] || p'.receives[j].Got?) && (p.done ==> p'.done)
  {
  }

  function Answered<T>(result: SubmitResult, item: T): Submit<T> {
    match result
    case Nil => Accepted(item)
    case ErrClosed => Closed
    case ErrContext => Cancelled
    case StillBlocked => Waiting(item)
  }

  function Handed<T>(result: ReceiveResult<T>): Receive<T> {
    match result
    case Delivery(item) => Got(item)
    case Ended => GotClosed
    case Parked => Receiving
  }

  // ---- what a list of turns makes of a call --------------------------------------------------

  /** The pipeline and what has happened so far. */
  datatype Moment<T> = Moment(p: Pipe<T>, trace: seq<Step<T>>)

  function Took<T>(m: Moment<T>, step: Step<T>): Moment<T> {
    if Enabled(m.p, step) then Moment(Do(m.p, step), m.trace + [step]) else m
  }

  /** Other calls take their enabled steps, in order, while submit `me` is parked. */
  function BesideSubmit<T>(m: Moment<T>, me: nat, steps: seq<Step<T>>): Moment<T> {
    if steps == [] then m
    else
      var mid, step := BesideSubmit(m, me, steps[..|steps| - 1]), steps[|steps| - 1];
      if !SubmitStep(step, me) then Took(mid, step) else mid
  }

  function BesideReceive<T>(m: Moment<T>, me: nat, steps: seq<Step<T>>): Moment<T> {
    if steps == [] then m
    else
      var mid, step := BesideReceive(m, me, steps[..|steps| - 1]), steps[|steps| - 1];
      if !ReceiveStep(step, me) then Took(mid, step) else mid
  }

  /** The step of submit `me` when its second select picks a case; None if the case
      is not ready. */
  function SubmitCase<T>(p: Pipe<T>, me: nat, choice: Case): Option<Step<T>> {
    match choice
    case OnChannel => if |p.channel| < p.capacity then Some(Send(me)) else None
    case OnContext => Some(CancelSubmit(me))
    case OnDone => if p.done then Some(SeeClosed(me)) else None
  }

  /** One turn of the second select of submit `me`. */
  function SubmitTurn<T>(m: Moment<T>, me: nat, turn: Turn<T>): Moment<T> {
    var mid := BesideSubmit(m, me, turn.others);
    var step := SubmitCase(mid.p, me, turn.choice);
    if IsWaiting(mid.p, me) && step.Some? then Took(mid, step.value) else mid
  }

  /** The turns one after the other, until submit `me` is answered. */
  function SubmitPlayed<T>(m: Moment<T>, me: nat, turns: seq<Turn<T>>): Moment<T> {
    if turns == [] then m
    else
      var before, turn := SubmitPlayed(m, me, turns[..|turns| - 1]), turns[|turns| - 1];
      if !IsWaiting(before.p, me) then before else SubmitTurn(before, me, turn)
  }

  lemma SubmitNext<T>(m: Moment<T>, me: nat, turns: seq<Turn<T>>, n: nat)
    requires n < |turns| && IsWaiting(SubmitPlayed(m, me, turns[..n]).p, me)
    ensures SubmitPlayed(m, me, turns[..n + 1]) == SubmitTurn(SubmitPlayed(m, me, turns[..n]), me, turns[n])
  {
    assert turns[..n + 1][..n] == turns[..n];
  }

  lemma {:induction false} SubmitStays<T>(m: Moment<T>, me: nat, turns: seq<Turn<T>>, n: nat)
    requires n <= |turns| && !IsWaiting(SubmitPlayed(m, me, turns[..n]).p, me)
    ensures SubmitPlayed(m, me, turns) == SubmitPlayed(m, me, turns[..n])
  {
    if n < |turns| {
      var init := turns[..|turns| - 1];
      assert init[..n] == turns[..n];
      SubmitStays(m, me, init, n);
    } else {
      assert turns[..n] == turns;
    }
  }

  /** The steps of receive `me` when its outer select picks a case: the inner select
      takes a buffered item if there is one then. */
  function ReceiveTurn<T>(m: Moment<T>, me: nat, choice: Case, drain: seq<Step<T>>): Moment<T> {
    match choice
    case OnChannel => if |m.p.channel| > 0 then Took(m, Take(me)) else m
    case OnContext => if !m.p.live then Took(m, CancelReceive(me)) else m
    case OnDone => if m.p.done then Drained(BesideReceive(Took(m, SeeDone(me)), me, drain), me) else m
  }

  function Drained<T>(m: Moment<T>, me: nat): Moment<T> {
    if !IsTaking(m.p, me) then m
    else if |m.p.channel| > 0 then Took(m, Take(me)) else Took(m, Empty(me))
  }

  predicate IsParked<T>(p: Pipe<T>, me: nat) {
    me in p.receives && p.receives[me].Receiving?
  }

  function ReceivePlayed<T>(m: Moment<T>, me: nat, turns: seq<Turn<T>>, drain: seq<Step<T>>): Moment<T> {
    if turns == [] then m
    else
      var before, turn := ReceivePlayed(m, me, turns[..|turns| - 1], drain), turns[|turns| - 1];
      if !IsParked(before.p, me) then before
      else
        var mid := BesideReceive(before, me, turn.others);
        if IsParked(mid.p, me) then ReceiveTurn(mid, me, turn.choice, drain) else mid
  }

  lemma {:induction false} ReceiveStays<T>(m: Moment<T>, me: nat, turns: seq<Turn<T>>, drain: seq<Step<T>>, n: nat)
    requires n <= |turns| && !IsParked(ReceivePlayed(m, me, turns[..n], drain).p, me)
    ensures ReceivePlayed(m, me, turns, drain) == ReceivePlayed(m, me, turns[..n], drain)
  {
    if n < |turns| {
      var init := turns[..|turns| - 1];
      assert init[..n] == turns[..n];
      ReceiveStays(m, me, init, drain, n);
    } else {
      assert turns[..n] == turns;
    }
  }

  class Queue<T(!new)> {
    var channel: seq<T>
    var done: bool
    var calls: Pipe<T>
    ghost var trace: seq<Step<T>>

    /** The channel and `done` are the object's; `calls` keeps the rest. */
    function State(): Pipe<T>
      reads this
    {
      calls.(channel := channel, done := done)
    }

    ghost function Now(): Moment<T>
      reads this
    {
      Moment(State(), trace)
    }

    /** Everything that has happened is a run of the step machine. */
    ghost predicate Valid()
      reads this
    {
      Exec(Init<T>(State().capacity), trace) == Some(State())
    }

    constructor (bufferSize: int)
      ensures Valid() && trace == [] && State() == Init<T>(if bufferSize < 0 then 0 else bufferSize)
    {
      var size := bufferSize;
      if size < 0 {
        size := 0;
      }
      channel, done, calls, trace := [], false, Init<T>(size), [];
    }

    /** Record a step whose effect on the channel and `done` has been made. */
    method Commit(step: Step<T>, ghost was: Pipe<T>, next: Pipe<T>)
      requires Exec(Init<T>(was.capacity), trace) == Some(was) && Enabled(was, step) && next == Do(was, step)
      requires channel == next.channel && done == next.done
      modifies this`calls, this`trace
      ensures Valid() && State() == next && trace == old(trace) + [step]
    {
      assert (trace + [step])[..|trace|] == trace;
      calls := next;
      trace := trace + [step];
    }

    method Other(step: Step<T>)
      requires Valid() && Enabled(State(), step)
      modifies this
      ensures Valid() && Now() == Took(old(Now()), step)
    {
      var was := State();
      var next := Do(was, step);
      channel, done := next.channel, next.done;
      Commit(step, was, next);
    }

    /** Other calls run while submit `me` is parked. */
    method WhileSubmitting(me: nat, item: T, others: seq<Step<T>>)
      requires Valid() && Submitting(State(), me, item)
      modifies this
      ensures Valid() && Submitting(State(), me, item) && old(trace) <= trace
      ensures Now() == BesideSubmit(old(Now()), me, others)
    {
      for n := 0 to |others|
        invariant Valid() && Submitting(State(), me, item) && old(trace) <= trace
        invariant Now() == BesideSubmit(old(Now()), me, others[..n])
      {
        assert others[..n + 1][..n] == others[..n];
        if Enabled(State(), others[n]) && !SubmitStep(others[n], me) {
          SubmittingKept(State(), others[n], me, item);
          Other(others[n]);
        }
      }
      assert others[..|others|] == others;
    }

    /** Other calls run while receive `me` is parked. */
    method WhileReceiving(me: nat, others: seq<Step<T>>)
      requires Valid() && me in State().receives && (State().receives[me].Receiving? || State().receives[me].Draining?)
      modifies this
      ensures Valid() && old(trace) <= trace && me in State().receives
      ensures State().receives[me] == old(State()).receives[me] || State().receives[me].Got?
      ensures old(done) ==> done
      ensures Now() == BesideReceive(old(Now()), me, others)
    {
      for n := 0 to |others|
        invariant Valid() && old(trace) <= trace && me in State().receives
        invariant State().receives[me] == old(State()).receives[me] || State().receives[me].Got?
        invariant old(done) ==> done
        invariant Now() == BesideReceive(old(Now()), me, others[..n])
      {
        assert others[..n + 1][..n] == others[..n];
        if Enabled(State(), others[n]) && !ReceiveStep(others[n], me) {
          ReceivingKept(State(), others[n], me);
          Other(others[n]);
        }
      }
      assert others[..|others|] == others;
    }

    method Close()
      requires Valid()
      modifies this
      ensures Valid() && done && channel == old(channel)
      ensures trace == old(trace) + [Step.Close]
      ensures old(done) ==> State() == old(State())
    {
      var was := State();
      done := true;
      Commit(Step.Close, was, Do(was, Step.Close));
    }

    /** One look at the three cases of the second select. */
    method TrySubmit(me: nat, item: T, choice: Case) returns (result: SubmitResult)
      requires Valid() && Submitting(State(), me, item)
      modifies this
      ensures Valid() && old(trace) <= trace
      ensures me in State().submits && State().submits[me] == Answered(result, item)
      ensures old(State()).submits[me].Accepted? ==> result == Nil && Now() == old(Now())
      ensures old(State()).submits[me].Waiting? ==>
        var step := SubmitCase(old(State()), me, choice);
        Now() == if step.Some? then Took(old(Now()), step.value) else old(Now())
      ensures old(State()).submits[me].Waiting? ==>
        match choice
        case OnChannel =>
          if |old(channel)| < old(State()).capacity
          then result == Nil && trace == old(trace) + [Send(me)] && channel == old(channel) + [item]
          else result == StillBlocked && Now() == old(Now())
        case OnContext => result == ErrContext && trace == old(trace) + [CancelSubmit(me)]
        case OnDone =>
          if old(done) then result == ErrClosed && trace == old(trace) + [SeeClosed(me)]
          else result == StillBlocked && Now() == old(Now())
    {
      var was := State();
      if was.submits[me].Accepted? {
        return Nil;
      }
      if choice.OnChannel? && |channel| < was.capacity {
        channel := channel + [item];
        Commit(Send(me), was, Do(was, Send(me)));
        return Nil;
      } else if choice.OnContext? {
        Commit(CancelSubmit(me), was, Do(was, CancelSubmit(me)));
        return ErrContext;
      } else if choice.OnDone? && done {
        Commit(SeeClosed(me), was, Do(was, SeeClosed(me)));
        return ErrClosed;
      }
      return StillBlocked;
    }

    method Submit(me: nat, item: T, turns: seq<Turn<T>>) returns (result: SubmitResult)
      requires Valid() && me !in State().submits
      modifies this
      ensures Valid() && old(trace) + [BeginSubmit(me, item), Check(me)] <= trace
      ensures me in State().submits && State().submits[me] == Answered(result, item)
      ensures old(done) ==> result.ErrClosed?
      ensures Now() == SubmitPlayed(Took(Took(old(Now()), BeginSubmit(me, item)), Check(me)), me, turns)
    {
      FirstSelect(me, item);
      ghost var checked := Now();
      if done {
        assert turns[..0] == [];
        SubmitStays(checked, me, turns, 0);
        return ErrClosed;
      }
      result := AwaitSubmit(me, item, turns);
    }

    /** The first select: ErrClosed at once if the pipeline is closed. */
    method FirstSelect(me: nat, item: T)
      requires Valid() && me !in State().submits
      modifies this`calls, this`trace
      ensures Valid() && trace == old(trace) + [BeginSubmit(me, item), Check(me)]
      ensures Now() == Took(Took(old(Now()), BeginSubmit(me, item)), Check(me))
      ensures me in State().submits && State().submits[me] == if done then Closed else Waiting(item)
    {
      var was := State();
      Commit(BeginSubmit(me, item), was, Do(was, BeginSubmit(me, item)));
      was := State();
      Commit(Check(me), was, Do(was, Check(me)));
    }

    /** The second select, until one of its cases is taken or the turns run out. */
    method AwaitSubmit(me: nat, item: T, turns: seq<Turn<T>>) returns (result: SubmitResult)
      requires Valid() && me in State().submits && State().submits[me] == Waiting(item)
      modifies this
      ensures Valid() && old(trace) <= trace
      ensures me in State().submits && State().submits[me] == Answered(result, item)
      ensures Now() == SubmitPlayed(old(Now()), me, turns)
    {
      result := StillBlocked;
      var n := 0;
      while n < |turns| && result.StillBlocked?
        invariant n <= |turns| && Valid() && old(trace) <= trace
        invariant me in State().submits && State().submits[me] == Answered(result, item)
        invariant Now() == SubmitPlayed(old(Now()), me, turns[..n])
      {
        SubmitNext(old(Now()), me, turns, n);
        result := TakeSubmitTurn(me, item, turns[n]);
        n := n + 1;
      }
      assert turns[..|turns|] == turns;
      if !result.StillBlocked? {
        SubmitStays(old(Now()), me, turns, n);
      }
    }

    method TakeSubmitTurn(me: nat, item: T, turn: Turn<T>) returns (result: SubmitResult)
      requires Valid() && me in State().submits && State().submits[me] == Waiting(item)
      modifies this
      ensures Valid() && old(trace) <= trace
      ensures me in State().submits && State().submits[me] == Answered(result, item)
      ensures Now() == SubmitTurn(old(Now()), me, turn)
    {
      WhileSubmitting(me, item, turn.others);
      result := TrySubmit(me, item, turn.choice);
    }

    /** One look at the three cases of the outer select. */
    method TryReceive(me: nat, choice: Case, drain: seq<Step<T>>) returns (result: ReceiveResult<T>)
      requires Valid() && me in State().receives && (State().receives[me].Receiving? || State().receives[me].Got?)
      modifies this
      ensures Valid() && old(trace) <= trace && me in State().receives && State().receives[me] == Handed(result)
      ensures result.Ended? ==> (done && channel == []) || !old(State()).live
      ensures old(State()).receives[me].Got? ==> result == Delivery(old(State()).receives[me].item) && Now() == old(Now())
      ensures old(State()).receives[me].Receiving? ==> Now() == ReceiveTurn(old(Now()), me, choice, drain)
      ensures old(State()).receives[me].Receiving? && choice == OnChannel && old(channel) != [] ==>
        result == Delivery(old(channel)[0]) && channel == old(channel)[1..]
      ensures old(State()).receives[me].Receiving? && choice == OnDone && old(done) ==> result.Delivery? || result.Ended?
      ensures old(State()).receives[me].Receiving? && choice == OnContext && !old(State()).live ==> result.Ended?
    {
      var was := State();
      if was.receives[me].Got? {
        return Delivery(was.receives[me].item);
      }
      if choice.OnContext? && !was.live {
        Commit(CancelReceive(me), was, Do(was, CancelReceive(me)));
        return Ended;
      } else if choice.OnChannel? && |channel| > 0 {
        result := TakeHead(me);
        return;
      } else if choice.OnDone? && done {
        Commit(SeeDone(me), was, Do(was, SeeDone(me)));
        result := Drain(me, drain);
        return;
      }
      return Parked;
    }

    method Receive(me: nat, turns: seq<Turn<T>>, drain: seq<Step<T>>) returns (result: ReceiveResult<T>)
      requires Valid() && me !in State().receives
      modifies this
      ensures Valid() && old(trace) + [BeginReceive(me)] <= trace
      ensures me in State().receives && State().receives[me] == Handed(result)
      ensures Now() == ReceivePlayed(Took(old(Now()), BeginReceive(me)), me, turns, drain)
    {
      var was := State();
      Commit(BeginReceive(me), was, Do(was, BeginReceive(me)));
      result := AwaitReceive(me, turns, drain);
    }

    /** The outer select, until one of its cases is taken or the turns run out. */
    method AwaitReceive(me: nat, turns: seq<Turn<T>>, drain: seq<Step<T>>) returns (result: ReceiveResult<T>)
      requires Valid() && IsParked(State(), me)
      modifies this
      ensures Valid() && old(trace) <= trace
      ensures me in State().receives && State().receives[me] == Handed(result)
      ensures Now() == ReceivePlayed(old(Now()), me, turns, drain)
    {
      for n := 0 to |turns|
        invariant Valid() && old(trace) <= trace
        invariant me in State().receives && State().receives[me] == Receiving
        invariant Now() == ReceivePlayed(old(Now()), me, turns[..n], drain)
      {
        assert turns[..n + 1][..n] == turns[..n];
        WhileReceiving(me, turns[n].others);
        result := TryReceive(me, turns[n].choice, drain);
        if !result.Parked? {
          ReceiveStays(old(Now()), me, turns, drain, n + 1);
          return;
        }
      }
      assert turns[..|turns|] == turns;
      return Parked;
    }

    method TakeHead(me: nat) returns (result: ReceiveResult<T>)
      requires Valid() && IsTaking(State(), me) && |channel| > 0
      modifies this`channel, this`calls, this`trace
      ensures Valid() && trace == old(trace) + [Take(me)] && Now() == Took(old(Now()), Take(me))
      ensures result == Delivery(old(channel)[0]) && channel == old(channel)[1..]
      ensures me in State().receives && State().receives[me] == Got(old(channel)[0])
    {
      var was := State();
      result := Delivery(channel[0]);
      channel := channel[1..];
      Commit(Take(me), was, Do(was, Take(me)));
    }

    /** The inner select: a buffered item if there is one, ErrClosed otherwise. */
    method Drain(me: nat, others: seq<Step<T>>) returns (result: ReceiveResult<T>)
      requires Valid() && done && me in State().receives && State().receives[me] == Draining
      modifies this
      ensures Valid() && old(trace) <= trace && done && me in State().receives
      ensures !result.Parked? && State().receives[me] == Handed(result)
      ensures result.Ended? ==> channel == []
      ensures Now() == Drained(BesideReceive(old(Now()), me, others), me)
    {
      WhileReceiving(me, others);
      var was := State();
      if was.receives[me].Got? {
        return Delivery(was.receives[me].item);
      }
      if |channel| > 0 {
        result := TakeHead(me);
        return;
      }
      Commit(Empty(me), was, Do(was, Empty(me)));
      return Ended;
    }
  }
}
