/** The main results about publish jobs, over every reachable state and every
    interleaving of fan-out, sends, batches and the scheduler. */
module PushTheorems {
  import opened Options
  import opened PushTables
  import opened PushProtocol
  import opened PushSafety
  import opened Keyset
  import opened Sequences

  // ---- completion ------------------------------------------------------------------

  /** COMPLETED is never early: it means every token fetched was emitted, every
      outcome is recorded, and the counters and receipts add up to the total. */
  lemma CompletedIsExact(c: Cell)
    requires Reachable(c) && c.row.status.Completed?
    ensures c.run.Some? && AllRecorded(c.flights)
    ensures c.row.success + c.row.failure == c.row.total == |c.run.value.scan.fetched| == c.run.value.emitted
    ensures Failures(c.receipts, c.job) == c.row.failure
  {
    ReachableInv(c);
    CountsBounded(c);
  }

  /** A job left DISPATCHED with all its outcomes in is one whose re-check is
      still to come or has failed, and which no batch has touched since it was
      finalised: the race window is no wider than that. */
  lemma WindowIsNarrow(c: Cell)
    requires Reachable(c) && c.row.status.Dispatched? && c.row.success + c.row.failure >= c.row.total
    ensures c.run.Some? && (c.run.value.pc.AtRecheck? || c.run.value.pc == Ended(RecheckFailed)) && !c.flushedLate
  {
    ReachableInv(c);
  }

  /** The fan-out has returned and nothing of the job is on its way. */
  ghost predicate Quiet(c: Cell) {
    && c.run.Some? && c.run.value.pc.Ended?
    && forall x :: x in c.flights ==> c.flights[x].Fetched? || (c.flights[x].Resolved? && c.flights[x].place in {Recorded, Dropped})
  }

  ghost predicate NoneDropped(c: Cell) {
    forall x :: x in c.flights && c.flights[x].Resolved? ==> !c.flights[x].place.Dropped?
  }

  /** Exactly when a job ends COMPLETED: the fan-out got to its re-check, no
      outcome was dropped, and if the re-check write failed, a batch that came
      after the finalise step made up for it. */
  lemma CompletesExactlyWhen(c: Cell)
    requires Reachable(c) && Quiet(c)
    ensures c.row.status.Completed? <==>
            && Finalised(c.run.value.pc)
            && NoneDropped(c)
            && (c.run.value.pc == Ended(Rechecked) || c.flushedLate || c.run.value.total == 0)
  {
    ReachableInv(c);
    CountsBounded(c);
    if Finalised(c.run.value.pc) && NoneDropped(c) {
      forall x | x in c.flights ensures c.flights[x].Resolved? && c.flights[x].place.Recorded? {
        assert x in c.run.value.scan.fetched;
      }
      assert AllRecorded(c.flights);
    }
  }

  // ---- statuses --------------------------------------------------------------------------

  /** The moves one step can make. */
  predicate Moves(a: JobStatus, b: JobStatus) {
    a == b ||
    match a
    case Scheduled => b.Queued?
    case Queued => b in {InProgress, Dispatched, Completed, Failed}
    case InProgress => b in {Dispatched, Completed, Failed}
    case Dispatched => b.Completed?
    case _ => false
  }

  ghost predicate Forward(c: Cell, c': Cell) {
    Moves(c.row.status, c'.row.status)
  }

  lemma WorkForward(c: Cell, ok: bool)
    requires EntryOk(c) && CanWork(c) && RunOk(c, c.run.value)
    ensures Forward(c, DoWork(c, ok))
  {
  }

  /** Statuses only move forward, DISPATCHED to COMPLETED only, and COMPLETED and
      FAILED are final, although most of the source's status writes carry no
      guard.  QUEUED may skip IN_PROGRESS, whose write may fail. */
  lemma StatusForward(c: Cell, step: Step)
    requires Reachable(c) && Enabled(c, step)
    ensures Forward(c, Do(c, step))
  {
    ReachableInv(c);
    match step
    case Work(ok) => WorkForward(c, ok);
    case Flush(_, _) =>
    case _ =>
  }

  lemma EndedStays(c: Cell, step: Step)
    requires Inv(c) && Enabled(c, step) && c.run.Some? && c.run.value.pc.Ended?
    ensures Do(c, step).run == c.run
  {
  }

  lemma {:induction false} EndedForGood(c: Cell, steps: seq<Step>)
    requires Inv(c) && c.run.Some? && c.run.value.pc.Ended? && Exec(c, steps).Some?
    ensures Exec(c, steps).value.run == c.run && Inv(Exec(c, steps).value)
  {
    if steps == [] {
    } else {
      var mid := Exec(c, steps[..|steps| - 1]).value;
      EndedForGood(c, steps[..|steps| - 1]);
      EndedStays(mid, steps[|steps| - 1]);
      InvStep(mid, steps[|steps| - 1]);
    }
  }

  /** A fan-out whose task submit was refused leaves its job unfinished for good:
      no later step of any process completes or fails it. */
  lemma RefusedEmitStrands(c: Cell, steps: seq<Step>)
    requires Reachable(c) && c.run.Some? && c.run.value.pc == Ended(EmitRefused) && Exec(c, steps).Some?
    ensures var c' := Exec(c, steps).value;
      c'.run == c.run && c'.row.status in {Queued, InProgress} && !c'.row.completedAtSet
  {
    ReachableInv(c);
    EndedForGood(c, steps);
  }

  // ---- entering the queue -----------------------------------------------------------------

  /** However many scheduler ticks run at once and whatever the handler does, a
      job enters the queue at most once, a scheduled one never before its time,
      and one whose submit was refused ends FAILED unless that write fails too. */
  lemma EntersOnce(c: Cell)
    requires Reachable(c)
    ensures |c.entry.entered| <= 1 && c.entry.claimed <= 1
    ensures c.row.scheduledAt.Some? ==> forall i :: 0 <= i < |c.entry.entered| ==> c.entry.entered[i] >= c.row.scheduledAt.value
    ensures c.entry.settled > c.entry.lost ==> c.row.status.Failed? && c.entry.entered == []
    ensures c.entry.queued + (if c.run.Some? then 1 else 0) == |c.entry.entered|
  {
    ReachableInv(c);
    assert c.entry.entered == [] || |c.entry.entered| >= 1;
  }

  /** It is the claim's move out of SCHEDULED that keeps the next tick away: a
      job that has been copied anywhere is not due. */
  lemma ClaimedIsNotDue(c: Cell)
    requires Reachable(c) && Copies(c) > 0
    ensures !Due(c.row, c.now)
  {
    ReachableInv(c);
  }

  // ---- what a fan-out reaches --------------------------------------------------------------

  ghost predicate Reading(c: Cell, step: Step) {
    step == Work(true) && CanWork(c) && c.run.value.pc.AtTokens?
  }

  /** `p` holds of every set a page of the run is read from. */
  ghost predicate AtReads(c: Cell, steps: seq<Step>, p: set<nat> -> bool) {
    steps == [] ||
    var init, last := steps[..|steps| - 1], steps[|steps| - 1];
    && AtReads(c, init, p)
    && Exec(c, init).Some?
    && (Reading(Exec(c, init).value, last) ==> p(Exec(c, init).value.eligible))
  }

  ghost predicate AllSeen(run: Run, p: set<nat> -> bool) {
    forall k :: 0 <= k < |run.scan.seen| ==> p(run.scan.seen[k])
  }

  lemma StepSeen(c: Cell, step: Step, p: set<nat> -> bool)
    requires Enabled(c, step) && c.run.Some? && AllSeen(c.run.value, p) && (Reading(c, step) ==> p(c.eligible))
    ensures Do(c, step).run.Some? && AllSeen(Do(c, step).run.value, p)
  {
  }

  lemma {:induction false} ReadsSeen(c: Cell, steps: seq<Step>, p: set<nat> -> bool)
    requires c.run == Some(NEW_RUN) && Exec(c, steps).Some? && AtReads(c, steps, p)
    ensures Exec(c, steps).value.run.Some? && AllSeen(Exec(c, steps).value.run.value, p)
  {
    if steps == [] {
    } else {
      ReadsSeen(c, steps[..|steps| - 1], p);
      StepSeen(Exec(c, steps[..|steps| - 1]).value, steps[|steps| - 1], p);
    }
  }

  /** A token that is eligible at every page read is fetched exactly once by a
      fan-out that reads its last page, whatever else comes and goes. */
  lemma EligibleTokenOnce(c: Cell, steps: seq<Step>, x: nat)
    requires Reachable(c) && c.run == Some(NEW_RUN) && Exec(c, steps).Some?
    requires x >= 1 && AtReads(c, steps, s => x in s)
    ensures var run := Exec(c, steps).value.run;
      run.Some? && Increasing(run.value.scan.fetched) && (run.value.scan.done ==> ExactlyOnce(run.value.scan.fetched, x))
  {
    ReachableInv(c);
    RunInv(c, steps);
    ReadsSeen(c, steps, s => x in s);
    var run := Exec(c, steps).value.run.value;
    if run.scan.done {
      assert InEvery(run.scan.seen, x);
      OnceInIncreasing(run.scan.fetched, x);
    }
  }

  /** On a set of tokens that does not change, a fan-out fetches exactly its
      sorted list. */
  lemma FixedTokensSorted(c: Cell, steps: seq<Step>, tokens: set<nat>)
    requires Reachable(c) && c.run == Some(NEW_RUN) && Exec(c, steps).Some? && 0 !in tokens
    requires AtReads(c, steps, s => s == tokens)
    ensures var run := Exec(c, steps).value.run;
      run.Some? && (run.value.scan.done ==> run.value.scan.fetched == Sorted(tokens))
  {
    ReachableInv(c);
    RunInv(c, steps);
    ReadsSeen(c, steps, s => s == tokens);
    var run := Exec(c, steps).value.run.value;
    if run.scan.done {
      FixedSetScan(run.scan, tokens);
    }
  }

  /** The tokens handed to the task queue are always a prefix of those fetched,
      so a refused submit leaves a prefix. */
  lemma EmittedIsPrefix(c: Cell, x: nat)
    requires Reachable(c) && c.run.Some?
    ensures var run := c.run.value;
      && run.emitted <= |run.scan.fetched|
      && (x in run.scan.fetched[..run.emitted] <==> x in c.flights && !c.flights[x].Fetched?)
      && (run.pc == Ended(EmitRefused) ==> run.emitted < |run.scan.fetched|)
  {
    ReachableInv(c);
    var run := c.run.value;
    if x in c.flights && !c.flights[x].Fetched? {
      var i :| 0 <= i < |run.scan.fetched| && run.scan.fetched[i] == x;
      assert run.scan.fetched[..run.emitted][i] == x;
    }
  }
}
