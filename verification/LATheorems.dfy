/** The main results about the Live Activity lifecycle, over every reachable
    state and every interleaving. */
module LATheorems {
  import opened Options
  import opened LATables
  import opened LAProtocol
  import opened LALocal
  import opened LAForward
  import opened LAFrame
  import opened LASafety

  // ---- statuses only move forward -----------------------------------------------------

  lemma ForwardStep(s: Sys, step: Step, d: nat)
    requires Inv(s) && Enabled(s, step) && d in s.procs
    ensures Known(s, d) && Known(Do(s, step), d) && Forward(Row(s, d), Row(Do(s, step), d))
  {
    if step.Work? {
      OwnFailuresHold(s, step.d);
    }
    StepForward(s, step, d);
  }

  /** One step never moves a status back, and the three terminal statuses
      absorb.  The unguarded status writes of the source are safe because the
      handler's and the worker's writes cannot meet in the wrong order. */
  lemma StatusForward(s: Sys, step: Step, d: nat)
    requires Reachable(s) && Enabled(s, step) && d in s.procs
    ensures Known(s, d) && Known(Do(s, step), d) && Forward(Row(s, d), Row(Do(s, step), d))
  {
    ReachableInv(s);
    ForwardStep(s, step, d);
  }

  ghost predicate LedTo(a: Dispatch, b: Dispatch) {
    Leads(a.status, b.status) && (Terminal(a.status) ==> b.total == a.total)
  }

  lemma LedOn(a: Dispatch, b: Dispatch, c: Dispatch)
    requires LedTo(a, b) && Forward(b, c)
    ensures LedTo(a, c)
  {
  }

  lemma {:induction false} RunLeads(s: Sys, steps: seq<Step>, d: nat)
    requires Inv(s) && Exec(s, steps).Some? && Known(s, d)
    ensures Known(Exec(s, steps).value, d) && LedTo(Row(s, d), Row(Exec(s, steps).value, d))
  {
    if steps == [] {
    } else {
      var init, last := steps[..|steps| - 1], steps[|steps| - 1];
      var mid := Exec(s, init).value;
      RunInv(s, init);
      RunLeads(s, init, d);
      ForwardStep(mid, last, d);
      LedOn(Row(s, d), Row(mid, d), Row(Do(mid, last), d));
    }
  }

  lemma Stamped(s: Sys, d: nat)
    requires LocalOk(s, d)
    ensures Row(s, d).completedAtSet <==> Terminal(Row(s, d).status)
  {
  }

  /** Over whole runs: DISPATCHED leads to COMPLETED only, the three terminal
      statuses to nothing else, and `completed_at` is set exactly in those three. */
  lemma RunForward(s: Sys, steps: seq<Step>, d: nat)
    requires Reachable(s) && Exec(s, steps).Some? && Known(s, d)
    ensures var s' := Exec(s, steps).value;
      && Known(s', d) && LedTo(Row(s, d), Row(s', d))
      && (Row(s', d).completedAtSet <==> Terminal(Row(s', d).status))
  {
    ReachableInv(s);
    RunLeads(s, steps, d);
    RunInv(s, steps);
    Stamped(Exec(s, steps).value, d);
  }

  // ---- conservation --------------------------------------------------------------------

  /** Fetched, waiting for the task queue, in it, or being sent. */
  function OpenFlights(flights: map<nat, Flight>): set<nat> {
    set x | x in flights && !flights[x].stage.Resolved?
  }

  function FlightsAt(flights: map<nat, Flight>, place: Place): set<nat> {
    set x | x in flights && flights[x].stage.Resolved? && flights[x].stage.place == place
  }

  lemma RecordedSplit(flights: map<nat, Flight>)
    ensures |FlightsAt(flights, Recorded)| == |RecordedSent(flights)| + |RecordedRejected(flights)|
  {
    var a, b := RecordedSent(flights), RecordedRejected(flights);
    assert a !! b;
    assert FlightsAt(flights, Recorded) == a + b by {
      forall x | x in FlightsAt(flights, Recorded) ensures x in a + b {
        assert flights[x].stage == Resolved(Recorded, flights[x].stage.verdict);
      }
    }
  }

  lemma SplitOff(all: set<nat>, part: set<nat>)
    requires part <= all
    ensures |all| == |part| + |all - part|
  {
    assert all == part + (all - part);
  }

  lemma FiveParts(all: set<nat>, a: set<nat>, b: set<nat>, c: set<nat>, d: set<nat>, e: set<nat>)
    requires a <= all && b <= all - a && c <= all - a - b && d <= all - a - b - c && e == all - a - b - c - d
    ensures |a| + |b| + |c| + |d| + |e| == |all|
  {
    SplitOff(all, a);
    SplitOff(all - a, b);
    SplitOff(all - a - b, c);
    SplitOff(all - a - b - c, d);
  }

  function ResolvedFlights(flights: map<nat, Flight>): set<nat> {
    set x | x in flights && flights[x].stage.Resolved?
  }

  lemma PlacesSplit(flights: map<nat, Flight>)
    ensures |FlightsAt(flights, AtWorker)| + |FlightsAt(flights, InQueue)| + |FlightsAt(flights, InBatch)|
            + |FlightsAt(flights, Recorded)| + |FlightsAt(flights, Dropped)| == |ResolvedFlights(flights)|
  {
    FiveParts(ResolvedFlights(flights), FlightsAt(flights, AtWorker), FlightsAt(flights, InQueue),
              FlightsAt(flights, InBatch), FlightsAt(flights, Recorded), FlightsAt(flights, Dropped));
  }

  lemma FlightsSplit(flights: map<nat, Flight>)
    ensures |OpenFlights(flights)| + |FlightsAt(flights, AtWorker)| + |FlightsAt(flights, InQueue)|
            + |FlightsAt(flights, InBatch)| + |FlightsAt(flights, Recorded)| + |FlightsAt(flights, Dropped)| == |flights|
  {
    PlacesSplit(flights);
    SplitOff(flights.Keys, OpenFlights(flights));
    assert flights.Keys - OpenFlights(flights) == ResolvedFlights(flights);
  }

  /** Conservation: in every reachable state the tokens a fan-out has fetched
      are the recorded outcomes plus everything still on its way plus what was
      dropped; and each counter counts its own kind of outcome, token by token. */
  lemma Conservation(s: Sys, d: nat)
    requires Reachable(s) && Running(s, d)
    ensures var row, f := Row(s, d), s.procs[d].flights;
      && row.success == |RecordedSent(f)|
      && row.failure == |RecordedRejected(f)|
      && row.success + row.failure + |OpenFlights(f)| + |FlightsAt(f, AtWorker)| + |FlightsAt(f, InQueue)|
         + |FlightsAt(f, InBatch)| + |FlightsAt(f, Dropped)| == |RunOf(s, d).scan.fetched|
  {
    ReachableInv(s);
    assert LocalOk(s, d);
    RecordedSplit(s.procs[d].flights);
    FlightsSplit(s.procs[d].flights);
    KeysCount(s.procs[d], RunOf(s, d));
  }

  ghost predicate AllRecorded(flights: map<nat, Flight>) {
    forall x :: x in flights ==> flights[x].stage.Resolved? && flights[x].stage.place.Recorded?
  }

  /** No completion is early and none is lost: between enqueue completion and
      the last outcome a dispatch is DISPATCHED, and it is COMPLETED exactly
      when every token it fetched has its outcome recorded. */
  lemma CompletionIsExact(s: Sys, d: nat)
    requires Reachable(s) && Known(s, d)
    requires Row(s, d).status in {Dispatched, Completed}
    ensures var row := Row(s, d);
      && (row.status.Dispatched? ==> row.success + row.failure < row.total)
      && (row.status.Completed? ==> row.success + row.failure == row.total)
      && (row.status.Completed? <==> AllRecorded(s.procs[d].flights))
      && Running(s, d) && row.total == |RunOf(s, d).scan.fetched|
  {
    ReachableInv(s);
    assert LocalOk(s, d);
    CountedExactly(Row(s, d), s.procs[d], d, JobOf(s, d).activity);
  }

  lemma CountedExactly(row: Dispatch, p: Proc, d: nat, activity: nat)
    requires DispatchOk(row, p, d, activity) && row.status in {Dispatched, Completed}
    ensures row.status.Dispatched? ==> row.success + row.failure < row.total
    ensures row.status.Completed? ==> row.success + row.failure == row.total
    ensures p.run.Some? && row.total == |p.run.value.scan.fetched|
    ensures row.status.Completed? <==> AllRecorded(p.flights)
  {
    KeysCount(p, p.run.value);
    CountsBounded(row, p.flights);
  }

  lemma FailedAreHeld(row: Dispatch, p: Proc, run: Run, d: nat, activity: nat)
    requires StockOk(row, p, run, d, activity)
    ensures run.failed != [] ==> !AllRecorded(p.flights)
  {
    if run.failed != [] {
      assert FailedOk(p, d, row, activity, run.failed[0]);
    }
  }

  lemma NoOutcomeLeft(s: Sys, d: nat)
    requires Inv(s) && Known(s, d) && Row(s, d).status.Completed?
    ensures d !in Touched(s.batch)
    ensures Running(s, d) && RunOf(s, d).failed == []
  {
    assert LocalOk(s, d);
    var p := s.procs[d];
    KeysCount(p, RunOf(s, d));
    CountsBounded(Row(s, d), p.flights);
    forall o | o in s.batch ensures o.dispatch != d {
      assert InFlightBatch(s, o);
      assert Batched(s.procs[o.dispatch].flights, o.token);
    }
    FailedAreHeld(Row(s, d), p, RunOf(s, d), d, JobOf(s, d).activity);
  }

  lemma WorkSettled(s: Sys, d: nat, ok: bool)
    requires LocalOk(s, d) && CanWork(s, d) && Row(s, d).status.Completed? && RunOf(s, d).failed == []
    ensures Known(DoWork(s, d, ok), d) && Row(DoWork(s, d, ok), d) == Row(s, d)
  {
  }

  lemma HandlerSettled(s: Sys, step: Step)
    requires Enabled(s, step)
    requires step.Submit? || step.Mark? || step.Refuse? || step.RefuseJob? || step.Take?
    requires LocalOk(s, step.d) && Row(s, step.d).status.Completed?
    ensures Known(Do(s, step), step.d) && Row(Do(s, step), step.d) == Row(s, step.d)
  {
  }

  lemma ActorSettled(s: Sys, step: Step, d: nat)
    requires Enabled(s, step) && LocalOk(s, d) && Actor(step) == Some(d)
    requires Row(s, d).status.Completed? && (Running(s, d) ==> RunOf(s, d).failed == [])
    ensures Known(Do(s, step), d) && Row(Do(s, step), d) == Row(s, d)
  {
    if step.Work? {
      WorkSettled(s, d, step.ok);
    } else if step.StartSend? || step.EndSend? || step.Collect? {
      StageForward(s, step);
    } else {
      HandlerSettled(s, step);
    }
  }

  /** The move to COMPLETED happens once and is the last change of the row:
      no later step touches status, total or counters. */
  lemma CompletedIsFinal(s: Sys, step: Step, d: nat)
    requires Reachable(s) && Enabled(s, step) && Known(s, d) && Row(s, d).status.Completed?
    ensures Known(Do(s, step), d) && Row(Do(s, step), d) == Row(s, d)
  {
    ReachableInv(s);
    NoOutcomeLeft(s, d);
    assert LocalOk(s, d);
    if step.Flush? {
      if step.ok {
        FlushStays(s, d);
      }
    } else if Actor(step) == Some(d) {
      ActorSettled(s, step, d);
    } else {
      if step.Work? {
        OwnFailuresHold(s, step.d);
      }
      StepUntouched(s, step, d);
    }
  }

  /** Nothing of the dispatch is on its way any more. */
  ghost predicate Quiet(s: Sys, d: nat)
    requires Running(s, d)
  {
    && RunOf(s, d).pc.Finished?
    && forall x :: x in s.procs[d].flights ==>
         s.procs[d].flights[x].stage.Resolved? && s.procs[d].flights[x].stage.place in {Recorded, Dropped}
  }

  lemma QuietFlights(f: map<nat, Flight>)
    requires forall x :: x in f ==> f[x].stage.Resolved? && f[x].stage.place in {Recorded, Dropped}
    ensures OpenFlights(f) == {} && FlightsAt(f, AtWorker) == {} && FlightsAt(f, InQueue) == {} && FlightsAt(f, InBatch) == {}
  {
  }

  lemma QuietRow(s: Sys, d: nat)
    requires Inv(s) && Running(s, d) && RunOf(s, d).pc.Finished? && !s.procs[d].statusLost
    ensures var row := Row(s, d);
      && row.status in {Dispatched, Completed, Superseded, Failed}
      && row.total == |RunOf(s, d).scan.fetched|
      && (row.status.Dispatched? ==> row.success + row.failure < row.total)
  {
    assert LocalOk(s, d);
  }

  /** At quiescence the counters add up on every exit path alike, COMPLETED,
      SUPERSEDED or FAILED, exactly when no outcome was dropped; and a dispatch
      left in DISPATCHED has lost one. */
  lemma QuietIsExact(s: Sys, d: nat)
    requires Reachable(s) && Running(s, d) && Quiet(s, d) && !s.procs[d].statusLost
    ensures var row, f := Row(s, d), s.procs[d].flights;
      && row.status in {Dispatched, Completed, Superseded, Failed}
      && row.total == |RunOf(s, d).scan.fetched|
      && (row.success + row.failure == row.total <==> FlightsAt(f, Dropped) == {})
      && (row.status.Dispatched? ==> FlightsAt(f, Dropped) != {})
  {
    Conservation(s, d);
    QuietFlights(s.procs[d].flights);
    ReachableInv(s);
    QuietRow(s, d);
  }

  // ---- superseded updates --------------------------------------------------------------------

  /** A dispatch the pipeline did not accept never supersedes another. */
  lemma RejectedNeverSupersedes(s: Sys, d: nat, n: nat)
    requires Reachable(s) && Known(s, d) && Known(s, n)
    requires SupersededBy(Row(s, d), Row(s, n))
    ensures s.procs[n].accepted && Row(s, n).action.Update? && Row(s, n).createdAt > Row(s, d).createdAt
  {
    ReachableInv(s);
    assert LocalOk(s, n);
  }

  /** Every superseded update has a strictly newer update of the same job that
      the pipeline accepted, that is past ENQUEUE_PENDING and not superseded
      itself.  FAILED is one of the five statuses left: see `LAFailedSurvivor`. */
  lemma SupersedeLeavesSurvivor(s: Sys, d: nat) returns (n: nat)
    requires Reachable(s) && Known(s, d) && Row(s, d).status.Superseded?
    ensures NewerAccepted(s, d, n) && Row(s, n).status in {Queued, InProgress, Dispatched, Completed, Failed}
  {
    ReachableInv(s);
    n := Survivor(s, d, s.procs.Keys);
  }

  /** Search among `left`, which holds every known dispatch newer than `d`. */
  lemma Survivor(s: Sys, d: nat, left: set<nat>) returns (n: nat)
    requires Inv(s) && Known(s, d) && Row(s, d).status.Superseded?
    requires forall e :: Known(s, e) && Row(s, e).createdAt > Row(s, d).createdAt ==> e in left
    ensures NewerAccepted(s, d, n) && !Row(s, n).status.Superseded?
    decreases |left|
  {
    var m :| NewerAccepted(s, d, m);
    n := m;
    if Row(s, m).status.Superseded? {
      n := Survivor(s, m, left - {m});
    }
  }

  /** In particular the newest accepted update of a job is never superseded. */
  lemma NewestIsNeverSuperseded(s: Sys, d: nat)
    requires Reachable(s) && Known(s, d)
    requires !exists n :: NewerAccepted(s, d, n)
    ensures !Row(s, d).status.Superseded?
  {
    if Row(s, d).status.Superseded? {
      var n := SupersedeLeavesSurvivor(s, d);
    }
  }

  // ---- jobs ---------------------------------------------------------------------------------------

  /** A completed end dispatch has closed its job, and a start that failed or
      reached nobody has failed it: the job is no longer active, unless its
      write is still to come or failed. */
  lemma TerminalDispatchSettlesJob(s: Sys, d: nat)
    requires Reachable(s) && Known(s, d) && !s.procs[d].followLost
    ensures Row(s, d).action.End? && Row(s, d).status.Completed? && Row(s, d).total > 0 ==> !JobOf(s, d).status.Active?
    ensures Row(s, d).action.End? && Row(s, d).status.Completed? && Running(s, d) && RunOf(s, d).pc.Finished? ==>
              !JobOf(s, d).status.Active?
    ensures Row(s, d).action.Start? && !FollowUpDue(s.procs[d]) &&
            (Row(s, d).status.Failed? || (Row(s, d).status.Completed? && Row(s, d).total == 0)) ==>
              !JobOf(s, d).status.Active?
  {
    ReachableInv(s);
    assert LocalOk(s, d) && CoupledAt(s, d);
  }

  /** What one step may make of a job. */
  ghost predicate JobMoves(jobs: map<nat, Job>, jobs': map<nat, Job>, j: nat)
    requires j in jobs
  {
    && (!jobs[j].status.Active? ==> j in jobs' && jobs'[j] == jobs[j])
    && (j in jobs' ==> jobs'[j] in {jobs[j], CloseIfActive(jobs[j]), FailIfActive(jobs[j])})
  }

  lemma StartMoves(jobs: map<nat, Job>, id: nat, activity: nat, kind: nat, scope: Scope, j: nat)
    requires j in jobs && id !in jobs
    ensures JobMoves(jobs, CreateOrGetStartJob(jobs, id, activity, kind, scope), j)
    ensures j in CreateOrGetStartJob(jobs, id, activity, kind, scope)
  {
  }

  lemma SettleMoves(jobs: map<nat, Job>, jobs': map<nat, Job>, j: nat)
    requires j in jobs && Settles(jobs, jobs') && (!jobs[j].status.Active? ==> j in jobs')
    ensures JobMoves(jobs, jobs', j)
  {
  }

  /** Only the rollback of its own start takes a job away, and only an active one. */
  lemma JobsLeave(s: Sys, step: Step, j: nat)
    requires Enabled(s, step) && !step.Work? && !step.StartJob? && j in s.tables.jobs
    ensures j in Do(s, step).tables.jobs || (step == RollbackJob(j) && s.tables.jobs[j].status.Active?)
  {
  }

  lemma WorkKeepsJobs(s: Sys, d: nat, ok: bool, j: nat)
    requires CanWork(s, d) && j in s.tables.jobs
    ensures j in DoWork(s, d, ok).tables.jobs
  {
  }

  /** ACTIVE is the same as open, for every job; a job that has left ACTIVE stays
      as it is, and an active one is kept, closed, failed, or taken back by the
      rollback of its own start. */
  lemma JobNeverReopens(s: Sys, step: Step, j: nat)
    requires Reachable(s) && Enabled(s, step) && j in s.tables.jobs
    ensures s.tables.jobs[j].status.Active? <==> !s.tables.jobs[j].closedAtSet
    ensures JobMoves(s.tables.jobs, Do(s, step).tables.jobs, j)
    ensures j in Do(s, step).tables.jobs || step == RollbackJob(j)
  {
    assert JobsOk(s.tables.jobs) by {
      ReachableInv(s);
    }
    JobStep(s, step, j);
  }

  lemma JobStep(s: Sys, step: Step, j: nat)
    requires Enabled(s, step) && j in s.tables.jobs
    ensures JobMoves(s.tables.jobs, Do(s, step).tables.jobs, j)
    ensures j in Do(s, step).tables.jobs || step == RollbackJob(j)
  {
    match step
    case StartJob(id, activity, kind, scope) => StartMoves(s.tables.jobs, id, activity, kind, scope, j);
    case Work(d, ok) =>
      WorkKeepsJobs(s, d, ok, j);
      WorkSettles(s, d, ok);
      SettleMoves(s.tables.jobs, Do(s, step).tables.jobs, j);
    case _ =>
      JobsLeave(s, step, j);
      StepSettles(s, step);
      SettleMoves(s.tables.jobs, Do(s, step).tables.jobs, j);
  }

  /** One job per activity id, one active job per type and scope. */
  lemma JobsAreUnique(s: Sys, i: nat, j: nat)
    requires Reachable(s) && i in s.tables.jobs && j in s.tables.jobs
    ensures s.tables.jobs[i].activity == s.tables.jobs[j].activity ==> i == j
    ensures SameActiveScope(s.tables.jobs[i], s.tables.jobs[j]) ==> i == j
  {
    ReachableInv(s);
  }
}
