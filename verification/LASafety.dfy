/** The invariant of the whole machine, and the safety theorems over every run. */
module LASafety {
  import opened Options
  import opened LATables
  import opened LAProtocol
  import opened LALocal
  import opened LAForward
  import opened LAFrame
  import opened Keyset

  // ---- the outcome batch ---------------------------------------------------------

  ghost predicate InFlightBatch(s: Sys, o: Outcome) {
    && Known(s, o.dispatch)
    && o.token in s.procs[o.dispatch].flights
    && s.procs[o.dispatch].flights[o.token] == Flight(o.platform, Resolved(InBatch, o.verdict))
    && o == OutcomeOf(o.dispatch, o.token, o.platform, Row(s, o.dispatch), JobOf(s, o.dispatch), o.verdict)
  }

  ghost predicate Batched(flights: map<nat, Flight>, x: nat) {
    x in flights && flights[x].stage.Resolved? && flights[x].stage.place.InBatch?
  }

  ghost predicate Listed(batch: seq<Outcome>, d: nat, x: nat) {
    exists o :: o in batch && o.dispatch == d && o.token == x
  }

  /** The worker's batch holds each outcome that left the queue and is not
      recorded yet, once. */
  ghost predicate BatchOk(s: Sys) {
    && (forall i, j :: 0 <= i < j < |s.batch| ==>
          s.batch[i].dispatch != s.batch[j].dispatch || s.batch[i].token != s.batch[j].token)
    && (forall o :: o in s.batch ==> InFlightBatch(s, o))
    && (forall d, x :: d in s.procs && Batched(s.procs[d].flights, x) ==> Listed(s.batch, d, x))
  }

  lemma BatchCovers(s: Sys, d: nat)
    requires BatchOk(s) && d in s.procs
    ensures Covers(s.batch, d, s.procs[d].flights, InBatch)
  {
    forall o | o in s.batch && o.dispatch == d
      ensures o.token in s.procs[d].flights && s.procs[d].flights[o.token].stage == Resolved(InBatch, o.verdict)
    {
      assert InFlightBatch(s, o);
    }
    forall x | x in s.procs[d].flights && s.procs[d].flights[x].stage.Resolved?
               && s.procs[d].flights[x].stage.place == InBatch
      ensures exists o :: o in s.batch && o.dispatch == d && o.token == x
    {
      assert Listed(s.batch, d, x);
    }
  }

  // ---- links ---------------------------------------------------------------------

  ghost predicate StartDelivered(s: Sys, d: nat, x: nat) {
    && Known(s, d) && Row(s, d).action.Start?
    && x in s.procs[d].flights
    && s.procs[d].flights[x].platform.Fcm?
    && s.procs[d].flights[x].stage.Resolved?
    && s.procs[d].flights[x].stage.verdict.Sent?
  }

  ghost predicate RecordedStart(s: Sys, d: nat, x: nat) {
    StartDelivered(s, d, x) && s.procs[d].flights[x].stage.place.Recorded?
  }

  /** A recorded FCM start is linked to the activity. */
  ghost predicate LinksOk(s: Sys) {
    forall d: nat, x: nat :: RecordedStart(s, d, x) ==> (JobOf(s, d).activity, x) in s.tables.links
  }

  // ---- superseded updates -----------------------------------------------------------

  /** A strictly newer update of the same job that the pipeline accepted. */
  ghost predicate NewerAccepted(s: Sys, d: nat, n: nat) {
    && Known(s, d) && Known(s, n)
    && Row(s, n).job == Row(s, d).job
    && Row(s, n).action.Update?
    && Row(s, n).createdAt > Row(s, d).createdAt
    && s.procs[n].accepted
    && !Row(s, n).status.EnqueuePending?
  }

  ghost predicate SurvivorOk(s: Sys) {
    forall d :: Known(s, d) && Row(s, d).status.Superseded? ==> exists n :: NewerAccepted(s, d, n)
  }

  // ---- jobs --------------------------------------------------------------------------

  ghost predicate SameActiveScope(a: Job, b: Job) {
    a.status.Active? && b.status.Active? && a.kind == b.kind && a.scope == b.scope
  }

  /** Open and active are the same thing, an activity id names one job, and a
      type and scope have one active job. */
  ghost predicate JobsOk(jobs: map<nat, Job>) {
    && (forall j :: j in jobs ==> jobs[j].activity != 0 && (jobs[j].status.Active? <==> !jobs[j].closedAtSet))
    && (forall i, j :: i in jobs && j in jobs && jobs[i].activity == jobs[j].activity ==> i == j)
    && (forall i, j :: i in jobs && j in jobs && SameActiveScope(jobs[i], jobs[j]) ==> i == j)
  }

  /** The worker or the handler has yet to write the job. */
  ghost predicate FollowUpDue(p: Proc) {
    || p.handler.RefusingJob?
    || (p.run.Some? && (p.run.value.pc.AtFollowUp? || p.run.value.pc.AtFail? || Failing(p.run.value.pc)))
  }

  ghost predicate Coupled(row: Dispatch, p: Proc, job: Job) {
    && (row.action.End? && row.status.Completed? ==>
          !job.status.Active? || p.followLost || (p.run.Some? && p.run.value.pc.AtFollowUp?))
    && (row.action.Start? && (row.status.Failed? || (row.status.Completed? && row.total == 0)) ==>
          !job.status.Active? || p.followLost || FollowUpDue(p))
  }

  ghost predicate CoupledAt(s: Sys, d: nat) {
    Known(s, d) && Coupled(Row(s, d), s.procs[d], JobOf(s, d))
  }

  ghost predicate CoupledOk(s: Sys) {
    forall d :: Known(s, d) ==> CoupledAt(s, d)
  }

  // ---- the invariant --------------------------------------------------------------------

  ghost predicate Inv(s: Sys) {
    && s.pageSize >= 1
    && s.procs.Keys == s.tables.dispatches.Keys
    && (forall d :: d in s.procs ==> LocalOk(s, d))
    && BatchOk(s)
    && LinksOk(s)
    && SurvivorOk(s)
    && JobsOk(s.tables.jobs)
    && CoupledOk(s)
  }

  lemma InitInv(pageSize: nat)
    requires pageSize >= 1
    ensures Inv(Init(pageSize))
  {
  }

  /** What `Inv` gives every step. */
  lemma StepFacts(s: Sys, step: Step)
    requires Inv(s) && Enabled(s, step)
    ensures step.Work? ==> OwnFailures(s, step.d)
    ensures forall e :: e in s.procs ==> Stays(s, Do(s, step), e)
    ensures forall e :: e in s.procs && Actor(step) != Some(e) && !step.Flush? ==> Untouched(s, Do(s, step), e)
    ensures forall e :: e in Do(s, step).procs && Actor(step) != Some(e) ==> e in s.procs
  {
    if step.Work? {
      OwnFailuresHold(s, step.d);
    }
    forall e | e in s.procs ensures Stays(s, Do(s, step), e) {
      StepStays(s, step, e);
    }
    forall e | e in s.procs && Actor(step) != Some(e) && !step.Flush? ensures Untouched(s, Do(s, step), e) {
      StepUntouched(s, step, e);
    }
    forall e | e in Do(s, step).procs && Actor(step) != Some(e) ensures e in s.procs {
      ProcsOnlyFromRequests(s, step, e);
    }
  }

  lemma LocalsStep(s: Sys, step: Step)
    requires Inv(s) && Enabled(s, step)
    ensures forall d :: d in Do(s, step).procs ==> LocalOk(Do(s, step), d)
  {
    forall d | d in Do(s, step).procs ensures LocalOk(Do(s, step), d) {
      if step.Flush? && d in s.procs {
        BatchCovers(s, d);
      }
      LocalStep(s, step, d);
    }
  }

  lemma WorkKeys(s: Sys, d: nat, ok: bool)
    requires CanWork(s, d)
    ensures DoWork(s, d, ok).procs.Keys == s.procs.Keys
    ensures DoWork(s, d, ok).tables.dispatches.Keys == s.tables.dispatches.Keys
    ensures DoWork(s, d, ok).pageSize == s.pageSize
    ensures DoWork(s, d, ok).batch == s.batch
    ensures s.tables.links <= DoWork(s, d, ok).tables.links
  {
  }

  ghost predicate KeysKept(s: Sys, s': Sys, step: Step) {
    && s'.procs.Keys == s'.tables.dispatches.Keys
    && s'.pageSize == s.pageSize
    && s.tables.links <= s'.tables.links
    && (!step.Collect? && !step.Flush? ==> s'.batch == s.batch)
    && (forall d :: d in s'.procs && d !in s.procs ==> s'.procs[d] == NEW_PROC)
  }

  lemma KeysJobs(s: Sys, step: Step)
    requires s.procs.Keys == s.tables.dispatches.Keys && Enabled(s, step)
    requires step.StartJob? || step.RollbackJob? || step.World? || step.NewRequest? || step.Take?
    ensures KeysKept(s, Do(s, step), step)
  {
  }

  lemma KeysHandler(s: Sys, step: Step)
    requires s.procs.Keys == s.tables.dispatches.Keys && Enabled(s, step)
    requires step.Submit? || step.Mark? || step.Refuse? || step.RefuseJob?
    ensures KeysKept(s, Do(s, step), step)
  {
  }

  lemma KeysStage(s: Sys, step: Step)
    requires s.procs.Keys == s.tables.dispatches.Keys && Enabled(s, step)
    requires step.StartSend? || step.EndSend? || step.Collect?
    ensures KeysKept(s, Do(s, step), step)
  {
  }

  lemma KeysFlush(s: Sys, ok: bool)
    requires s.procs.Keys == s.tables.dispatches.Keys && s.batch != []
    ensures KeysKept(s, DoFlush(s, ok), Flush(ok))
  {
  }

  lemma KeysStep(s: Sys, step: Step)
    requires s.procs.Keys == s.tables.dispatches.Keys && Enabled(s, step)
    ensures KeysKept(s, Do(s, step), step)
  {
    match step
    case Work(d, ok) => WorkKeys(s, d, ok);
    case Flush(ok) => KeysFlush(s, ok);
    case Submit(_, _) => KeysHandler(s, step);
    case Mark(_, _) => KeysHandler(s, step);
    case Refuse(_, _) => KeysHandler(s, step);
    case RefuseJob(_, _) => KeysHandler(s, step);
    case StartSend(_, _) => KeysStage(s, step);
    case EndSend(_, _, _, _) => KeysStage(s, step);
    case Collect(_, _) => KeysStage(s, step);
    case _ => KeysJobs(s, step);
  }

  // ---- the batch ------------------------------------------------------------------------

  ghost predicate SameBatched(f: map<nat, Flight>, g: map<nat, Flight>) {
    forall x :: (Batched(f, x) <==> Batched(g, x)) && (Batched(f, x) ==> f[x] == g[x])
  }

  lemma FetchBatched(p: Proc, tokens: map<nat, Token>, page: Page)
    requires forall x :: x in page.ids ==> x !in p.flights
    ensures SameBatched(p.flights, FetchFlights(p, tokens, page))
  {
  }

  lemma MoveBatched(f: map<nat, Flight>, to: Place)
    requires !to.InBatch?
    ensures SameBatched(f, Move(f, AtWorker, to))
  {
  }

  lemma TokensBatched(s: Sys, d: nat, ok: bool)
    requires CanWork(s, d) && LocalOk(s, d) && RunOf(s, d).pc.AtTokens?
    ensures SameBatched(s.procs[d].flights, WorkTokens(s, d, ok).procs[d].flights)
  {
    if ok {
      var run, p := RunOf(s, d), s.procs[d];
      var matching := TokenSet(s, d, run.pc.startPending);
      var page := PageOf(matching, run.cursor, s.pageSize);
      PageContents(matching, run.cursor, s.pageSize);
      assert forall x :: x in page.ids ==> x > run.scan.cursor;
      FetchBatched(p, s.tables.tokens, page);
    }
  }

  lemma EmitBatched(s: Sys, d: nat, ok: bool)
    requires CanWork(s, d) && LocalOk(s, d) && RunOf(s, d).pc.AtEmit?
    ensures SameBatched(s.procs[d].flights, WorkEmit(s, d, ok).procs[d].flights)
  {
    var pc := RunOf(s, d).pc;
    if pc.sent < |pc.page.ids| {
      assert pc.page.ids[pc.sent] in pc.page.ids[pc.sent..];
      assert Pending(RunOf(s, d), pc.page.ids[pc.sent]);
    }
  }

  lemma WorkBatched(s: Sys, d: nat, ok: bool)
    requires CanWork(s, d) && LocalOk(s, d)
    ensures SameBatched(s.procs[d].flights, DoWork(s, d, ok).procs[d].flights)
  {
    match RunOf(s, d).pc
    case AtTokens(_) => TokensBatched(s, d, ok);
    case AtEmit(_, _) => EmitBatched(s, d, ok);
    case AtApply => MoveBatched(s.procs[d].flights, if ok then Recorded else Dropped);
    case AtFailApply => MoveBatched(s.procs[d].flights, if ok then Recorded else Dropped);
    case _ => WorkKeepsFlights(s, d, ok);
  }

  lemma EarlyKeepsFlights(s: Sys, d: nat, ok: bool)
    requires CanWork(s, d)
    requires var pc := RunOf(s, d).pc; pc.AtFirstCheck? || pc.AtMark? || pc.AtCheck? || pc.AtScope?
    ensures DoWork(s, d, ok).procs[d].flights == s.procs[d].flights
  {
  }

  lemma CompleteKeepsFlights(s: Sys, d: nat, ok: bool)
    requires CanWork(s, d) && (RunOf(s, d).pc.AtComplete? || RunOf(s, d).pc.AtFollowUp?)
    ensures DoWork(s, d, ok).procs[d].flights == s.procs[d].flights
  {
  }

  lemma LateKeepsFlights(s: Sys, d: nat, ok: bool)
    requires CanWork(s, d) && (RunOf(s, d).pc.AtFail? || RunOf(s, d).pc.AtFailStart?)
    ensures DoWork(s, d, ok).procs[d].flights == s.procs[d].flights
  {
  }

  lemma WorkKeepsFlights(s: Sys, d: nat, ok: bool)
    requires CanWork(s, d)
    requires var pc := RunOf(s, d).pc; !pc.AtTokens? && !pc.AtEmit? && !pc.AtApply? && !pc.AtFailApply?
    ensures DoWork(s, d, ok).procs[d].flights == s.procs[d].flights
  {
    match RunOf(s, d).pc
    case AtFirstCheck => EarlyKeepsFlights(s, d, ok);
    case AtMark => EarlyKeepsFlights(s, d, ok);
    case AtCheck => EarlyKeepsFlights(s, d, ok);
    case AtScope => EarlyKeepsFlights(s, d, ok);
    case AtComplete => CompleteKeepsFlights(s, d, ok);
    case AtFollowUp => CompleteKeepsFlights(s, d, ok);
    case _ => LateKeepsFlights(s, d, ok);
  }

  lemma HandlerBatched(s: Sys, step: Step)
    requires Enabled(s, step)
    requires step.Submit? || step.Mark? || step.Refuse? || step.RefuseJob? || step.Take?
    ensures Do(s, step).procs[step.d].flights == s.procs[step.d].flights
  {
  }

  lemma StageBatched(s: Sys, step: Step)
    requires Enabled(s, step) && (step.StartSend? || step.EndSend?)
    ensures SameBatched(s.procs[step.d].flights, Do(s, step).procs[step.d].flights)
  {
  }

  lemma StepBatched(s: Sys, step: Step, d: nat)
    requires Enabled(s, step) && !step.Collect? && !step.Flush? && d in s.procs && LocalOk(s, d)
    requires step.Work? ==> OwnFailures(s, step.d)
    ensures SameBatched(s.procs[d].flights, Do(s, step).procs[d].flights)
  {
    if Actor(step) != Some(d) {
      StepUntouched(s, step, d);
    } else {
      match step
      case Work(_, ok) => WorkBatched(s, d, ok);
      case StartSend(_, _) => StageBatched(s, step);
      case EndSend(_, _, _, _) => StageBatched(s, step);
      case _ => HandlerBatched(s, step);
    }
  }

  lemma StaysInBatch(s: Sys, s': Sys, o: Outcome)
    requires InFlightBatch(s, o) && Stays(s, s', o.dispatch)
    requires o.token in s'.procs[o.dispatch].flights
    requires s'.procs[o.dispatch].flights[o.token] == s.procs[o.dispatch].flights[o.token]
    ensures InFlightBatch(s', o)
  {
  }

  lemma QuietBatchStep(s: Sys, step: Step)
    requires Inv(s) && Enabled(s, step) && !step.Collect? && !step.Flush?
    ensures BatchOk(Do(s, step))
  {
    var s' := Do(s, step);
    StepFacts(s, step);
    KeysStep(s, step);
    forall d | d in s.procs ensures SameBatched(s.procs[d].flights, s'.procs[d].flights) {
      StepBatched(s, step, d);
    }
    BatchKept(s, s');
  }

  lemma BatchKept(s: Sys, s': Sys)
    requires BatchOk(s) && s'.batch == s.batch
    requires forall d :: d in s.procs ==> Known(s, d) && Stays(s, s', d) && SameBatched(s.procs[d].flights, s'.procs[d].flights)
    requires forall d :: d in s'.procs && d !in s.procs ==> s'.procs[d] == NEW_PROC
    ensures BatchOk(s')
  {
    forall o | o in s.batch ensures InFlightBatch(s', o) {
      assert InFlightBatch(s, o);
      assert Batched(s.procs[o.dispatch].flights, o.token);
      StaysInBatch(s, s', o);
    }
    forall d, x | d in s'.procs && Batched(s'.procs[d].flights, x) ensures Listed(s'.batch, d, x) {
      assert d in s.procs && Batched(s.procs[d].flights, x);
    }
  }

  lemma CollectBatchStep(s: Sys, d: nat, x: nat)
    requires BatchOk(s) && Queueing(s, d, x)
    ensures BatchOk(DoCollect(s, d, x))
  {
    var s' := DoCollect(s, d, x);
    var last := s'.batch[|s.batch|];
    assert s'.batch == s.batch + [last];
    forall o | o in s.batch ensures InFlightBatch(s', o) && (o.dispatch != d || o.token != x) {
      assert InFlightBatch(s, o);
      StaysInBatch(s, s', o);
    }
    assert InFlightBatch(s', last);
    assert forall i :: 0 <= i < |s.batch| ==> s.batch[i] in s.batch;
    forall e, y | e in s'.procs && Batched(s'.procs[e].flights, y) ensures Listed(s'.batch, e, y) {
      if e == d && y == x {
        assert last in s'.batch;
      } else {
        assert Batched(s.procs[e].flights, y);
        var o :| o in s.batch && o.dispatch == e && o.token == y;
        assert o in s'.batch;
      }
    }
  }

  lemma FlushBatchStep(s: Sys, ok: bool)
    requires BatchOk(s)
    ensures BatchOk(DoFlush(s, ok))
  {
  }

  lemma BatchStep(s: Sys, step: Step)
    requires Inv(s) && Enabled(s, step)
    ensures BatchOk(Do(s, step))
  {
    match step
    case Collect(d, x) => CollectBatchStep(s, d, x);
    case Flush(ok) => FlushBatchStep(s, ok);
    case _ => QuietBatchStep(s, step);
  }

  // ---- links -------------------------------------------------------------------------------

  /** Except for a flush, no step records a delivered outcome. */
  ghost predicate NoNewSent(f: map<nat, Flight>, g: map<nat, Flight>) {
    forall x :: x in g && g[x].stage == Resolved(Recorded, Sent) ==> x in f && f[x] == g[x]
  }

  lemma ApplySent(s: Sys, d: nat, ok: bool, next: Pc)
    requires LocalOk(s, d) && Running(s, d) && !RunOf(s, d).pc.AtEmit?
    ensures NoNewSent(s.procs[d].flights, WorkApply(s, d, ok, next).procs[d].flights)
  {
    var p, run := s.procs[d], RunOf(s, d);
    forall x | x in p.flights && p.flights[x].stage.Resolved? && p.flights[x].stage.place.AtWorker?
      ensures p.flights[x].stage.verdict == ENQUEUE_FAILED
    {
      assert ListsToken(run.failed, x);
      var i :| 0 <= i < |run.failed| && run.failed[i].token == x;
      assert FailedOk(p, d, Row(s, d), JobOf(s, d).activity, run.failed[i]);
    }
  }

  lemma EmitSent(s: Sys, d: nat, ok: bool)
    requires CanWork(s, d) && RunOf(s, d).pc.AtEmit?
    ensures NoNewSent(s.procs[d].flights, WorkEmit(s, d, ok).procs[d].flights)
  {
  }

  lemma WorkSent(s: Sys, d: nat, ok: bool)
    requires LocalOk(s, d) && CanWork(s, d)
    ensures NoNewSent(s.procs[d].flights, DoWork(s, d, ok).procs[d].flights)
  {
    match RunOf(s, d).pc
    case AtTokens(_) => TokensSent(s, d, ok);
    case AtEmit(_, _) => EmitSent(s, d, ok);
    case AtApply => ApplySent(s, d, ok, Finished);
    case AtFailApply => ApplySent(s, d, ok, AtFailStart);
    case _ => WorkKeepsFlights(s, d, ok);
  }

  lemma TokensSent(s: Sys, d: nat, ok: bool)
    requires CanWork(s, d) && RunOf(s, d).pc.AtTokens?
    ensures NoNewSent(s.procs[d].flights, WorkTokens(s, d, ok).procs[d].flights)
  {
  }

  lemma StageSent(s: Sys, step: Step)
    requires Enabled(s, step) && (step.StartSend? || step.EndSend? || step.Collect?)
    ensures NoNewSent(s.procs[step.d].flights, Do(s, step).procs[step.d].flights)
  {
  }

  lemma StepSent(s: Sys, step: Step, d: nat)
    requires Enabled(s, step) && !step.Flush? && d in s.procs && LocalOk(s, d)
    requires step.Work? ==> OwnFailures(s, step.d)
    ensures NoNewSent(s.procs[d].flights, Do(s, step).procs[d].flights)
  {
    if Actor(step) != Some(d) {
      StepUntouched(s, step, d);
    } else {
      match step
      case Work(_, ok) => WorkSent(s, d, ok);
      case StartSend(_, _) => StageSent(s, step);
      case EndSend(_, _, _, _) => StageSent(s, step);
      case Collect(_, _) => StageSent(s, step);
      case NewRequest(_, _, _, _) =>
      case _ => HandlerBatched(s, step);
    }
  }

  lemma QuietLinksStep(s: Sys, step: Step)
    requires Inv(s) && Enabled(s, step) && !step.Flush?
    ensures LinksOk(Do(s, step))
  {
    var s' := Do(s, step);
    StepFacts(s, step);
    KeysStep(s, step);
    forall d: nat, x: nat | RecordedStart(s', d, x) ensures (JobOf(s', d).activity, x) in s'.tables.links {
      if d in s.procs {
        StepSent(s, step, d);
        assert Stays(s, s', d);
        assert RecordedStart(s, d, x);
      }
    }
  }

  lemma FlushLinks(s: Sys, d: nat, x: nat)
    requires BatchOk(s) && LinksOk(s) && d in s.procs && LocalOk(s, d) && JobOf(s, d).activity != 0
    requires RecordedStart(DoFlush(s, true), d, x)
    ensures (JobOf(s, d).activity, x) in DoFlush(s, true).tables.links
  {
    FlushStays(s, d);
    var flight := s.procs[d].flights[x];
    if flight.stage.place.Recorded? {
      assert RecordedStart(s, d, x);
    } else {
      assert Batched(s.procs[d].flights, x);
      var o :| o in s.batch && o.dispatch == d && o.token == x;
      assert InFlightBatch(s, o);
      assert x in RunOf(s, d).scan.fetched;
      assert Associates(o);
      assert (o.activity, o.token) in NewLinks(s.batch);
    }
  }

  lemma LinksStep(s: Sys, step: Step)
    requires Inv(s) && Enabled(s, step)
    ensures LinksOk(Do(s, step))
  {
    if !step.Flush? {
      QuietLinksStep(s, step);
    } else if step.ok {
      var s' := DoFlush(s, true);
      forall d: nat, x: nat | RecordedStart(s', d, x) ensures (JobOf(s', d).activity, x) in s'.tables.links {
        FlushStays(s, d);
        FlushLinks(s, d, x);
      }
    }
  }

  // ---- superseded updates ----------------------------------------------------------------------

  /** A status the pipeline can only reach by accepting the dispatch. */
  lemma StaleHasNewer(s: Sys, d: nat)
    requires s.procs.Keys == s.tables.dispatches.Keys && (forall e :: e in s.procs ==> LocalOk(s, e))
    requires Known(s, d) && Stale(s.tables, d)
    ensures exists n :: NewerAccepted(s, d, n)
  {
    var n :| n in s.tables.dispatches && SupersededBy(s.tables.dispatches[d], s.tables.dispatches[n]);
    assert LocalOk(s, n);
    assert NewerAccepted(s, d, n);
  }

  /** `d` becomes SUPERSEDED between `s` and `s'` only if it is stale in `s`. */
  ghost predicate OnlyStale(s: Sys, s': Sys, d: nat)
    requires Known(s, d)
  {
    (d in s'.tables.dispatches && s'.tables.dispatches[d].status.Superseded? ==> Row(s, d).status.Superseded? || Stale(s.tables, d))
  }

  lemma ChecksSupersede(s: Sys, d: nat, ok: bool)
    requires CanWork(s, d)
    requires var pc := RunOf(s, d).pc; pc.AtFirstCheck? || pc.AtMark? || pc.AtCheck? || pc.AtScope?
    ensures OnlyStale(s, DoWork(s, d, ok), d)
  {
  }

  lemma PagesSupersede(s: Sys, d: nat, ok: bool)
    requires CanWork(s, d) && (RunOf(s, d).pc.AtTokens? || RunOf(s, d).pc.AtEmit?)
    ensures OnlyStale(s, DoWork(s, d, ok), d)
  {
  }

  lemma CompleteSupersedes(s: Sys, d: nat, ok: bool)
    requires CanWork(s, d) && (RunOf(s, d).pc.AtComplete? || RunOf(s, d).pc.AtFollowUp?)
    ensures OnlyStale(s, DoWork(s, d, ok), d)
  {
  }

  lemma EndsSupersede(s: Sys, d: nat, ok: bool)
    requires CanWork(s, d)
    requires var pc := RunOf(s, d).pc; pc.AtApply? || pc.AtFailApply? || pc.AtFail? || pc.AtFailStart?
    ensures OnlyStale(s, DoWork(s, d, ok), d)
  {
  }

  /** A row becomes SUPERSEDED only in a check that finds it stale. */
  lemma WorkSupersedes(s: Sys, d: nat, ok: bool)
    requires CanWork(s, d)
    ensures OnlyStale(s, DoWork(s, d, ok), d)
  {
    match RunOf(s, d).pc
    case AtTokens(_) => PagesSupersede(s, d, ok);
    case AtEmit(_, _) => PagesSupersede(s, d, ok);
    case AtComplete => CompleteSupersedes(s, d, ok);
    case AtFollowUp => CompleteSupersedes(s, d, ok);
    case AtApply => EndsSupersede(s, d, ok);
    case AtFailApply => EndsSupersede(s, d, ok);
    case AtFail => EndsSupersede(s, d, ok);
    case AtFailStart => EndsSupersede(s, d, ok);
    case _ => ChecksSupersede(s, d, ok);
  }

  lemma OthersSupersede(s: Sys, step: Step, d: nat)
    requires Enabled(s, step) && !step.Work? && Known(s, d)
    requires Known(Do(s, step), d) && Row(Do(s, step), d).status.Superseded?
    ensures Row(s, d).status.Superseded?
  {
  }

  lemma KeepsNewer(s: Sys, s': Sys, d: nat, n: nat)
    requires NewerAccepted(s, d, n) && Stays(s, s', d) && Stays(s, s', n)
    requires Moves(Row(s, n).status, Row(s', n).status)
    ensures NewerAccepted(s', d, n)
  {
  }

  lemma NewerStays(s: Sys, step: Step, d: nat, n: nat)
    requires Inv(s) && Enabled(s, step) && NewerAccepted(s, d, n)
    ensures NewerAccepted(Do(s, step), d, n)
  {
    StepFacts(s, step);
    StepForward(s, step, n);
    KeepsNewer(s, Do(s, step), d, n);
  }

  lemma SurvivorStep(s: Sys, step: Step)
    requires Inv(s) && Enabled(s, step)
    ensures SurvivorOk(Do(s, step))
  {
    var s' := Do(s, step);
    StepFacts(s, step);
    KeysStep(s, step);
    forall d | Known(s', d) && Row(s', d).status.Superseded? ensures exists n :: NewerAccepted(s', d, n) {
      if d in s.procs {
        SupersededHasNewer(s, step, d);
        var n :| NewerAccepted(s, d, n);
        NewerStays(s, step, d, n);
      } else {
        NewRow(s, step, d);
      }
    }
  }

  lemma NewRow(s: Sys, step: Step, d: nat)
    requires Enabled(s, step) && d !in s.procs && d in Do(s, step).procs
    ensures step.NewRequest? && Do(s, step).tables.dispatches[d] == NewDispatch(step.j, step.action, step.createdAt)
  {
    if step.Work? {
      WorkKeys(s, step.d, step.ok);
    }
  }

  lemma SupersededHasNewer(s: Sys, step: Step, d: nat)
    requires Inv(s) && Enabled(s, step) && d in s.procs
    requires Known(Do(s, step), d) && Row(Do(s, step), d).status.Superseded?
    ensures exists n :: NewerAccepted(s, d, n)
  {
    if !Row(s, d).status.Superseded? {
      if step.Work? {
        if step.d == d {
          WorkSupersedes(s, d, step.ok);
          StaleHasNewer(s, d);
        } else {
          OwnFailuresHold(s, step.d);
          StepUntouched(s, step, d);
        }
      } else {
        OthersSupersede(s, step, d);
      }
    }
  }

  // ---- jobs ------------------------------------------------------------------------------------

  ghost predicate Settles(a: map<nat, Job>, b: map<nat, Job>) {
    b.Keys <= a.Keys &&
    forall j :: j in b ==> b[j] == a[j] || b[j] == CloseIfActive(a[j]) || b[j] == FailIfActive(a[j])
  }

  lemma SettlesOk(a: map<nat, Job>, b: map<nat, Job>)
    requires JobsOk(a) && Settles(a, b)
    ensures JobsOk(b)
  {
    forall i, j | i in b && j in b && SameActiveScope(b[i], b[j]) ensures i == j {
      assert SameActiveScope(a[i], a[j]);
    }
  }

  lemma WorkSettles(s: Sys, d: nat, ok: bool)
    requires CanWork(s, d)
    ensures Settles(s.tables.jobs, DoWork(s, d, ok).tables.jobs)
  {
  }

  lemma StepSettles(s: Sys, step: Step)
    requires Enabled(s, step) && !step.StartJob?
    ensures Settles(s.tables.jobs, Do(s, step).tables.jobs)
  {
    if step.Work? {
      WorkSettles(s, step.d, step.ok);
    }
  }

  lemma NewJobOk(jobs: map<nat, Job>, id: nat, activity: nat, kind: nat, scope: Scope)
    requires JobsOk(jobs) && id !in jobs && activity != 0 && !KnownActivity(jobs, activity)
    ensures JobsOk(CreateOrGetStartJob(jobs, id, activity, kind, scope))
  {
    var closed, jobs' := CloseScope(jobs, kind, scope), CreateOrGetStartJob(jobs, id, activity, kind, scope);
    SettlesOk(jobs, closed);
    forall i, j | i in jobs' && j in jobs' && SameActiveScope(jobs'[i], jobs'[j]) ensures i == j {
      if i != id && j != id {
        assert SameActiveScope(closed[i], closed[j]);
      }
    }
  }

  /** A start keeps the jobs consistent, touches nothing when its activity is
      known, and otherwise closes exactly the active jobs of its type and scope. */
  lemma StartJobOk(jobs: map<nat, Job>, id: nat, activity: nat, kind: nat, scope: Scope)
    requires JobsOk(jobs) && id !in jobs && activity != 0
    ensures var jobs' := CreateOrGetStartJob(jobs, id, activity, kind, scope);
      && JobsOk(jobs')
      && (KnownActivity(jobs, activity) ==> jobs' == jobs)
      && (!KnownActivity(jobs, activity) ==>
            && id in jobs' && ActiveInScope(jobs'[id], kind, scope)
            && (forall j :: j in jobs ==> j in jobs')
            && (forall j :: j in jobs && ActiveInScope(jobs[j], kind, scope) ==> jobs'[j].status.Closed?)
            && (forall j :: j in jobs && !ActiveInScope(jobs[j], kind, scope) ==> jobs'[j] == jobs[j]))
  {
    if !KnownActivity(jobs, activity) {
      NewJobOk(jobs, id, activity, kind, scope);
    }
  }

  lemma JobsStep(s: Sys, step: Step)
    requires JobsOk(s.tables.jobs) && Enabled(s, step)
    ensures JobsOk(Do(s, step).tables.jobs)
  {
    if step.StartJob? {
      StartJobOk(s.tables.jobs, step.j, step.activity, step.kind, step.scope);
    } else {
      StepSettles(s, step);
      SettlesOk(s.tables.jobs, Do(s, step).tables.jobs);
    }
  }

  // ---- dispatches and their jobs --------------------------------------------------------------------

  lemma CoupledStays(s: Sys, s': Sys, d: nat)
    requires CoupledAt(s, d) && Untouched(s, s', d)
    ensures CoupledAt(s', d)
  {
  }

  ghost predicate LocalCoupled(s: Sys, d: nat) {
    && LocalOk(s, d)
    && CoupledAt(s, d)
    && (JobOf(s, d).status.Active? <==> !JobOf(s, d).closedAtSet)
  }

  lemma CheckCoupled(s: Sys, d: nat, ok: bool)
    requires LocalCoupled(s, d) && CanWork(s, d)
    requires var pc := RunOf(s, d).pc; pc.AtFirstCheck? || pc.AtMark? || pc.AtCheck? || pc.AtScope? || pc.AtTokens? || pc.AtEmit?
    ensures CoupledAt(DoWork(s, d, ok), d)
  {
  }

  /** An end completed while it is enqueued closes its job in that transaction. */
  lemma EnqueueCouples(t: Tables, d: nat, total: nat, p: Proc)
    requires d in t.dispatches && t.dispatches[d].job in t.jobs && total > 0
    requires var job := t.jobs[t.dispatches[d].job]; job.status.Active? <==> !job.closedAtSet
    ensures var t' := CompleteEnqueue(t, d, total);
      Coupled(t'.dispatches[d], p, t'.jobs[t'.dispatches[d].job])
  {
  }

  lemma CompleteCoupled(s: Sys, d: nat, ok: bool)
    requires LocalCoupled(s, d) && CanWork(s, d) && RunOf(s, d).pc.AtComplete?
    ensures CoupledAt(WorkComplete(s, d, ok), d)
  {
    if ok && RunOf(s, d).total > 0 {
      EnqueueCouples(s.tables, d, RunOf(s, d).total, WorkComplete(s, d, ok).procs[d]);
    }
  }

  lemma FollowUpCoupled(s: Sys, d: nat, ok: bool)
    requires LocalCoupled(s, d) && CanWork(s, d) && RunOf(s, d).pc.AtFollowUp?
    ensures CoupledAt(DoWork(s, d, ok), d)
  {
  }

  lemma FailCoupled(s: Sys, d: nat, ok: bool)
    requires LocalCoupled(s, d) && CanWork(s, d) && (RunOf(s, d).pc.AtFail? || RunOf(s, d).pc.AtFailStart?)
    ensures CoupledAt(DoWork(s, d, ok), d)
  {
  }

  /** An end dispatch completed by outcomes closes its job in the same
      transaction. */
  lemma OutcomesCouple(t: Tables, os: seq<Outcome>, d: nat, p: Proc, p': Proc)
    requires d in t.dispatches && t.dispatches[d].job in t.jobs
    requires var job := t.jobs[t.dispatches[d].job];
      Coupled(t.dispatches[d], p, job) && (job.status.Active? <==> !job.closedAtSet)
    requires p'.followLost == p.followLost && (FollowUpDue(p) ==> FollowUpDue(p'))
    requires p.run.Some? ==> p'.run.Some? && (p.run.value.pc.AtFollowUp? ==> p'.run.value.pc.AtFollowUp?)
    requires t.dispatches[d].status.Dispatched? ==> t.dispatches[d].total > 0
    ensures var t' := ApplyOutcomes(t, os);
      Coupled(t'.dispatches[d], p', t'.jobs[t'.dispatches[d].job])
  {
    var t' := ApplyOutcomes(t, os);
    var row, row', j := t.dispatches[d], t'.dispatches[d], t.dispatches[d].job;
    if row.action.End? && row'.status.Completed? && !row.status.Completed? {
      assert d in Touched(os) && Ready(Counted(row, os, d));
      assert Ends(t.dispatches, os, j);
    }
  }

  lemma ApplyCoupled(s: Sys, d: nat, ok: bool)
    requires LocalCoupled(s, d) && CanWork(s, d) && (RunOf(s, d).pc.AtApply? || RunOf(s, d).pc.AtFailApply?)
    ensures CoupledAt(DoWork(s, d, ok), d)
  {
    if ok && RunOf(s, d).failed != [] {
      OutcomesCouple(s.tables, RunOf(s, d).failed, d, s.procs[d], DoWork(s, d, ok).procs[d]);
    }
  }

  lemma WorkCoupled(s: Sys, d: nat, ok: bool)
    requires LocalCoupled(s, d) && CanWork(s, d)
    ensures CoupledAt(DoWork(s, d, ok), d)
  {
    match RunOf(s, d).pc
    case AtComplete => CompleteCoupled(s, d, ok);
    case AtFollowUp => FollowUpCoupled(s, d, ok);
    case AtApply => ApplyCoupled(s, d, ok);
    case AtFailApply => ApplyCoupled(s, d, ok);
    case AtFail => FailCoupled(s, d, ok);
    case AtFailStart => FailCoupled(s, d, ok);
    case _ => CheckCoupled(s, d, ok);
  }

  lemma HandlerCoupled(s: Sys, step: Step)
    requires Enabled(s, step)
    requires step.Submit? || step.Mark? || step.Refuse? || step.RefuseJob? || step.Take?
    requires LocalCoupled(s, step.d)
    ensures CoupledAt(Do(s, step), step.d)
  {
  }

  lemma StageCoupled(s: Sys, step: Step)
    requires Enabled(s, step)
    requires step.StartSend? || step.EndSend? || step.Collect?
    requires LocalCoupled(s, step.d)
    ensures CoupledAt(Do(s, step), step.d)
  {
  }

  lemma FlushCoupled(s: Sys, d: nat)
    requires LocalCoupled(s, d)
    ensures CoupledAt(DoFlush(s, true), d)
  {
    FlushStays(s, d);
    OutcomesCouple(s.tables, s.batch, d, s.procs[d], DoFlush(s, true).procs[d]);
  }

  lemma ActorCoupled(s: Sys, step: Step, d: nat)
    requires Enabled(s, step) && Actor(step) == Some(d) && LocalCoupled(s, d) && Known(Do(s, step), d)
    ensures CoupledAt(Do(s, step), d)
  {
    match step
    case Work(_, ok) => WorkCoupled(s, d, ok);
    case StartSend(_, _) => StageCoupled(s, step);
    case EndSend(_, _, _, _) => StageCoupled(s, step);
    case Collect(_, _) => StageCoupled(s, step);
    case _ => HandlerCoupled(s, step);
  }

  lemma CoupledStep(s: Sys, step: Step)
    requires Inv(s) && Enabled(s, step)
    ensures CoupledOk(Do(s, step))
  {
    var s' := Do(s, step);
    StepFacts(s, step);
    KeysStep(s, step);
    forall d | Known(s', d) ensures CoupledAt(s', d) {
      if d !in s.procs {
        NewRow(s, step, d);
      } else if step.Flush? {
        if step.ok {
          FlushCoupled(s, d);
        }
      } else if Actor(step) == Some(d) {
        ActorCoupled(s, step, d);
      } else {
        CoupledStays(s, s', d);
      }
    }
  }

  // ---- every reachable state --------------------------------------------------------------------

  lemma InvStep(s: Sys, step: Step)
    requires Inv(s) && Enabled(s, step)
    ensures Inv(Do(s, step))
  {
    LocalsStep(s, step);
    KeysStep(s, step);
    BatchStep(s, step);
    LinksStep(s, step);
    SurvivorStep(s, step);
    JobsStep(s, step);
    CoupledStep(s, step);
  }

  lemma {:induction false} RunInv(s: Sys, steps: seq<Step>)
    requires Inv(s) && Exec(s, steps).Some?
    ensures Inv(Exec(s, steps).value)
  {
    if steps == [] {
    } else {
      RunInv(s, steps[..|steps| - 1]);
      InvStep(Exec(s, steps[..|steps| - 1]).value, steps[|steps| - 1]);
    }
  }

  /** The invariant holds in every reachable state. */
  lemma ReachableInv(s: Sys)
    requires Reachable(s)
    ensures Inv(s)
  {
    var pageSize: nat, steps :| pageSize >= 1 && Exec(Init(pageSize), steps) == Some(s);
    InitInv(pageSize);
    RunInv(Init(pageSize), steps);
  }

  ghost predicate Steps(s: Sys, step: Step, s': Sys) {
    Enabled(s, step) && Do(s, step) == s'
  }

  lemma NextReachable(s: Sys, step: Step, s': Sys)
    requires Reachable(s) && Steps(s, step, s')
    ensures Reachable(s')
  {
    var pageSize: nat, steps :| pageSize >= 1 && Exec(Init(pageSize), steps) == Some(s);
    var longer := steps + [step];
    assert longer[..|longer| - 1] == steps;
    assert Exec(Init(pageSize), longer) == Some(s');
  }
}
