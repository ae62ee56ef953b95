/** What a step leaves alone, and the local invariant over every step. */
module LAFrame {
  import opened Options
  import opened LATables
  import opened LAProtocol
  import opened LALocal
  import opened LASteps

  /** The dispatch a step acts on; None for steps that act on no single one. */
  function Actor(step: Step): Option<nat> {
    match step
    case NewRequest(d, _, _, _) => Some(d)
    case Submit(d, _) => Some(d)
    case Mark(d, _) => Some(d)
    case Refuse(d, _) => Some(d)
    case RefuseJob(d, _) => Some(d)
    case Take(d) => Some(d)
    case Work(d, _) => Some(d)
    case StartSend(d, _) => Some(d)
    case EndSend(d, _, _, _) => Some(d)
    case Collect(d, _) => Some(d)
    case _ => None
  }

  /** Job rows keep their identity and never become active again. */
  ghost predicate JobStays(a: Job, b: Job) {
    && b.activity == a.activity && b.kind == a.kind && b.scope == a.scope
    && (!a.status.Active? ==> b == a)
    && (b.status.Active? ==> b == a)
  }

  /** Dispatch `d` is still there, with the same identity. */
  ghost predicate Stays(s: Sys, s': Sys, d: nat)
    requires Known(s, d)
  {
    && Known(s', d)
    && Row(s', d).job == Row(s, d).job
    && Row(s', d).action == Row(s, d).action
    && Row(s', d).createdAt == Row(s, d).createdAt
    && (s.procs[d].accepted ==> s'.procs[d].accepted)
    && JobStays(JobOf(s, d), JobOf(s', d))
  }

  ghost predicate Untouched(s: Sys, s': Sys, d: nat)
    requires Known(s, d)
  {
    Stays(s, s', d) && Row(s', d) == Row(s, d) && s'.procs[d] == s.procs[d]
  }

  /** A worker's own failures concern no other dispatch. */
  ghost predicate OwnFailures(s: Sys, d: nat)
    requires Running(s, d)
  {
    forall o :: o in RunOf(s, d).failed ==> o.dispatch == d
  }

  lemma OwnFailuresHold(s: Sys, d: nat)
    requires LocalOk(s, d) && Running(s, d)
    ensures OwnFailures(s, d)
  {
    forall o | o in RunOf(s, d).failed ensures o.dispatch == d {
      assert FailedOk(s.procs[d], d, Row(s, d), JobOf(s, d).activity, o);
    }
  }

  ghost predicate Framed(s: Sys, s': Sys, d: nat, e: nat)
    requires Known(s, e)
  {
    Stays(s, s', e) && (e != d ==> Untouched(s, s', e))
  }

  lemma ApplyFrame(s: Sys, d: nat, ok: bool, next: Pc, e: nat)
    requires Running(s, d) && OwnFailures(s, d) && Known(s, e)
    ensures Framed(s, WorkApply(s, d, ok, next), d, e)
  {
    if ok && RunOf(s, d).failed != [] {
      var t' := ApplyOutcomes(s.tables, RunOf(s, d).failed);
      assert e != d ==> e !in Touched(RunOf(s, d).failed);
      assert t'.dispatches[e] == ApplyToDispatch(s.tables.dispatches[e], RunOf(s, d).failed, e);
    }
  }

  lemma CompleteFrame(s: Sys, d: nat, ok: bool, e: nat)
    requires Running(s, d) && Known(s, e)
    ensures Framed(s, WorkComplete(s, d, ok), d, e)
  {
  }

  lemma JobFrame(s: Sys, d: nat, ok: bool, e: nat)
    requires Running(s, d) && Known(s, e)
    ensures Framed(s, WorkFollowUp(s, d, ok), d, e)
    ensures Framed(s, WorkFailStart(s, d, ok), d, e)
  {
  }

  lemma CheckFrame(s: Sys, d: nat, ok: bool, e: nat)
    requires Running(s, d) && Known(s, e)
    ensures Framed(s, WorkFirstCheck(s, d, ok), d, e)
    ensures Framed(s, WorkMark(s, d, ok), d, e)
    ensures Framed(s, WorkCheck(s, d, ok), d, e)
    ensures Framed(s, WorkFail(s, d, ok), d, e)
  {
  }

  lemma PageFrame(s: Sys, d: nat, ok: bool, e: nat)
    requires CanWork(s, d) && Known(s, e)
    ensures Framed(s, WorkScope(s, d, ok), d, e)
    ensures RunOf(s, d).pc.AtTokens? ==> Framed(s, WorkTokens(s, d, ok), d, e)
    ensures RunOf(s, d).pc.AtEmit? ==> Framed(s, WorkEmit(s, d, ok), d, e)
  {
  }

  lemma WorkFrame(s: Sys, d: nat, ok: bool, e: nat)
    requires CanWork(s, d) && OwnFailures(s, d) && Known(s, e)
    ensures Framed(s, DoWork(s, d, ok), d, e)
  {
    match RunOf(s, d).pc
    case AtScope => PageFrame(s, d, ok, e);
    case AtTokens(_) => PageFrame(s, d, ok, e);
    case AtEmit(_, _) => PageFrame(s, d, ok, e);
    case AtComplete => CompleteFrame(s, d, ok, e);
    case AtFollowUp => JobFrame(s, d, ok, e);
    case AtFailStart => JobFrame(s, d, ok, e);
    case AtApply => ApplyFrame(s, d, ok, Finished, e);
    case AtFailApply => ApplyFrame(s, d, ok, AtFailStart, e);
    case _ => CheckFrame(s, d, ok, e);
  }

  /** No step changes what a dispatch is. */
  lemma StepStays(s: Sys, step: Step, e: nat)
    requires Enabled(s, step) && Known(s, e)
    requires step.Work? ==> OwnFailures(s, step.d)
    ensures Stays(s, Do(s, step), e)
  {
    if step.Work? {
      WorkFrame(s, step.d, step.ok, e);
    } else if step.Flush? {
      if step.ok {
        FlushStays(s, e);
      }
    } else if Actor(step).Some? {
      RequestStays(s, step, e);
    } else if step.RollbackJob? {
      assert HasDispatch(s.tables, Row(s, e).job);
    }
  }

  lemma RequestStays(s: Sys, step: Step, e: nat)
    requires Enabled(s, step) && Known(s, e) && Actor(step).Some? && !step.Work?
    ensures Stays(s, Do(s, step), e)
  {
  }

  lemma StepUntouched(s: Sys, step: Step, e: nat)
    requires Enabled(s, step) && Known(s, e) && Actor(step) != Some(e) && !step.Flush?
    requires step.Work? ==> OwnFailures(s, step.d)
    ensures Untouched(s, Do(s, step), e)
  {
    if step.Work? {
      WorkFrame(s, step.d, step.ok, e);
    } else if step.RollbackJob? {
      assert HasDispatch(s.tables, Row(s, e).job);
    }
  }

  // ---- local invariant: the steps that are not the worker's -------------------------

  lemma RestageOk(row: Dispatch, p: Proc, d: nat, activity: nat, x: nat, stage: Stage)
    requires DispatchOk(row, p, d, activity) && p.run.Some? && x in p.flights
    requires p.flights[x].stage.Tasked? || p.flights[x].stage.Sending? ||
             (p.flights[x].stage.Resolved? && p.flights[x].stage.place.InQueue?)
    requires stage.Sending? || (stage.Resolved? && stage.place in {InQueue, InBatch, Dropped})
    ensures DispatchOk(row, p.(flights := p.flights[x := p.flights[x].(stage := stage)]), d, activity)
  {
    var p' := p.(flights := p.flights[x := p.flights[x].(stage := stage)]);
    var run := p.run.value;
    assert CountsOk(row, p'.flights) by {
      SameRecorded(p.flights, p'.flights);
    }
    assert StockOk(row, p', run, d, activity) by {
      forall o | o in run.failed ensures FailedOk(p', d, row, activity, o) {
        assert FailedOk(p, d, row, activity, o);
      }
    }
  }

  lemma StageStepOk(s: Sys, step: Step)
    requires Enabled(s, step) && (step.StartSend? || step.EndSend? || step.Collect?) && LocalOk(s, step.d)
    ensures LocalOk(Do(s, step), step.d)
  {
    var d, x := step.d, step.x;
    assert s.procs[d].flights != map[];
    var s' := Do(s, step);
    RestageOk(Row(s, d), s.procs[d], d, JobOf(s, d).activity, x, s'.procs[d].flights[x].stage);
  }

  lemma MarkStepOk(s: Sys, d: nat, ok: bool)
    requires LocalOk(s, d) && s.procs[d].handler.Marking?
    ensures LocalOk(DoMark(s, d, ok), d)
  {
    var s' := DoMark(s, d, ok);
    if s.procs[d].run.Some? {
      KeepStock(Row(s, d), Row(s', d), s.procs[d], s'.procs[d], RunOf(s, d), RunOf(s', d), d, JobOf(s, d).activity);
    }
  }

  lemma HandlerStepOk(s: Sys, step: Step)
    requires Enabled(s, step) && (step.Submit? || step.Mark? || step.Refuse? || step.RefuseJob?) && LocalOk(s, step.d)
    ensures LocalOk(Do(s, step), step.d)
  {
    if step.Mark? {
      MarkStepOk(s, step.d, step.ok);
    }
  }

  lemma NewStepOk(s: Sys, step: Step)
    requires Enabled(s, step) && (step.NewRequest? || (step.Take? && LocalOk(s, step.d)))
    ensures LocalOk(Do(s, step), step.d)
  {
    assert RecordedSent(map[]) == {} && RecordedRejected(map[]) == {};
  }

  /** A flush seen from one dispatch. */
  lemma FlushValue(row: Dispatch, p: Proc, p': Proc, d: nat, activity: nat, batch: seq<Outcome>)
    requires DispatchOk(row, p, d, activity) && Covers(batch, d, p.flights, InBatch)
    requires p' == p.(flights := Move(p.flights, InBatch, Recorded))
    ensures DispatchOk(ApplyToDispatch(row, batch, d), p', d, activity)
  {
    var row' := ApplyToDispatch(row, batch, d);
    if p.run.None? {
      forall o | o in batch ensures o.dispatch != d {
        assert o.dispatch == d ==> o.token in p.flights;
      }
      assert p'.flights == map[];
    } else {
      var run := p.run.value;
      assert BalanceOk(row') && CountsOk(row', p'.flights) by {
        if row.status in {Dispatched, Completed} {
          FetchedAll(p, run, row, d, activity);
        }
        ApplyBalance(row, p.flights, batch, d, InBatch);
      }
      assert StockOk(row', p', run, d, activity) by {
        MoveStock(row, row', p, p', run, d, activity);
      }
      FlushRow(row, p, p', d, batch);
    }
  }

  lemma FlushRow(row: Dispatch, p: Proc, p': Proc, d: nat, batch: seq<Outcome>)
    requires RowOk(row, p) && p' == p.(flights := p'.flights)
    requires p.run.Some? && RunOk(row, p, p.run.value)
    ensures var row' := ApplyToDispatch(row, batch, d); RowOk(row', p') && RunOk(row', p', p.run.value)
  {
  }

  lemma MoveStock(row: Dispatch, row': Dispatch, p: Proc, p': Proc, run: Run, d: nat, activity: nat)
    requires StockOk(row, p, run, d, activity) && row'.action == row.action
    requires p'.flights == Move(p.flights, InBatch, Recorded)
    ensures StockOk(row', p', run, d, activity)
  {
    forall o | o in run.failed ensures FailedOk(p', d, row', activity, o) {
      assert FailedOk(p, d, row, activity, o);
    }
  }

  lemma FlushStays(s: Sys, e: nat)
    requires Known(s, e)
    ensures Stays(s, DoFlush(s, true), e)
    ensures Row(DoFlush(s, true), e) == ApplyToDispatch(Row(s, e), s.batch, e)
    ensures DoFlush(s, true).procs[e] == s.procs[e].(flights := Move(s.procs[e].flights, InBatch, Recorded))
  {
  }

  lemma FlushLocal(s: Sys, e: nat)
    requires LocalOk(s, e) && Covers(s.batch, e, s.procs[e].flights, InBatch)
    ensures LocalOk(DoFlush(s, true), e)
  {
    FlushStays(s, e);
    var s' := DoFlush(s, true);
    FlushValue(Row(s, e), s.procs[e], s'.procs[e], e, JobOf(s, e).activity, s.batch);
  }

  /** Every step keeps the invariant of every dispatch. */
  lemma ActorLocal(s: Sys, step: Step, e: nat)
    requires Enabled(s, step) && Actor(step) == Some(e)
    requires step.Work? ==> LocalOk(s, e)
    requires e in s.procs ==> LocalOk(s, e)
    ensures LocalOk(Do(s, step), e)
  {
    if step.Work? {
      WorkOk(s, e, step.ok);
    } else if step.StartSend? || step.EndSend? || step.Collect? {
      StageStepOk(s, step);
    } else if step.NewRequest? || step.Take? {
      NewStepOk(s, step);
    } else {
      HandlerStepOk(s, step);
    }
  }

  lemma LocalStep(s: Sys, step: Step, e: nat)
    requires Enabled(s, step)
    requires step.Work? ==> LocalOk(s, step.d)
    requires e in s.procs ==> LocalOk(s, e)
    requires step.Flush? && e in s.procs ==> Covers(s.batch, e, s.procs[e].flights, InBatch)
    requires e in Do(s, step).procs
    ensures LocalOk(Do(s, step), e)
  {
    if step.Work? {
      OwnFailuresHold(s, step.d);
    }
    if step.Flush? {
      if step.ok {
        FlushLocal(s, e);
      }
    } else if Actor(step) == Some(e) {
      ActorLocal(s, step, e);
    } else {
      ProcsOnlyFromRequests(s, step, e);
      StepUntouched(s, step, e);
    }
  }

  lemma ProcsOnlyFromRequests(s: Sys, step: Step, e: nat)
    requires Enabled(s, step) && e in Do(s, step).procs && Actor(step) != Some(e)
    ensures e in s.procs
  {
  }
}
