/** What the steps do to dispatches, jobs, tokens and links, with the columns of
    the rows written out. */
module LAEffects {
  import opened Options
  import opened LATables
  import opened LAProtocol
  import opened LALocal
  import opened LAFrame
  import opened LASafety

  // ---- superseding -----------------------------------------------------------------------

  /** `n` is a newer update of the same job that the pipeline has, or had. */
  ghost predicate Outdates(n: Dispatch, row: Dispatch) {
    && n.action == Update && n.job == row.job && n.createdAt > row.createdAt
    && (n.status == Queued || n.status == InProgress || n.status == Dispatched || n.status == Completed)
  }

  ghost predicate Outdated(s: Sys, d: nat)
    requires Known(s, d)
  {
    exists n :: n in s.tables.dispatches && Outdates(s.tables.dispatches[n], Row(s, d))
  }

  /** The stale checks, in every state a run can be in: an update that has a newer
      one is superseded with what it has emitted so far, and any other goes on
      unchanged.  Before its first check a row may still be ENQUEUE_PENDING, and
      then it goes on in any case. */
  lemma CheckIsExact(s: Sys, d: nat)
    requires Reachable(s) && Running(s, d) && (RunOf(s, d).pc == AtFirstCheck || RunOf(s, d).pc == AtCheck)
    ensures Enabled(s, Work(d, true)) && Running(Do(s, Work(d, true)), d)
    ensures RunOf(s, d).pc == AtCheck ==> Row(s, d).status == InProgress
    ensures var s' := Do(s, Work(d, true));
      var run := RunOf(s, d);
      if Outdated(s, d) && Row(s, d).status != EnqueuePending
      then && Row(s', d) == Row(s, d).(status := Superseded, completedAtSet := true, total := run.total)
           && RunOf(s', d) == run.(pc := if run.pc == AtCheck then AtApply else Finished)
      else && Row(s', d) == Row(s, d)
           && RunOf(s', d) == run.(pc := if run.pc == AtCheck then AtScope else AtMark)
  {
    ReachableInv(s);
    assert LocalOk(s, d);
    StaleIsOutdated(s, d);
  }

  lemma StaleIsOutdated(s: Sys, d: nat)
    requires Known(s, d)
    ensures Stale(s.tables, d) <==>
      Row(s, d).action == Update && (Row(s, d).status == Queued || Row(s, d).status == InProgress) && Outdated(s, d)
  {
  }

  // ---- what happens to a job -----------------------------------------------------------------

  /** A start that was refused, failed, or had nobody to go to fails its job. */
  ghost predicate FailsJob(s: Sys, step: Step, j: nat) {
    && (step.RefuseJob? || step.Work?) && step.ok
    && Known(s, step.d) && Row(s, step.d).job == j && Row(s, step.d).action == Start
    && (step.Work? ==> Running(s, step.d) && (RunOf(s, step.d).pc == AtFailStart || RunOf(s, step.d).pc == AtFollowUp))
  }

  /** An end that goes to somebody has just completed. */
  ghost predicate Ended(s: Sys, s': Sys, j: nat) {
    exists e :: Completes(s, s', e, j)
  }

  /** A start of another activity of the type and scope, an end without tokens,
      or a completed end closes a job. */
  ghost predicate ClosesJob(s: Sys, step: Step, j: nat)
    requires Enabled(s, step) && j in s.tables.jobs
  {
    || (step.StartJob? && step.kind == s.tables.jobs[j].kind && step.scope == s.tables.jobs[j].scope
        && forall i :: i in s.tables.jobs ==> s.tables.jobs[i].activity != step.activity)
    || (step.Work? && step.ok && Row(s, step.d).job == j && Row(s, step.d).action == End && RunOf(s, step.d).pc == AtFollowUp)
    || Ended(s, Do(s, step), j)
  }

  ghost predicate JobsSame(s: Sys, s': Sys, j: nat) {
    j in s.tables.jobs && j in s'.tables.jobs && s'.tables.jobs[j] == s.tables.jobs[j]
  }

  /** The end dispatch `d` of job `j` completes, with tokens. */
  ghost predicate Completes(s: Sys, s': Sys, d: nat, j: nat) {
    && Known(s, d) && Known(s', d) && Row(s, d).job == j && Row(s, d).action == End
    && Row(s, d).status != Completed && Row(s', d).status == Completed && Row(s', d).total > 0
  }

  ghost predicate OnlyRow(s: Sys, s': Sys, d: nat) {
    forall e :: Known(s, e) && e != d ==> Known(s', e) && Row(s', e) == Row(s, e)
  }

  lemma OneRowEnds(s: Sys, s': Sys, d: nat, j: nat)
    requires OnlyRow(s, s', d)
    ensures Ended(s, s', j) <==> Completes(s, s', d, j)
  {
  }

  lemma ActorsRow(s: Sys, step: Step, d: nat)
    requires Inv(s) && Enabled(s, step) && Actor(step) == Some(d)
    ensures OnlyRow(s, Do(s, step), d)
  {
    StepFacts(s, step);
    forall e | Known(s, e) && e != d ensures Known(Do(s, step), e) && Row(Do(s, step), e) == Row(s, e) {
      assert Untouched(s, Do(s, step), e);
    }
  }

  lemma ChecksKeepJobs(s: Sys, d: nat, ok: bool, j: nat)
    requires LocalOk(s, d) && CanWork(s, d) && j in s.tables.jobs
    requires var pc := RunOf(s, d).pc; pc.AtFirstCheck? || pc.AtMark? || pc.AtCheck? || pc.AtFail?
    ensures var s' := DoWork(s, d, ok); JobsSame(s, s', j) && !Completes(s, s', d, j)
  {
  }

  lemma PagesKeepJobs(s: Sys, d: nat, ok: bool, j: nat)
    requires LocalOk(s, d) && CanWork(s, d) && j in s.tables.jobs
    requires var pc := RunOf(s, d).pc; pc.AtScope? || pc.AtTokens? || pc.AtEmit?
    ensures var s' := DoWork(s, d, ok); JobsSame(s, s', j) && !Completes(s, s', d, j)
  {
  }

  /** The job writes that follow a failed start or an empty dispatch. */
  lemma JobWork(s: Sys, d: nat, ok: bool, j: nat)
    requires LocalOk(s, d) && CanWork(s, d) && j in s.tables.jobs && (RunOf(s, d).pc.AtFollowUp? || RunOf(s, d).pc.AtFailStart?)
    requires s.tables.jobs[j].status == Active && !s.tables.jobs[j].closedAtSet
    ensures var s', job, mine := DoWork(s, d, ok), s.tables.jobs[j], ok && Row(s, d).job == j;
      && j in s'.tables.jobs && !Completes(s, s', d, j)
      && s'.tables.jobs[j] ==
         if mine && Row(s, d).action == Start then job.(status := JobFailed, closedAtSet := true)
         else if mine && RunOf(s, d).pc == AtFollowUp then job.(status := Closed, closedAtSet := true)
         else job
  {
  }

  function EndedJob(job: Job, ended: bool): Job {
    if ended && job.status == Active && !job.closedAtSet then job.(status := Closed, closedAtSet := true) else job
  }

  /** Enqueue completion in one transaction: total, status, and the job of an end
      whose outcomes are all in already. */
  lemma EnqueueColumns(t: Tables, d: nat, total: nat)
    requires d in t.dispatches
    ensures var t', row := CompleteEnqueue(t, d, total), t.dispatches[d];
      var full := row.success + row.failure >= total;
      && t' == t.(dispatches := t'.dispatches, jobs := t'.jobs)
      && t'.dispatches == t.dispatches[d := row.(total := total, status := if full then Completed else Dispatched,
                                                 completedAtSet := full || row.completedAtSet)]
      && t'.jobs.Keys == t.jobs.Keys
      && forall j :: j in t.jobs ==> t'.jobs[j] == EndedJob(t.jobs[j], full && row.action == End && j == row.job)
  {
  }

  lemma CompleteWork(s: Sys, d: nat, ok: bool, j: nat)
    requires LocalOk(s, d) && CanWork(s, d) && j in s.tables.jobs && RunOf(s, d).pc.AtComplete?
    ensures var s' := DoWork(s, d, ok);
      && j in s'.tables.jobs
      && s'.tables.jobs[j] == EndedJob(s.tables.jobs[j], Completes(s, s', d, j))
  {
    if ok && RunOf(s, d).total > 0 {
      EnqueueColumns(s.tables, d, RunOf(s, d).total);
    }
  }

  lemma ApplyEnds(t: Tables, os: seq<Outcome>, d: nat)
    requires d in t.dispatches
    ensures var t', row := ApplyOutcomes(t, os), t.dispatches[d];
      && d in t'.dispatches && t'.dispatches[d].action == row.action && t'.dispatches[d].job == row.job
      && t'.dispatches[d].total == row.total
      && (row.status != Completed && t'.dispatches[d].status == Completed <==>
            d in Touched(os) && row.status == Dispatched && Ready(Counted(row, os, d)))
  {
  }

  /** A transaction of outcomes closes exactly the jobs whose end it completes. */
  lemma OutcomesClose(s: Sys, s': Sys, os: seq<Outcome>, j: nat)
    requires s'.tables == ApplyOutcomes(s.tables, os) && s'.procs.Keys == s.procs.Keys
    requires s.procs.Keys == s.tables.dispatches.Keys && j in s.tables.jobs
    requires forall e :: Known(s, e) && Row(s, e).status == Dispatched ==> Row(s, e).total > 0
    ensures j in s'.tables.jobs && s'.tables.jobs[j] == EndedJob(s.tables.jobs[j], Ended(s, s', j))
  {
    forall e | Known(s, e) && Row(s, e).job == j
      ensures Completes(s, s', e, j) <==>
        e in Touched(os) && Row(s, e).action.End? && Ready(Counted(Row(s, e), os, e))
    {
      ApplyEnds(s.tables, os, e);
    }
    if Ends(s.tables.dispatches, os, j) {
      var e :| e in Touched(os) && e in s.tables.dispatches && s.tables.dispatches[e].job == j && s.tables.dispatches[e].action.End?
                && Ready(Counted(s.tables.dispatches[e], os, e));
      assert Completes(s, s', e, j);
    }
  }

  lemma DispatchedHasTokens(s: Sys)
    requires Inv(s)
    ensures forall e :: Known(s, e) && Row(s, e).status == Dispatched ==> Row(s, e).total > 0
  {
    forall e | Known(s, e) && Row(s, e).status == Dispatched ensures Row(s, e).total > 0 {
      assert LocalOk(s, e);
    }
  }

  lemma ApplyWork(s: Sys, d: nat, ok: bool, next: Pc, j: nat)
    requires Inv(s) && CanWork(s, d) && j in s.tables.jobs
    ensures var s' := WorkApply(s, d, ok, next);
      && j in s'.tables.jobs
      && s'.tables.jobs[j] == EndedJob(s.tables.jobs[j], Ended(s, s', j))
  {
    var s' := WorkApply(s, d, ok, next);
    DispatchedHasTokens(s);
    if ok && RunOf(s, d).failed != [] {
      OutcomesClose(s, s', RunOf(s, d).failed, j);
    } else {
      assert s'.tables == s.tables;
    }
  }

  /** Job `j` after a statement of the worker of `d` that led to `s'`. */
  ghost predicate WorkAfter(s: Sys, s': Sys, d: nat, ok: bool, j: nat)
    requires Running(s, d) && j in s.tables.jobs
  {
    var job, pc, mine := s.tables.jobs[j], RunOf(s, d).pc, ok && Row(s, d).job == j;
    && j in s'.tables.jobs
    && s'.tables.jobs[j] ==
       if mine && Row(s, d).action == Start && (pc == AtFailStart || pc == AtFollowUp)
       then job.(status := JobFailed, closedAtSet := true)
       else EndedJob(job, (mine && Row(s, d).action == End && pc == AtFollowUp) || Ended(s, s', j))
  }

  lemma WorkJobs(s: Sys, d: nat, ok: bool, j: nat)
    requires Inv(s) && CanWork(s, d) && j in s.tables.jobs && s.tables.jobs[j].status == Active && !s.tables.jobs[j].closedAtSet
    ensures WorkAfter(s, DoWork(s, d, ok), d, ok, j)
  {
    assert LocalOk(s, d);
    ActorsRow(s, Work(d, ok), d);
    OneRowEnds(s, DoWork(s, d, ok), d, j);
    var pc := RunOf(s, d).pc;
    if pc.AtComplete? {
      CompleteWork(s, d, ok, j);
    } else if pc.AtFollowUp? || pc.AtFailStart? {
      JobWork(s, d, ok, j);
    } else if pc.AtApply? {
      ApplyWork(s, d, ok, Finished, j);
    } else if pc.AtFailApply? {
      ApplyWork(s, d, ok, AtFailStart, j);
    } else if pc.AtScope? || pc.AtTokens? || pc.AtEmit? {
      PagesKeepJobs(s, d, ok, j);
    } else {
      ChecksKeepJobs(s, d, ok, j);
    }
  }

  lemma RequestRow(s: Sys, step: Step, d: nat, j: nat)
    requires Enabled(s, step) && j in s.tables.jobs && Actor(step) == Some(d) && !step.Work? && !step.RefuseJob?
    ensures JobsSame(s, Do(s, step), j) && !Completes(s, Do(s, step), d, j)
  {
  }

  lemma RequestJobs(s: Sys, step: Step, j: nat)
    requires Inv(s) && Enabled(s, step) && j in s.tables.jobs && Actor(step).Some? && !step.Work? && !step.RefuseJob?
    ensures JobsSame(s, Do(s, step), j) && !Ended(s, Do(s, step), j)
  {
    var d, s' := Actor(step).value, Do(s, step);
    ActorsRow(s, step, d);
    OneRowEnds(s, s', d, j);
    RequestRow(s, step, d, j);
  }

  lemma RefusedJob(s: Sys, d: nat, ok: bool, j: nat)
    requires Inv(s) && Enabled(s, RefuseJob(d, ok)) && j in s.tables.jobs
    requires s.tables.jobs[j].status == Active && !s.tables.jobs[j].closedAtSet
    ensures Row(s, d).action == Start
    ensures var s', job := Do(s, RefuseJob(d, ok)), s.tables.jobs[j];
      && j in s'.tables.jobs && !Ended(s, s', j)
      && s'.tables.jobs[j] == if ok && Row(s, d).job == j then job.(status := JobFailed, closedAtSet := true) else job
  {
    assert LocalOk(s, d);
    ActorsRow(s, RefuseJob(d, ok), d);
    OneRowEnds(s, Do(s, RefuseJob(d, ok)), d, j);
  }

  lemma TableJobs(s: Sys, step: Step, j: nat)
    requires Enabled(s, step) && j in s.tables.jobs && (step.StartJob? || step.RollbackJob? || step.World?)
    requires s.tables.jobs[j].status == Active && !s.tables.jobs[j].closedAtSet
    ensures var s', job := Do(s, step), s.tables.jobs[j];
      && !Ended(s, s', j)
      && (j in s'.tables.jobs ==> s'.tables.jobs[j] == EndedJob(job, step.StartJob? && ClosesJob(s, step, j)))
  {
    if step.StartJob? {
      StartJobs(s.tables.jobs, step.j, step.activity, step.kind, step.scope, j);
    }
  }

  lemma StartJobs(jobs: map<nat, Job>, id: nat, activity: nat, kind: nat, scope: Scope, j: nat)
    requires j in jobs && id !in jobs && jobs[j].status == Active && !jobs[j].closedAtSet
    ensures var jobs' := CreateOrGetStartJob(jobs, id, activity, kind, scope);
      var fresh' := forall i :: i in jobs ==> jobs[i].activity != activity;
      && j in jobs' && jobs'[j] == EndedJob(jobs[j], fresh' && jobs[j].kind == kind && jobs[j].scope == scope)
      && (fresh' ==> id in jobs' && jobs'[id] == Job(activity, kind, scope, Active, false))
  {
  }

  lemma FlushJobs(s: Sys, ok: bool, j: nat)
    requires Inv(s) && j in s.tables.jobs
    ensures var s' := DoFlush(s, ok);
      j in s'.tables.jobs && s'.tables.jobs[j] == EndedJob(s.tables.jobs[j], Ended(s, s', j))
  {
    DispatchedHasTokens(s);
    if ok {
      OutcomesClose(s, DoFlush(s, ok), s.batch, j);
    }
  }

  /** Exactly what each step does to an active job: it is FAILED by a start that
      failed, was refused or had nobody to go to, CLOSED by a start of another
      activity of its type and scope, by an end that completes or has nobody to
      go to, and left as it is by everything else, completed starts and updates
      among them.  Only the rollback of its own request can remove it. */
  lemma JobChangesExactly(s: Sys, step: Step, j: nat)
    requires Reachable(s) && Enabled(s, step) && j in s.tables.jobs && s.tables.jobs[j].status == Active
    requires j in Do(s, step).tables.jobs
    ensures var job, job' := s.tables.jobs[j], Do(s, step).tables.jobs[j];
      && (FailsJob(s, step, j) ==> job' == job.(status := JobFailed, closedAtSet := true))
      && (!FailsJob(s, step, j) && ClosesJob(s, step, j) ==> job' == job.(status := Closed, closedAtSet := true))
      && (!FailsJob(s, step, j) && !ClosesJob(s, step, j) ==> job' == job)
  {
    ReachableInv(s);
    if step.Work? {
      WorkJobs(s, step.d, step.ok, j);
    } else if step.RefuseJob? {
      RefusedJob(s, step.d, step.ok, j);
    } else if Actor(step).Some? {
      RequestJobs(s, step, j);
    } else if step.Flush? {
      FlushJobs(s, step.ok, j);
    } else {
      TableJobs(s, step, j);
    }
  }

  // ---- what outcomes do to tokens and links ------------------------------------------------------

  /** The provider says that the token is no good: one of four words is in its
      reason. */
  ghost predicate Names(reason: string, word: string) {
    exists before, after :: reason == before + word + after
  }

  lemma ContainsNames(reason: string, word: string)
    ensures Contains(reason, word) <==> Names(reason, word)
  {
    if Contains(reason, word) {
      var i :| 0 <= i <= |reason| && word <= reason[i..];
      assert reason == reason[..i] + word + reason[i + |word|..];
    }
    if Names(reason, word) {
      var before, after :| reason == before + word + after;
      assert reason[|before|..] == word + after;
    }
  }

  ghost predicate SaysInvalid(reason: string) {
    || Names(reason, "BadDeviceToken")
    || Names(reason, "ExpiredToken")
    || Names(reason, "Unregistered")
    || Names(reason, "registration-token-not-registered")
  }

  lemma InvalidatesWhen(o: Outcome)
    ensures Invalidates(o) <==> o.verdict.Rejected? && SaysInvalid(o.verdict.reason)
  {
    if o.verdict.Rejected? {
      ContainsNames(o.verdict.reason, "BadDeviceToken");
      ContainsNames(o.verdict.reason, "ExpiredToken");
      ContainsNames(o.verdict.reason, "Unregistered");
      ContainsNames(o.verdict.reason, "registration-token-not-registered");
    }
  }

  /** Exactly which tokens a transaction of outcomes invalidates: those rejected
      with one of the four words in the reason.  Nothing else of a token changes. */
  lemma InvalidatesExactly(t: Tables, os: seq<Outcome>, x: nat)
    requires x in t.tokens
    ensures var t' := ApplyOutcomes(t, os);
      && t'.tokens.Keys == t.tokens.Keys && t'.subs == t.subs
      && t'.tokens[x] == t.tokens[x].(invalidated := t'.tokens[x].invalidated)
      && (t'.tokens[x].invalidated <==>
            || t.tokens[x].invalidated
            || exists o :: o in os && o.token == x && o.verdict.Rejected? && SaysInvalid(o.verdict.reason))
  {
    forall o | o in os ensures Invalidates(o) <==> o.verdict.Rejected? && SaysInvalid(o.verdict.reason) {
      InvalidatesWhen(o);
    }
  }

  /** Exactly which links it adds: those of delivered FCM starts. */
  lemma LinksExactly(t: Tables, os: seq<Outcome>, activity: nat, x: nat)
    ensures (activity, x) in ApplyOutcomes(t, os).links <==>
      || (activity, x) in t.links
      || exists o :: o in os && o.verdict == Sent && o.action == Start && o.platform == Fcm
                     && o.activity == activity && o.token == x && activity != 0 && x != 0
  {
  }
}
