/** The Live Activity half of the Postgres store: one object whose fields are
    the tables, one method per store call.  Each method is proved to take the
    tables to the value the statement functions of LATables describe. */
module LAStore {
  import opened Options
  import opened LATables
  import opened LABatching
  import Keyset

  datatype Delta = Delta(success: nat, failure: nat)

  ghost predicate Summarizes(deltas: map<nat, Delta>, os: seq<Outcome>) {
    && deltas.Keys == Touched(os)
    && forall d :: d in deltas ==> deltas[d] == Delta(Successes(os, d), Failures(os, d))
  }

  lemma SummarizeNext(deltas: map<nat, Delta>, os: seq<Outcome>, i: nat, delta: Delta)
    requires i < |os| && Summarizes(deltas, os[..i])
    requires delta == Delta(Successes(os[..i + 1], os[i].dispatch), Failures(os[..i + 1], os[i].dispatch))
    ensures Summarizes(deltas[os[i].dispatch := delta], os[..i + 1])
  {
    NextOutcome(os, i);
  }

  /** The loop of `summarizeLAOutcomes`: one delta per dispatch and the tokens
      the providers called invalid. */
  method SummarizeLAOutcomes(outcomes: seq<Outcome>) returns (deltas: map<nat, Delta>, invalid: set<nat>)
    ensures Summarizes(deltas, outcomes)
    ensures invalid == InvalidTokens(outcomes)
  {
    deltas, invalid := map[], {};
    for i := 0 to |outcomes|
      invariant Summarizes(deltas, outcomes[..i])
      invariant invalid == InvalidTokens(outcomes[..i])
    {
      var o := outcomes[i];
      NextOutcome(outcomes, i);
      var delta := Delta(0, 0);
      if o.dispatch in deltas {
        delta := deltas[o.dispatch];
      } else {
        UntouchedCounts(outcomes[..i], o.dispatch);
      }
      match o.verdict {
        case Sent =>
          delta := delta.(success := delta.success + 1);
        case Rejected(reason) =>
          delta := delta.(failure := delta.failure + 1);
          if InvalidToken(reason) {
            invalid := invalid + {o.token};
          }
      }
      SummarizeNext(deltas, outcomes, i, delta);
      deltas := deltas[o.dispatch := delta];
    }
    assert outcomes[..|outcomes|] == outcomes;
  }

  // ---- the tables after some of the deltas have been applied -----------------

  function RowsAfter(rows: map<nat, Dispatch>, os: seq<Outcome>, done: set<nat>): map<nat, Dispatch> {
    map d | d in rows :: if d in done then CompleteIfReady(Counted(rows[d], os, d)) else rows[d]
  }

  predicate Closes(rows: map<nat, Dispatch>, os: seq<Outcome>, d: nat, j: nat) {
    d in rows && rows[d].job == j && rows[d].action.End? && Ready(Counted(rows[d], os, d))
  }

  function JobsAfter(jobs: map<nat, Job>, rows: map<nat, Dispatch>, os: seq<Outcome>, done: set<nat>): map<nat, Job> {
    map j | j in jobs :: if exists d :: d in done && Closes(rows, os, d, j) then CloseIfActive(jobs[j]) else jobs[j]
  }

  lemma JobsAfterNext(jobs: map<nat, Job>, rows: map<nat, Dispatch>, os: seq<Outcome>, done: set<nat>, d: nat, j: nat)
    requires j in jobs
    ensures JobsAfter(jobs, rows, os, done + {d})[j] ==
            if Closes(rows, os, d, j) then CloseIfActive(JobsAfter(jobs, rows, os, done)[j])
            else JobsAfter(jobs, rows, os, done)[j]
  {
    var done' := done + {d};
    if e :| e in done && Closes(rows, os, e, j) {
      assert e in done';
    }
    if Closes(rows, os, d, j) {
      assert d in done';
    }
  }

  /** Counting one more dispatch and checking whether that completes it. */
  lemma NextDelta(rows: map<nat, Dispatch>, jobs: map<nat, Job>, os: seq<Outcome>, done: set<nat>, d: nat)
    requires d !in done
    ensures RowsAfter(rows, os, done + {d}) ==
            if d in rows then RowsAfter(rows, os, done)[d := CompleteIfReady(Counted(rows[d], os, d))]
            else RowsAfter(rows, os, done)
    ensures JobsAfter(jobs, rows, os, done + {d}) ==
            if d in rows && rows[d].job in jobs && Closes(rows, os, d, rows[d].job)
            then JobsAfter(jobs, rows, os, done)[rows[d].job := CloseIfActive(JobsAfter(jobs, rows, os, done)[rows[d].job])]
            else JobsAfter(jobs, rows, os, done)
  {
    forall j | j in jobs {
      JobsAfterNext(jobs, rows, os, done, d, j);
    }
  }

  lemma AllDone(t: Tables, os: seq<Outcome>)
    ensures RowsAfter(t.dispatches, os, Touched(os)) == ApplyOutcomes(t, os).dispatches
    ensures JobsAfter(t.jobs, t.dispatches, os, Touched(os)) == ApplyOutcomes(t, os).jobs
  {
    var done := Touched(os);
    forall j | j in t.jobs
      ensures Ends(t.dispatches, os, j) == exists d :: d in done && Closes(t.dispatches, os, d, j)
    {
      if Ends(t.dispatches, os, j) {
        var d :| d in Touched(os) && d in t.dispatches && t.dispatches[d].job == j && t.dispatches[d].action.End?
                 && Ready(Counted(t.dispatches[d], os, d));
        assert Closes(t.dispatches, os, d, j);
      }
      if d :| d in done && Closes(t.dispatches, os, d, j) {
        assert t.dispatches[d].job == j;
      }
    }
  }

  datatype FanoutScope = FanoutScope(action: Action, job: Job, startPending: bool)

  class LiveActivityStore {
    var jobs: map<nat, Job>
    var dispatches: map<nat, Dispatch>
    var tokens: map<nat, Token>
    var links: set<(nat, nat)>
    var subs: set<(nat, nat)>

    function Snapshot(): Tables
      reads this
    {
      Tables(jobs, dispatches, tokens, links, subs)
    }

    constructor (t: Tables)
      ensures Snapshot() == t
    {
      jobs, dispatches, tokens, links, subs := t.jobs, t.dispatches, t.tokens, t.links, t.subs;
    }

    /** Other clients of the database have moved the tables to `t`. */
    method Reload(t: Tables)
      modifies this
      ensures Snapshot() == t
    {
      jobs, dispatches, tokens, links, subs := t.jobs, t.dispatches, t.tokens, t.links, t.subs;
    }

    method CreateOrGetLAStartJob(id: nat, activity: nat, kind: nat, scope: Scope) returns (created: bool)
      requires id !in jobs
      modifies this`jobs
      ensures Snapshot() == old(Snapshot()).(jobs := CreateOrGetStartJob(old(jobs), id, activity, kind, scope))
      ensures created <==> forall j :: j in old(jobs) ==> old(jobs)[j].activity != activity
      ensures created ==> id in jobs && jobs[id] == Job(activity, kind, scope, Active, false)
    {
      if exists j :: j in jobs && jobs[j].activity == activity {
        return false;
      }
      jobs := map j | j in jobs :: if ActiveInScope(jobs[j], kind, scope) then CloseIfActive(jobs[j]) else jobs[j];
      jobs := jobs[id := Job(activity, kind, scope, Active, false)];
      return true;
    }

    method RollbackLAStartJob(j: nat)
      modifies this`jobs
      ensures Snapshot() == RollbackStartJob(old(Snapshot()), j)
      ensures j in old(jobs) && j !in jobs ==> forall d :: d in dispatches ==> dispatches[d].job != j
    {
      if j in jobs && jobs[j].status.Active? && !jobs[j].closedAtSet
         && !exists d :: d in dispatches && dispatches[d].job == j {
        jobs := jobs - {j};
      }
    }

    method CloseLAJobIfActive(j: nat) returns (found: bool)
      modifies this`jobs
      ensures Snapshot() == CloseJob(old(Snapshot()), j)
      ensures found <==> j in old(jobs) && old(jobs)[j].status.Active? && !old(jobs)[j].closedAtSet
      ensures jobs == if found then old(jobs)[j := old(jobs)[j].(status := Closed, closedAtSet := true)] else old(jobs)
    {
      found := j in jobs && jobs[j].status.Active? && !jobs[j].closedAtSet;
      if found {
        jobs := jobs[j := jobs[j].(status := Closed, closedAtSet := true)];
      }
    }

    method FailLAJobIfActive(j: nat) returns (found: bool)
      modifies this`jobs
      ensures Snapshot() == FailJob(old(Snapshot()), j)
      ensures found <==> j in old(jobs) && old(jobs)[j].status.Active? && !old(jobs)[j].closedAtSet
      ensures jobs == if found then old(jobs)[j := old(jobs)[j].(status := JobFailed, closedAtSet := true)] else old(jobs)
    {
      found := j in jobs && jobs[j].status.Active? && !jobs[j].closedAtSet;
      if found {
        jobs := jobs[j := jobs[j].(status := JobFailed, closedAtSet := true)];
      }
    }

    method CreateLADispatch(d: nat, job: nat, action: Action, createdAt: nat)
      requires d !in dispatches
      modifies this`dispatches
      ensures Snapshot() == old(Snapshot()).(dispatches := old(dispatches)[d := NewDispatch(job, action, createdAt)])
      ensures d in dispatches && dispatches[d] == Dispatch(job, action, EnqueuePending, 0, 0, 0, createdAt, false)
    {
      dispatches := dispatches[d := Dispatch(job, action, EnqueuePending, 0, 0, 0, createdAt, false)];
    }

    method UpdateLADispatchStatus(d: nat, status: Status) returns (found: bool)
      modifies this`dispatches
      ensures found == (d in old(dispatches))
      ensures Snapshot() == if found then old(Snapshot()).(dispatches := old(dispatches)[d := SetStatus(old(dispatches)[d], status)])
                            else old(Snapshot())
      ensures found ==> d in dispatches && dispatches[d] == old(dispatches)[d].(
        status := status, completedAtSet := old(dispatches)[d].completedAtSet || status == Completed || status == Failed)
    {
      found := d in dispatches;
      if found {
        var row := dispatches[d].(status := status);
        if status == Completed || status == Failed {
          row := row.(completedAtSet := true);
        }
        dispatches := dispatches[d := row];
      }
    }

    method MarkLADispatchEnqueued(d: nat)
      modifies this`dispatches
      ensures Snapshot() == old(Snapshot()).(dispatches :=
        if d in old(dispatches) then old(dispatches)[d := MarkEnqueued(old(dispatches)[d])] else old(dispatches))
      ensures d in old(dispatches) ==>
        && d in dispatches
        && dispatches[d] == if old(dispatches)[d].status == EnqueuePending
                            then old(dispatches)[d].(status := Queued) else old(dispatches)[d]
    {
      if d in dispatches && dispatches[d].status.EnqueuePending? {
        dispatches := dispatches[d := dispatches[d].(status := Queued)];
      }
    }

    method SupersedeLADispatchIfStale(d: nat, emitted: nat) returns (superseded: bool)
      modifies this`dispatches
      ensures superseded == (d in old(dispatches) && Stale(old(Snapshot()), d))
      ensures superseded <==>
        && d in old(dispatches) && old(dispatches)[d].action == Update
        && (old(dispatches)[d].status == Queued || old(dispatches)[d].status == InProgress)
        && exists n ::
             && n in old(dispatches) && old(dispatches)[n].action == Update
             && old(dispatches)[n].job == old(dispatches)[d].job && old(dispatches)[n].createdAt > old(dispatches)[d].createdAt
             && (old(dispatches)[n].status == Queued || old(dispatches)[n].status == InProgress
                 || old(dispatches)[n].status == Dispatched || old(dispatches)[n].status == Completed)
      ensures superseded ==>
        && d in dispatches
        && dispatches[d] == old(dispatches)[d].(status := Superseded, completedAtSet := true, total := emitted)
      ensures Snapshot() == if superseded then old(Snapshot()).(dispatches := old(dispatches)[d := Supersede(old(dispatches)[d], emitted)])
                            else old(Snapshot())
    {
      if d !in dispatches {
        return false;
      }
      var row := dispatches[d];
      superseded := row.action.Update? && row.status in {Queued, InProgress}
        && exists n :: n in dispatches && SupersededBy(row, dispatches[n]);
      if superseded {
        dispatches := dispatches[d := row.(status := Superseded, completedAtSet := true, total := emitted)];
      }
    }

    method FailLADispatchEnqueue(d: nat, total: nat)
      modifies this`dispatches
      ensures d in old(dispatches) ==>
        && d in dispatches
        && dispatches[d] == if || old(dispatches)[d].status == EnqueuePending
                               || old(dispatches)[d].status == Queued
                               || old(dispatches)[d].status == InProgress
                            then old(dispatches)[d].(total := total, status := Failed, completedAtSet := true)
                            else old(dispatches)[d]
      ensures Snapshot() == old(Snapshot()).(dispatches :=
        if d in old(dispatches) then old(dispatches)[d := FailEnqueue(old(dispatches)[d], total)] else old(dispatches))
    {
      if d in dispatches {
        var row := dispatches[d];
        if row.status.EnqueuePending? || row.status.Queued? || row.status.InProgress? {
          dispatches := dispatches[d := row.(total := total, status := Failed, completedAtSet := true)];
        }
      }
    }

    /** The completion check shared by enqueue completion and outcome batches. */
    method CompleteLADispatchIfReady(d: nat)
      modifies this`dispatches, this`jobs
      ensures dispatches == if d in old(dispatches) then old(dispatches)[d := CompleteIfReady(old(dispatches)[d])] else old(dispatches)
      ensures jobs == if d in old(dispatches) && Ready(old(dispatches)[d]) && old(dispatches)[d].action.End?
                      then CloseJob(old(Snapshot()), old(dispatches)[d].job).jobs else old(jobs)
      ensures d in old(dispatches) ==>
        && d in dispatches
        && dispatches[d] == if && old(dispatches)[d].status == Dispatched
                               && old(dispatches)[d].success + old(dispatches)[d].failure >= old(dispatches)[d].total
                            then old(dispatches)[d].(status := Completed, completedAtSet := true)
                            else old(dispatches)[d]
    {
      if d in dispatches {
        var row := dispatches[d];
        if row.status.Dispatched? && row.success + row.failure >= row.total {
          dispatches := dispatches[d := row.(status := Completed, completedAtSet := true)];
          if row.action.End? {
            var _ := CloseLAJobIfActive(row.job);
          }
        }
      }
    }

    /** The transaction of `CompleteLADispatchEnqueue` for a total above zero. */
    method DispatchEnqueued(d: nat, total: nat)
      modifies this`dispatches, this`jobs
      ensures Snapshot() == if d in old(dispatches) then CompleteEnqueue(old(Snapshot()), d, total) else old(Snapshot())
    {
      if d in dispatches {
        dispatches := dispatches[d := dispatches[d].(total := total, status := Dispatched)];
      }
      CompleteLADispatchIfReady(d);
    }

    /** The first statement of `completeEmptyLADispatch`. */
    method CompleteEmptyRow(d: nat) returns (row: Option<Dispatch>)
      modifies this`dispatches
      ensures row == if d in old(dispatches) then Some(CompleteEmpty(old(dispatches)[d])) else None
      ensures Snapshot() == old(Snapshot()).(dispatches := if row.Some? then old(dispatches)[d := row.value] else old(dispatches))
    {
      if d !in dispatches {
        return None;
      }
      dispatches := dispatches[d := dispatches[d].(total := 0, status := Completed, completedAtSet := true)];
      return Some(dispatches[d]);
    }

    /** Its second statement, for the job of a row the first one returned. */
    method SettleEmptyJob(row: Dispatch)
      modifies this`jobs
      ensures Snapshot() == SettleEmpty(old(Snapshot()), row)
    {
      match row.action
      case Start => var _ := FailLAJobIfActive(row.job);
      case End => var _ := CloseLAJobIfActive(row.job);
      case Update =>
    }

    /** `completeEmptyLADispatch` with nothing in between; `fails` says whether its
        second statement does, which an update does not reach. */
    method CompleteEmptyLADispatch(d: nat, fails: bool) returns (err: bool)
      modifies this`dispatches, this`jobs
      ensures err <==> d !in old(dispatches) || (fails && !old(dispatches)[d].action.Update?)
      ensures Snapshot() ==
        if d !in old(dispatches) then old(Snapshot())
        else
          var t := old(Snapshot()).(dispatches := old(dispatches)[d := CompleteEmpty(old(dispatches)[d])]);
          if err then t else SettleEmpty(t, t.dispatches[d])
    {
      var row := CompleteEmptyRow(d);
      if row.None? {
        return true;
      }
      if fails && !row.value.action.Update? {
        return true;
      }
      SettleEmptyJob(row.value);
      return false;
    }

    /** `CompleteLADispatchEnqueue`: an empty dispatch takes the two statements,
        any other the transaction. */
    method CompleteLADispatchEnqueue(d: nat, total: nat, fails: bool) returns (err: bool)
      modifies this`dispatches, this`jobs
      ensures total > 0 ==> !err
      ensures total > 0 ==>
        Snapshot() == if d in old(dispatches) then CompleteEnqueue(old(Snapshot()), d, total) else old(Snapshot())
      ensures total == 0 ==> (err <==> d !in old(dispatches) || (fails && !old(dispatches)[d].action.Update?))
      ensures total == 0 && d in old(dispatches) ==> d in dispatches && dispatches[d] == CompleteEmpty(old(dispatches)[d])
      ensures total == 0 && !err ==>
        jobs == SettleEmpty(old(Snapshot()), old(dispatches)[d]).jobs
      ensures total == 0 && err ==> jobs == old(jobs)
    {
      if total == 0 {
        err := CompleteEmptyLADispatch(d, fails);
      } else {
        DispatchEnqueued(d, total);
        err := false;
      }
    }

    /** `ApplyLAOutcomeBatch`.  Go visits the delta map in an arbitrary order;
        the loop below picks an arbitrary remaining dispatch, and the result
        does not depend on the choice. */
    method ApplyLAOutcomeBatch(outcomes: seq<Outcome>)
      modifies this
      ensures Snapshot() == ApplyOutcomes(old(Snapshot()), outcomes)
    {
      ghost var was := Snapshot();
      if |outcomes| == 0 {
        EmptyBatch(was);
        return;
      }
      var deltas, invalid := SummarizeLAOutcomes(outcomes);
      tokens := map x | x in tokens :: if x in invalid then tokens[x].(invalidated := true) else tokens[x];
      AssociateTokens(outcomes);
      ApplyLAOutcomeDeltas(outcomes, deltas);
      assert tokens == InvalidateAll(was.tokens, InvalidTokens(outcomes));
    }

    method AssociateTokens(outcomes: seq<Outcome>)
      modifies this`links
      ensures links == old(links) + NewLinks(outcomes)
      ensures forall a, x :: (a, x) in links <==> (a, x) in old(links) || exists o ::
        o in outcomes && o.verdict == Sent && o.action == Start && o.platform == Fcm
        && o.activity == a && o.token == x && a != 0 && x != 0
    {
      for i := 0 to |outcomes|
        invariant links == old(links) + NewLinks(outcomes[..i])
      {
        var o := outcomes[i];
        NextOutcome(outcomes, i);
        if o.verdict.Sent? && o.action.Start? && o.activity != 0 && o.platform.Fcm? && o.token != 0 {
          links := links + {(o.activity, o.token)};
        }
      }
      assert outcomes[..|outcomes|] == outcomes;
    }

    method ApplyLAOutcomeDeltas(ghost outcomes: seq<Outcome>, deltas: map<nat, Delta>)
      requires Summarizes(deltas, outcomes)
      modifies this`dispatches, this`jobs
      ensures dispatches == ApplyOutcomes(old(Snapshot()), outcomes).dispatches
      ensures jobs == ApplyOutcomes(old(Snapshot()), outcomes).jobs
    {
      ghost var rows, before := dispatches, jobs;
      var left := deltas.Keys;
      ghost var done := {};
      assert dispatches == RowsAfter(rows, outcomes, done);
      assert jobs == JobsAfter(before, rows, outcomes, done);
      while left != {}
        invariant done !! left && done + left == Touched(outcomes)
        invariant dispatches == RowsAfter(rows, outcomes, done)
        invariant jobs == JobsAfter(before, rows, outcomes, done)
        decreases left
      {
        var d :| d in left;
        ApplyOneDelta(d, deltas[d], outcomes, rows, before, done);
        left := left - {d};
        done := done + {d};
      }
      assert done == Touched(outcomes);
      AllDone(old(Snapshot()), outcomes);
    }

    method ApplyOneDelta(d: nat, delta: Delta, ghost os: seq<Outcome>, ghost rows: map<nat, Dispatch>,
                         ghost before: map<nat, Job>, ghost done: set<nat>)
      requires d !in done && delta == Delta(Successes(os, d), Failures(os, d))
      requires dispatches == RowsAfter(rows, os, done)
      requires jobs == JobsAfter(before, rows, os, done)
      modifies this`dispatches, this`jobs
      ensures dispatches == RowsAfter(rows, os, done + {d})
      ensures jobs == JobsAfter(before, rows, os, done + {d})
    {
      NextDelta(rows, before, os, done, d);
      if d in dispatches {
        var row := dispatches[d];
        dispatches := dispatches[d := row.(success := row.success + delta.success, failure := row.failure + delta.failure)];
      }
      CompleteLADispatchIfReady(d);
    }

    /** `getLADispatchFanoutScope`; None is NotFound. */
    method GetLADispatchFanoutScope(d: nat) returns (scope: Option<FanoutScope>)
      ensures scope.Some? <==> d in dispatches && dispatches[d].job in jobs
      ensures scope.Some? ==>
        scope.value == FanoutScope(dispatches[d].action, jobs[dispatches[d].job], StartPending(Snapshot(), dispatches[d].job))
      ensures scope.Some? ==> (scope.value.startPending <==> exists e ::
        && e in dispatches && dispatches[e].job == dispatches[d].job && dispatches[e].action == Start
        && (dispatches[e].status == EnqueuePending || dispatches[e].status == Queued
            || dispatches[e].status == InProgress || dispatches[e].status == Dispatched))
    {
      if d !in dispatches || dispatches[d].job !in jobs {
        return None;
      }
      var startPending := exists e :: (
        && e in dispatches
        && dispatches[e].job == dispatches[d].job
        && dispatches[e].action.Start?
        && dispatches[e].status in {EnqueuePending, Queued, InProgress, Dispatched});
      return Some(FanoutScope(dispatches[d].action, jobs[dispatches[d].job], startPending));
    }

    /** The page query of `GetLATokenBatchForDispatch` and its cut at `batchSize`. */
    method QueryLATokens(now: nat, job: Job, action: Action, startPending: bool, cursor: nat, batchSize: nat)
      returns (batch: Keyset.Page)
      requires batchSize >= 1
      ensures batch == Keyset.PageOf(Eligible(Snapshot(), now, job, action, startPending), cursor, batchSize)
    {
      var ids := Keyset.Rows(Eligible(Snapshot(), now, job, action, startPending), cursor, batchSize);
      batch := Keyset.Page(ids, false, 0);
      if |ids| > batchSize {
        batch := Keyset.Page(ids[..batchSize], true, ids[batchSize - 1]);
      }
    }
  }
}
