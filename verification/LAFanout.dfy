/** The fan-out worker as the loop it is, running against the store while the
    rest of the system moves.

    The loop is proved to be a run of the step machine for every schedule, so every
    theorem about reachable states holds of it, and to be the very run that the
    schedule determines. */
module LAFanout {
  import opened Options
  import opened LATables
  import opened LAProtocol
  import opened LALocal
  import opened LAScans
  import opened LATheorems
  import opened LAStore
  import opened LASchedule
  import opened LAUndisturbed
  import opened Keyset

  class Runtime {
    const store: LiveActivityStore
    const pageSize: nat
    var now: nat
    var procs: map<nat, Proc>
    var batch: seq<Outcome>
    var schedule: seq<Turn>
    ghost const origin: Sys
    ghost var trace: seq<Step>

    function State(): Sys
      reads this, store
    {
      Sys(store.Snapshot(), now, procs, batch, pageSize)
    }

    ghost function Now(): Moment
      reads this, store
    {
      Moment(State(), schedule, trace)
    }

    /** Everything that has happened is a run of the step machine. */
    ghost predicate Valid()
      reads this, store
    {
      Reaches(origin, trace, State())
    }

    /** `me`'s run is at `run`. */
    ghost predicate At(me: nat, action: Action, run: Run)
      reads this, store
    {
      Running(State(), me) && RunOf(State(), me) == run && Row(State(), me).action == action
    }

    constructor (s: Sys, schedule: seq<Turn>)
      requires Reachable(s)
      ensures Valid() && State() == s && this.schedule == schedule && trace == [] && fresh(store)
    {
      store := new LiveActivityStore(s.tables);
      pageSize, now, procs, batch := s.pageSize, s.now, s.procs, s.batch;
      this.schedule := schedule;
      origin := s;
      trace := [];
      new;
      assert State() == s;
    }

    /** One step of somebody else. */
    method Other(step: Step, me: nat, ghost action: Action, ghost run: Run)
      requires Valid() && At(me, action, run) && Enabled(State(), step) && !(step.Work? && step.d == me)
      modifies this`now, this`procs, this`batch, this`trace, store
      ensures Valid() && At(me, action, run) && trace == old(trace) + [step] && State() == Do(old(State()), step)
    {
      OthersReach(origin, trace, State(), step, me);
      Restore(step, Do(State(), step));
    }

    /** The others have committed: the system is now `s`. */
    method Restore(step: Step, s: Sys)
      requires Reaches(origin, trace + [step], s) && s.pageSize == pageSize
      modifies this`now, this`procs, this`batch, this`trace, store
      ensures Valid() && State() == s && trace == old(trace) + [step]
    {
      store.Reload(s.tables);
      now, procs, batch := s.now, s.procs, s.batch;
      trace := trace + [step];
      assert State() == s;
    }

    /** Others act, then the worker's next call is told whether it succeeds. */
    method Yield(me: nat, ghost action: Action, ghost run: Run) returns (ok: bool)
      requires Valid() && At(me, action, run)
      modifies this`now, this`procs, this`batch, this`schedule, this`trace, store
      ensures Valid() && At(me, action, run) && old(trace) <= trace
      ensures Now() == Met(old(Now()), me) && ok == NextTurn(old(schedule)).ok
      ensures if old(schedule) == [] then schedule == [] && State() == old(State()) else |schedule| < |old(schedule)|
      ensures AllOk(old(schedule)) ==> ok && AllOk(schedule)
    {
      if schedule == [] {
        return true;
      }
      var turn := schedule[0];
      schedule := schedule[1..];
      Others(turn.others, me, action, run);
      ok := turn.ok;
    }

    method Others(steps: seq<Step>, me: nat, ghost action: Action, ghost run: Run)
      requires Valid() && At(me, action, run)
      modifies this`now, this`procs, this`batch, this`trace, store
      ensures Valid() && At(me, action, run) && old(trace) <= trace
      ensures Now() == OthersAct(old(Now()), steps, me)
    {
      for i := 0 to |steps|
        invariant Valid() && At(me, action, run) && old(trace) <= trace
        invariant Now() == OthersAct(old(Now()), steps[..i], me)
      {
        assert steps[..i + 1][..i] == steps[..i];
        if Enabled(State(), steps[i]) && !(steps[i].Work? && steps[i].d == me) {
          Other(steps[i], me, action, run);
        }
      }
      assert steps[..|steps|] == steps;
    }

    /** Record a statement whose effect on the tables has been made. */
    method Commit(me: nat, ok: bool, ghost was: Moment, next: Sys)
      requires Reaches(origin, was.trace, was.s) && CanWork(was.s, me) && next == DoWork(was.s, me, ok)
      requires store.Snapshot() == next.tables && now == next.now && batch == next.batch && pageSize == next.pageSize
      requires trace == was.trace && schedule == was.schedule
      modifies this`procs, this`trace
      ensures Valid() && State() == next && Now() == Acted(was, me, ok)
    {
      ReachesNext(origin, trace, was.s, Work(me, ok));
      procs := next.procs;
      trace := trace + [Work(me, ok)];
      assert State() == next;
    }

    /** The worker's next call: others act, and `next` is what the answer makes of
        the system. */
    method Call(me: nat, ghost action: Action, ghost run: Run) returns (ok: bool, next: Sys)
      requires Valid() && At(me, action, run) && !run.pc.Finished? && !CallsNothing(State(), me)
      modifies this`now, this`procs, this`batch, this`schedule, this`trace, store
      ensures Valid() && At(me, action, run) && old(trace) <= trace && CanWork(State(), me)
      ensures next == DoWork(State(), me, ok) && Running(next, me) && Row(next, me).action == action
      ensures next.now == now && next.batch == batch && next.pageSize == pageSize && next.tables.tokens.Keys == store.tokens.Keys
      ensures Next(old(Now()), me) == Acted(Now(), me, ok)
      ensures Quieter()
      ensures AllOk(old(schedule)) ==> ok && AllOk(schedule)
    {
      WorkerCanWork(origin, trace, State(), me);
      ok := Yield(me, action, run);
      WorkerCanWork(origin, trace, State(), me);
      WorkerNext(origin, trace, State(), me, ok);
      next := DoWork(State(), me, ok);
    }

    /** Either the schedule got shorter, or no token was added. */
    twostate predicate Quieter()
      reads this, store
    {
      |schedule| < |old(schedule)| || (schedule == old(schedule) && store.tokens.Keys == old(store.tokens.Keys))
    }

    // ---- the store and queue calls of one fan-out run ------------------------------

    method SupersedeIfStale(me: nat, emitted: nat, ghost action: Action, ghost run: Run) returns (superseded: bool, err: bool)
      requires Valid() && At(me, action, run)
      requires (run.pc.AtFirstCheck? && emitted == 0) || (run.pc.AtCheck? && emitted == run.total)
      modifies this`now, this`procs, this`batch, this`schedule, this`trace, store
      ensures Valid() && old(trace) <= trace && Quieter()
      ensures Now() == Next(old(Now()), me)
      ensures AllOk(old(schedule)) ==> !err && AllOk(schedule)
      ensures At(me, action, run.(pc := if err then AtFail
                                        else if superseded then if run.pc.AtCheck? then AtApply else Finished
                                        else if run.pc.AtCheck? then AtScope else AtMark))
      ensures superseded ==> !err && Row(State(), me).status == Superseded
    {
      var ok, next := Call(me, action, run);
      ghost var met := Now();
      CheckResult(State(), me, ok, run);
      superseded, err := false, !ok;
      if ok {
        superseded := store.SupersedeLADispatchIfStale(me, emitted);
      }
      Commit(me, ok, met, next);
    }

    method MarkInProgress(me: nat, ghost action: Action, ghost run: Run) returns (err: bool)
      requires Valid() && At(me, action, run) && run.pc.AtMark?
      modifies this`now, this`procs, this`batch, this`schedule, this`trace, store
      ensures Valid() && old(trace) <= trace && Quieter()
      ensures Now() == Next(old(Now()), me)
      ensures AllOk(old(schedule)) ==> !err && AllOk(schedule)
      ensures At(me, action, run.(pc := if err then AtFail else LoopHead(action)))
    {
      var ok, next := Call(me, action, run);
      ghost var met := Now();
      if ok {
        var found := store.UpdateLADispatchStatus(me, InProgress);
        assert found;
      }
      Commit(me, ok, met, next);
      err := !ok;
    }

    /** `GetLATokenBatchForDispatch`: the scope and the page are two statements,
        and others may act between them. */
    method GetLATokenBatch(me: nat, cursor: nat, ghost action: Action, ghost run: Run) returns (page: Page, err: bool, ghost run': Run)
      requires Valid() && At(me, action, run) && run.pc.AtScope? && cursor == run.cursor
      modifies this`now, this`procs, this`batch, this`schedule, this`trace, store
      ensures Valid() && old(trace) <= trace && Quieter()
      ensures Follows(old(Now()), Now(), me)
      ensures AllOk(old(schedule)) ==> !err && AllOk(schedule)
      ensures At(me, action, run')
      ensures run' == if err then run.(pc := AtFail) else run.(pc := AtEmit(page, 0), scan := run'.scan)
      ensures !err && page.more ==> page.next in store.tokens.Keys && page.next > cursor
    {
      ghost var start := Now();
      FollowsOne(start, me);
      var startPending: bool;
      startPending, err := ReadScope(me, action, run);
      if err {
        return Page([], false, 0), true, run.(pc := AtFail);
      }
      FollowsNext(start, Now(), me);
      page, err, run' := QueryTokens(me, cursor, startPending, action, run.(pc := AtTokens(startPending)));
    }

    method ReadScope(me: nat, ghost action: Action, ghost run: Run) returns (startPending: bool, err: bool)
      requires Valid() && At(me, action, run) && run.pc.AtScope?
      modifies this`now, this`procs, this`batch, this`schedule, this`trace, store
      ensures Valid() && old(trace) <= trace && Quieter()
      ensures Now() == Next(old(Now()), me)
      ensures AllOk(old(schedule)) ==> !err && AllOk(schedule)
      ensures At(me, action, run.(pc := if err then AtFail else AtTokens(startPending)))
    {
      var ok, next := Call(me, action, run);
      ghost var met := Now();
      startPending := false;
      if ok {
        var scope := store.GetLADispatchFanoutScope(me);
        startPending := scope.value.startPending;
      }
      Commit(me, ok, met, next);
      err := !ok;
    }

    method QueryTokens(me: nat, cursor: nat, startPending: bool, ghost action: Action, ghost run: Run)
      returns (page: Page, err: bool, ghost run': Run)
      requires Valid() && At(me, action, run) && run.pc == AtTokens(startPending) && cursor == run.cursor
      modifies this`now, this`procs, this`batch, this`schedule, this`trace, store
      ensures Valid() && old(trace) <= trace && Quieter()
      ensures Now() == Next(old(Now()), me)
      ensures AllOk(old(schedule)) ==> !err && AllOk(schedule)
      ensures At(me, action, run')
      ensures run' == if err then run.(pc := AtFail) else run.(pc := AtEmit(page, 0), scan := run'.scan)
      ensures !err && page.more ==> page.next in store.tokens.Keys && page.next > cursor
    {
      page := Page([], false, 0);
      var ok, next := Call(me, action, run);
      ghost var met := Now();
      if ok {
        var job := JobOf(State(), me);
        page := store.QueryLATokens(now, job, Row(State(), me).action, startPending, cursor, pageSize);
        PageContents(TokenSet(State(), me, startPending), cursor, pageSize);
        assert page.more ==> page.next in TokenSet(State(), me, startPending);
      }
      Commit(me, ok, met, next);
      err := !ok;
      run' := RunOf(next, me);
    }

    /** One `emit`; a refused task becomes a failed outcome held by the worker. */
    method Emit(me: nat, ghost action: Action, ghost run: Run) returns (failed: seq<Outcome>)
      requires Valid() && At(me, action, run) && run.pc.AtEmit? && run.pc.sent < |run.pc.page.ids|
      modifies this`now, this`procs, this`batch, this`schedule, this`trace, store
      ensures Valid() && old(trace) <= trace && Quieter()
      ensures Now() == Next(old(Now()), me)
      ensures AllOk(old(schedule)) ==> failed == [] && AllOk(schedule)
      ensures At(me, action, Emitted(run, failed))
    {
      var ok, next := Call(me, action, run);
      ghost var met := Now();
      failed := if ok then [] else [Refusal(State(), me)];
      EmitResult(State(), me, ok, run, failed);
      Commit(me, ok, met, next);
    }

    /** A step of the run that calls nothing. */
    method Internal(me: nat, ghost action: Action, ghost run: Run)
      requires Valid() && At(me, action, run)
      requires (run.pc.AtEmit? && run.pc.sent == |run.pc.page.ids|)
            || ((run.pc.AtApply? || run.pc.AtFailApply?) && run.failed == [])
            || (run.pc.AtFailStart? && !action.Start?)
      modifies this`procs, this`trace
      ensures Valid() && old(trace) <= trace
      ensures Now() == Next(old(Now()), me)
      ensures At(me, action, AfterBranch(run, action))
      ensures schedule == old(schedule) && store.tokens == old(store.tokens)
    {
      WorkerCanWork(origin, trace, State(), me);
      InternalResult(State(), me, run);
      WorkerNext(origin, trace, State(), me, true);
      Commit(me, true, Now(), DoWork(State(), me, true));
    }

    /** `CompleteLADispatchEnqueue`; an empty start or end has a second statement. */
    method CompleteEnqueue(me: nat, total: nat, action: Action, ghost run: Run) returns (err: bool)
      requires Valid() && At(me, action, run) && run.pc.AtComplete? && total == run.total
      modifies this`now, this`procs, this`batch, this`schedule, this`trace, store
      ensures Valid() && old(trace) <= trace
      ensures Follows(old(Now()), Now(), me)
      ensures AllOk(old(schedule)) ==> !err && AllOk(schedule)
      ensures At(me, action, run.(pc := if err then AtFail else AtApply))
      ensures !err ==> Row(State(), me).status == Dispatched || Row(State(), me).status == Completed
    {
      ghost var start := Now();
      FollowsOne(start, me);
      err := CompleteRow(me, total, action, run);
      ghost var mid := Now();
      if !err && total == 0 && !action.Update? {
        FollowsNext(start, mid, me);
        err := FollowUp(me, action, run.(pc := AtFollowUp));
        LedFrom(origin, mid.trace, mid.s, trace, State(), me);
      }
    }

    method CompleteRow(me: nat, total: nat, ghost action: Action, ghost run: Run) returns (err: bool)
      requires Valid() && At(me, action, run) && run.pc.AtComplete? && total == run.total
      modifies this`now, this`procs, this`batch, this`schedule, this`trace, store
      ensures Valid() && old(trace) <= trace
      ensures Now() == Next(old(Now()), me)
      ensures AllOk(old(schedule)) ==> !err && AllOk(schedule)
      ensures At(me, action, run.(pc := if err then AtFail
                                        else if total == 0 && !action.Update? then AtFollowUp else AtApply))
      ensures !err ==> Row(State(), me).status == Completed || (total > 0 && Row(State(), me).status == Dispatched)
    {
      var ok, next := Call(me, action, run);
      ghost var met := Now();
      CompleteResult(State(), me, ok, run);
      if ok {
        if total == 0 {
          var _ := store.CompleteEmptyRow(me);
        } else {
          store.DispatchEnqueued(me, total);
        }
      }
      Commit(me, ok, met, next);
      err := !ok;
    }

    /** The second statement of `completeEmptyLADispatch`. */
    method FollowUp(me: nat, ghost action: Action, ghost run: Run) returns (err: bool)
      requires Valid() && At(me, action, run) && run.pc.AtFollowUp? && !action.Update?
      modifies this`now, this`procs, this`batch, this`schedule, this`trace, store
      ensures Valid() && old(trace) <= trace
      ensures Now() == Next(old(Now()), me)
      ensures AllOk(old(schedule)) ==> !err && AllOk(schedule)
      ensures At(me, action, run.(pc := if err then AtFail else AtApply))
    {
      var ok, next := Call(me, action, run);
      ghost var met := Now();
      FollowUpResult(State(), me, ok, run);
      if ok {
        store.SettleEmptyJob(Row(State(), me));
      }
      Commit(me, ok, met, next);
      err := !ok;
    }

    method ApplyLAEnqueueFailures(me: nat, failed: seq<Outcome>, ghost action: Action, ghost run: Run) returns (err: bool)
      requires Valid() && At(me, action, run) && (run.pc.AtApply? || run.pc.AtFailApply?) && failed == run.failed
      modifies this`now, this`procs, this`batch, this`schedule, this`trace, store
      ensures Valid() && old(trace) <= trace
      ensures Now() == Next(old(Now()), me)
      ensures AllOk(old(schedule)) ==> !err && AllOk(schedule)
      ensures At(me, action, run.(pc := if run.pc.AtApply? then Finished else AtFailStart, failed := []))
    {
      if |failed| == 0 {
        Internal(me, action, run);
        return false;
      }
      var ok, next := Call(me, action, run);
      ghost var met := Now();
      ApplyResult(State(), me, ok, run);
      if ok {
        store.ApplyLAOutcomeBatch(failed);
      }
      Commit(me, ok, met, next);
      err := !ok;
    }

    method FailEnqueue(me: nat, total: nat, ghost action: Action, ghost run: Run)
      requires Valid() && At(me, action, run) && run.pc.AtFail? && total == run.total
      modifies this`now, this`procs, this`batch, this`schedule, this`trace, store
      ensures Valid() && old(trace) <= trace
      ensures Now() == Next(old(Now()), me)
      ensures At(me, action, run.(pc := AtFailApply))
    {
      var ok, next := Call(me, action, run);
      ghost var met := Now();
      FailResult(State(), me, ok, run);
      if ok {
        store.FailLADispatchEnqueue(me, total);
      }
      Commit(me, ok, met, next);
    }

    method FailLAStartAfterDispatchFailure(me: nat, action: Action, ghost run: Run)
      requires Valid() && At(me, action, run) && run.pc.AtFailStart?
      modifies this`now, this`procs, this`batch, this`schedule, this`trace, store
      ensures Valid() && old(trace) <= trace
      ensures Now() == Next(old(Now()), me)
      ensures At(me, action, run.(pc := Finished))
    {
      if !action.Start? {
        Internal(me, action, run);
        return;
      }
      var ok, next := Call(me, action, run);
      ghost var met := Now();
      FailStartResult(State(), me, ok, run);
      if ok {
        var _ := store.FailLAJobIfActive(Row(State(), me).job);
      }
      Commit(me, ok, met, next);
    }
  }

  // ---- the loops ---------------------------------------------------------------------

  /** `pushLATokensToPipeline`: emit every token of a page, keep the refused ones. */
  method PushLATokensToPipeline(rt: Runtime, me: nat, page: Page, ghost action: Action, ghost run: Run)
    returns (failed: seq<Outcome>)
    requires rt.Valid() && rt.At(me, action, run) && run.pc == AtEmit(page, 0)
    modifies rt`now, rt`procs, rt`batch, rt`schedule, rt`trace, rt.store
    ensures rt.Valid() && old(rt.trace) <= rt.trace && rt.Quieter()
    ensures Follows(old(rt.Now()), rt.Now(), me)
    ensures AllOk(old(rt.schedule)) ==> failed == [] && AllOk(rt.schedule)
    ensures rt.At(me, action, run.(pc := AtEmit(page, |page.ids|), failed := run.failed + failed))
  {
    failed := [];
    ghost var start := rt.Now();
    FollowsOne(start, me);
    HoldsMore(run, page, 0, [], []);
    for i := 0 to |page.ids|
      invariant rt.Valid() && old(rt.trace) <= rt.trace && Follows(start, rt.Now(), me)
      invariant AllOk(old(rt.schedule)) ==> failed == [] && AllOk(rt.schedule)
      invariant rt.At(me, action, Holding(run, page, i, failed))
      invariant rt.Quieter()
    {
      FollowsNext(start, rt.Now(), me);
      var more := rt.Emit(me, action, Holding(run, page, i, failed));
      HoldsMore(run, page, i, failed, more);
      failed := failed + more;
    }
  }

  /** Fetch one page and emit it. */
  method FanoutPage(rt: Runtime, me: nat, cursor: nat, ghost action: Action, ghost run: Run)
    returns (page: Page, failed: seq<Outcome>, err: bool, ghost run': Run)
    requires rt.Valid() && rt.At(me, action, run) && run.pc.AtScope? && run.cursor == cursor
    modifies rt`now, rt`procs, rt`batch, rt`schedule, rt`trace, rt.store
    ensures rt.Valid() && old(rt.trace) <= rt.trace && rt.Quieter()
    ensures Follows(old(rt.Now()), rt.Now(), me)
    ensures AllOk(old(rt.schedule)) ==> !err && failed == [] && AllOk(rt.schedule)
    ensures rt.At(me, action, run')
    ensures run' == if err then run.(pc := AtFail)
                    else run.(pc := if page.more then LoopHead(action) else AtComplete, scan := run'.scan,
                              failed := run.failed + failed, total := run.total + |page.ids|,
                              cursor := if page.more then page.next else cursor)
    ensures !err && page.more ==> page.next > cursor
    ensures !err && page.more && rt.schedule == old(rt.schedule) ==> page.next in rt.store.tokens.Keys
  {
    failed := [];
    ghost var start := rt.Now();
    page, err, run' := rt.GetLATokenBatch(me, cursor, action, run);
    if !err {
      ghost var fetched := rt.Now();
      failed, run' := PushPage(rt, me, page, action, run');
      FollowsOn(start, fetched, rt.Now(), me);
    }
  }

  /** Emit a page, and take the branch at the end of the loop body. */
  method PushPage(rt: Runtime, me: nat, page: Page, ghost action: Action, ghost run: Run)
    returns (failed: seq<Outcome>, ghost run': Run)
    requires rt.Valid() && rt.At(me, action, run) && run.pc == AtEmit(page, 0)
    modifies rt`now, rt`procs, rt`batch, rt`schedule, rt`trace, rt.store
    ensures rt.Valid() && old(rt.trace) <= rt.trace && rt.Quieter()
    ensures Follows(old(rt.Now()), rt.Now(), me)
    ensures AllOk(old(rt.schedule)) ==> failed == [] && AllOk(rt.schedule)
    ensures rt.At(me, action, run')
    ensures run' == run.(pc := if page.more then LoopHead(action) else AtComplete,
                         failed := run.failed + failed, total := run.total + |page.ids|,
                         cursor := if page.more then page.next else run.cursor)
  {
    ghost var start := rt.Now();
    failed := PushLATokensToPipeline(rt, me, page, action, run);
    FollowsNext(start, rt.Now(), me);
    ghost var pushed := run.(pc := AtEmit(page, |page.ids|), failed := run.failed + failed);
    rt.Internal(me, action, pushed);
    run' := RunOf(rt.State(), me);
  }

  /** `failLADispatchFanout`. */
  method FailLADispatchFanout(rt: Runtime, me: nat, total: nat, failed: seq<Outcome>, action: Action, ghost run: Run)
    returns (ghost run': Run)
    requires rt.Valid() && rt.At(me, action, run) && run.pc.AtFail? && total == run.total && failed == run.failed
    modifies rt`now, rt`procs, rt`batch, rt`schedule, rt`trace, rt.store
    ensures rt.Valid() && old(rt.trace) <= rt.trace
    ensures Follows(old(rt.Now()), rt.Now(), me)
    ensures rt.At(me, action, run') && run' == run.(pc := Finished, failed := [])
    ensures Unsent(Row(rt.State(), me))
  {
    ghost var start := rt.Now();
    FollowsOne(start, me);
    rt.FailEnqueue(me, total, action, run);
    ghost var failing := rt.Now();
    UnsentWhenFailing(rt.origin, failing, me);
    FollowsNext(start, failing, me);
    var _ := rt.ApplyLAEnqueueFailures(me, failed, action, run.(pc := AtFailApply));
    ghost var settling := rt.Now();
    UnsentStays(rt.origin, failing, settling, me);
    FollowsNext(start, settling, me);
    rt.FailLAStartAfterDispatchFailure(me, action, run.(pc := AtFailStart, failed := []));
    UnsentStays(rt.origin, settling, rt.Now(), me);
    run' := run.(pc := Finished, failed := []);
  }

  /** The row of a run that aborted: FAILED, unless that write was lost, or it had
      been completed without a token and only the job write failed. */
  ghost predicate Unsent(row: Dispatch) {
    row.status == Failed || Waiting(row.status) || (row.status == Completed && row.total == 0 && row.action != Update)
  }

  lemma UnsentWhenFailing(origin: Sys, m: Moment, me: nat)
    requires Reaches(origin, m.trace, m.s) && Running(m.s, me) && RunOf(m.s, me).pc.AtFailApply?
    ensures Unsent(Row(m.s, me))
  {
    ReachesInv(origin, m.trace, m.s);
    assert LocalOk(m.s, me);
  }

  lemma UnsentStays(origin: Sys, m: Moment, m': Moment, me: nat)
    requires Reaches(origin, m.trace, m.s) && Reaches(origin, m'.trace, m'.s) && m.trace <= m'.trace
    requires Running(m.s, me) && Failing(RunOf(m.s, me).pc) && Unsent(Row(m.s, me)) && m' == Next(m, me)
    ensures Known(m'.s, me) && Unsent(Row(m'.s, me))
  {
    ReachesInv(origin, m.trace, m.s);
    LedFrom(origin, m.trace, m.s, m'.trace, m'.s, me);
    SameAction(origin, m, m', me);
    if Waiting(Row(m.s, me).status) {
      NextKeepsWaiting(m, me);
    }
  }

  lemma SameAction(origin: Sys, m: Moment, m': Moment, me: nat)
    requires Reaches(origin, m.trace, m.s) && Reaches(origin, m'.trace, m'.s) && m.trace <= m'.trace && Known(m.s, me)
    ensures Known(m'.s, me) && Row(m'.s, me).action == Row(m.s, me).action
  {
    var rest := m'.trace[|m.trace|..];
    assert m'.trace == m.trace + rest;
    ExecSplits(origin, m.trace, rest);
    ReachesInv(origin, m.trace, m.s);
    KeepsIdentity(m.s, rest, me);
  }

  /** How `FanoutLATokens` returned. */
  datatype Exit = Skipped | Stopped | Enqueued(applyErr: bool) | Aborted

  /** What the row is when the run returns before its last page. */
  ghost predicate Left(exit: Exit, row: Dispatch) {
    if exit.Aborted? then Unsent(row) else !exit.Enqueued? && row.status == Superseded && row.action == Update
  }

  /** One turn of the page loop: an update first looks for a newer one, then
      the page is fetched and emitted. */
  method FanoutTurn(rt: Runtime, me: nat, cursor: nat, totalTokenCount: nat, totalFailedOutcomes: seq<Outcome>, action: Action,
                    ghost run: Run)
    returns (early: Option<Exit>, page: Page, failed: seq<Outcome>, ghost run': Run)
    requires rt.Valid() && rt.At(me, action, run) && run.pc == LoopHead(action)
    requires run.cursor == cursor && run.total == totalTokenCount && run.failed == totalFailedOutcomes
    modifies rt`now, rt`procs, rt`batch, rt`schedule, rt`trace, rt.store
    ensures rt.Valid() && old(rt.trace) <= rt.trace && rt.At(me, action, run')
    ensures Follows(old(rt.Now()), rt.Now(), me)
    ensures AllOk(old(rt.schedule)) ==> early != Some(Aborted) && (early.None? ==> failed == [] && AllOk(rt.schedule))
    ensures early.Some? ==> run'.pc.Finished? && run'.failed == [] && Left(early.value, Row(rt.State(), me))
    ensures early.None? ==>
      && rt.Quieter()
      && run' == run.(pc := if page.more then LoopHead(action) else AtComplete, scan := run'.scan,
                      failed := run.failed + failed, total := run.total + |page.ids|,
                      cursor := if page.more then page.next else cursor)
      && (page.more ==> page.next > cursor)
      && (page.more && rt.schedule == old(rt.schedule) ==> page.next in rt.store.tokens.Keys)
  {
    page, failed, run' := Page([], false, 0), [], run;
    ghost var start := rt.Now();
    FollowsOne(start, me);
    if action.Update? {
      early := CheckAgain(rt, me, totalTokenCount, totalFailedOutcomes, action, run);
      if early.Some? {
        return early, page, failed, run.(pc := Finished, failed := []);
      }
    }
    ghost var checked := rt.Now();
    var err: bool;
    page, failed, err, run' := FanoutPage(rt, me, cursor, action, run.(pc := AtScope));
    FollowsOn(start, checked, rt.Now(), me);
    if err {
      ghost var failing := rt.Now();
      run' := FailLADispatchFanout(rt, me, totalTokenCount, totalFailedOutcomes, action, run');
      FollowsOn(start, failing, rt.Now(), me);
      return Some(Aborted), page, failed, run';
    }
    early := None;
  }

  /** The stale check at the top of the page loop. */
  method CheckAgain(rt: Runtime, me: nat, totalTokenCount: nat, totalFailedOutcomes: seq<Outcome>, action: Action, ghost run: Run)
    returns (early: Option<Exit>)
    requires rt.Valid() && rt.At(me, action, run) && action.Update? && run.pc.AtCheck?
    requires run.total == totalTokenCount && run.failed == totalFailedOutcomes
    modifies rt`now, rt`procs, rt`batch, rt`schedule, rt`trace, rt.store
    ensures rt.Valid() && old(rt.trace) <= rt.trace && Follows(old(rt.Now()), rt.Now(), me)
    ensures rt.At(me, action, if early.Some? then run.(pc := Finished, failed := []) else run.(pc := AtScope))
    ensures AllOk(old(rt.schedule)) ==> early != Some(Aborted) && (early.None? ==> AllOk(rt.schedule))
    ensures early.Some? ==> Left(early.value, Row(rt.State(), me))
    ensures early.None? ==> rt.Quieter()
  {
    ghost var start := rt.Now();
    FollowsOne(start, me);
    var superseded, err := rt.SupersedeIfStale(me, totalTokenCount, action, run);
    ghost var checked := rt.Now();
    if err {
      var _ := FailLADispatchFanout(rt, me, totalTokenCount, totalFailedOutcomes, action, run.(pc := AtFail));
      FollowsOn(start, checked, rt.Now(), me);
      return Some(Aborted);
    }
    if superseded {
      FollowsNext(start, checked, me);
      StopSuperseded(rt, me, totalFailedOutcomes, action, run.(pc := AtApply));
      return Some(Stopped);
    }
    return None;
  }

  /** A superseded update still records the failures it holds. */
  method StopSuperseded(rt: Runtime, me: nat, failed: seq<Outcome>, ghost action: Action, ghost run: Run)
    requires rt.Valid() && rt.At(me, action, run) && run.pc.AtApply? && failed == run.failed
    requires Row(rt.State(), me).status == Superseded
    modifies rt`now, rt`procs, rt`batch, rt`schedule, rt`trace, rt.store
    ensures rt.Valid() && old(rt.trace) <= rt.trace && rt.Now() == Next(old(rt.Now()), me)
    ensures rt.At(me, action, run.(pc := Finished, failed := [])) && Row(rt.State(), me).status == Superseded
  {
    ghost var start := rt.Now();
    var _ := rt.ApplyLAEnqueueFailures(me, failed, action, run);
    LedFrom(rt.origin, start.trace, start.s, rt.trace, rt.State(), me);
  }

  /** The page loop.  It ends under every finite schedule: each turn of it uses
      up some of the schedule or moves the cursor past a token that is there.
      Tokens inserted above the cursor for ever would keep it going. */
  method FanoutPages(rt: Runtime, me: nat, action: Action, ghost start: Run)
    returns (early: Option<Exit>, totalTokenCount: nat, totalFailedOutcomes: seq<Outcome>, ghost run: Run)
    requires rt.Valid() && rt.At(me, action, start)
    requires start == NewRun(action).(pc := LoopHead(action))
    modifies rt`now, rt`procs, rt`batch, rt`schedule, rt`trace, rt.store
    ensures rt.Valid() && old(rt.trace) <= rt.trace && rt.At(me, action, run)
    ensures Follows(old(rt.Now()), rt.Now(), me)
    ensures AllOk(old(rt.schedule)) ==> early != Some(Aborted) && (early.None? ==> totalFailedOutcomes == [] && AllOk(rt.schedule))
    ensures early.Some? ==> run.pc.Finished? && run.failed == [] && Left(early.value, Row(rt.State(), me))
    ensures early.None? ==> run.pc.AtComplete? && run.total == totalTokenCount && run.failed == totalFailedOutcomes
  {
    run := start;
    ghost var origin := rt.Now();
    FollowsOne(origin, me);
    var cursor := 0;
    totalTokenCount, totalFailedOutcomes := 0, [];
    while true
      invariant rt.Valid() && old(rt.trace) <= rt.trace && Follows(origin, rt.Now(), me)
      invariant AllOk(old(rt.schedule)) ==> totalFailedOutcomes == [] && AllOk(rt.schedule)
      invariant rt.At(me, action, run) && run.pc == LoopHead(action)
      invariant run.cursor == cursor && run.total == totalTokenCount && run.failed == totalFailedOutcomes
      decreases |rt.schedule|, |Above(rt.store.tokens.Keys, cursor)|
    {
      label Top:
      ghost var top := rt.Now();
      var stop, page, failed, run' := FanoutTurn(rt, me, cursor, totalTokenCount, totalFailedOutcomes, action, run);
      FollowsOn(origin, top, rt.Now(), me);
      run := run';
      if stop.Some? {
        return stop, totalTokenCount, totalFailedOutcomes, run;
      }
      totalFailedOutcomes := totalFailedOutcomes + failed;
      totalTokenCount := totalTokenCount + |page.ids|;
      if !page.more {
        return None, totalTokenCount, totalFailedOutcomes, run;
      }
      if rt.schedule == old@Top(rt.schedule) {
        CursorAdvances(rt.store.tokens.Keys, cursor, page.next);
      }
      cursor := page.next;
    }
  }

  /** What `FanoutLATokens` does before its page loop. */
  method Begin(rt: Runtime, me: nat, action: Action) returns (early: Option<Exit>)
    requires rt.Valid() && rt.At(me, action, NewRun(action))
    modifies rt`now, rt`procs, rt`batch, rt`schedule, rt`trace, rt.store
    ensures rt.Valid() && old(rt.trace) <= rt.trace && Follows(old(rt.Now()), rt.Now(), me)
    ensures rt.At(me, action, NewRun(action).(pc := if early.Some? then Finished else LoopHead(action)))
    ensures AllOk(old(rt.schedule)) ==> early != Some(Aborted) && AllOk(rt.schedule)
    ensures early.Some? ==> Left(early.value, Row(rt.State(), me))
  {
    ghost var start := rt.Now();
    FollowsOne(start, me);
    if action.Update? {
      early := FirstCheck(rt, me, action);
      if early.Some? {
        return;
      }
    }
    ghost var checked := rt.Now();
    early := Mark(rt, me, action);
    FollowsOn(start, checked, rt.Now(), me);
  }

  method FirstCheck(rt: Runtime, me: nat, action: Action) returns (early: Option<Exit>)
    requires rt.Valid() && rt.At(me, action, NewRun(action)) && action.Update?
    modifies rt`now, rt`procs, rt`batch, rt`schedule, rt`trace, rt.store
    ensures rt.Valid() && old(rt.trace) <= rt.trace && Follows(old(rt.Now()), rt.Now(), me)
    ensures rt.At(me, action, NewRun(action).(pc := if early.Some? then Finished else AtMark))
    ensures AllOk(old(rt.schedule)) ==> early != Some(Aborted) && AllOk(rt.schedule)
    ensures early.Some? ==> Left(early.value, Row(rt.State(), me))
  {
    ghost var run, start := NewRun(action), rt.Now();
    FollowsOne(start, me);
    var superseded, err := rt.SupersedeIfStale(me, 0, action, run);
    if err {
      ghost var checked := rt.Now();
      var _ := FailLADispatchFanout(rt, me, 0, [], action, run.(pc := AtFail));
      FollowsOn(start, checked, rt.Now(), me);
      return Some(Aborted);
    }
    return if superseded then Some(Skipped) else None;
  }

  method Mark(rt: Runtime, me: nat, action: Action) returns (early: Option<Exit>)
    requires rt.Valid() && rt.At(me, action, NewRun(action).(pc := AtMark))
    modifies rt`now, rt`procs, rt`batch, rt`schedule, rt`trace, rt.store
    ensures rt.Valid() && old(rt.trace) <= rt.trace && Follows(old(rt.Now()), rt.Now(), me)
    ensures rt.At(me, action, NewRun(action).(pc := if early.Some? then Finished else LoopHead(action)))
    ensures AllOk(old(rt.schedule)) ==> early.None? && AllOk(rt.schedule)
    ensures early.Some? ==> early.value.Aborted? && Unsent(Row(rt.State(), me))
  {
    ghost var run, start := NewRun(action).(pc := AtMark), rt.Now();
    FollowsOne(start, me);
    var err := rt.MarkInProgress(me, action, run);
    if err {
      ghost var marked := rt.Now();
      var _ := FailLADispatchFanout(rt, me, 0, [], action, run.(pc := AtFail));
      FollowsOn(start, marked, rt.Now(), me);
      return Some(Aborted);
    }
    return None;
  }

  /** What it does after its last page. */
  method End(rt: Runtime, me: nat, total: nat, failed: seq<Outcome>, action: Action, ghost run: Run) returns (exit: Exit)
    requires rt.Valid() && rt.At(me, action, run) && run.pc.AtComplete? && run.total == total && run.failed == failed
    modifies rt`now, rt`procs, rt`batch, rt`schedule, rt`trace, rt.store
    ensures rt.Valid() && old(rt.trace) <= rt.trace && rt.At(me, action, run.(pc := Finished, failed := []))
    ensures Follows(old(rt.Now()), rt.Now(), me)
    ensures AllOk(old(rt.schedule)) ==> exit == Enqueued(false)
    ensures if exit.Enqueued? then Row(rt.State(), me).status == Dispatched || Row(rt.State(), me).status == Completed
            else Left(exit, Row(rt.State(), me))
  {
    ghost var start := rt.Now();
    var err := rt.CompleteEnqueue(me, total, action, run);
    ghost var completed := rt.Now();
    if err {
      var _ := FailLADispatchFanout(rt, me, total, failed, action, run.(pc := AtFail));
      FollowsOn(start, completed, rt.Now(), me);
      return Aborted;
    }
    FollowsNext(start, completed, me);
    var applyErr := rt.ApplyLAEnqueueFailures(me, failed, action, run.(pc := AtApply));
    LedFrom(rt.origin, completed.trace, completed.s, rt.trace, rt.State(), me);
    return Enqueued(applyErr);
  }

  /** `FanoutLATokens`.  For every finite schedule of the other processes and every
      choice of failing calls, the loop ends; what it did is the run of the step
      machine that the schedule determines, with its program counter at the end.
      Without a failing call it does not abort, and a dispatch it reports as
      enqueued is DISPATCHED or COMPLETED with the tokens fetched as its total.
      With nobody in between these are the tokens the dispatch is meant for, and
      every one of them has been emitted. */
  method FanoutLATokens(rt: Runtime, me: nat, action: Action) returns (exit: Exit)
    requires rt.Valid() && rt.At(me, action, NewRun(action))
    modifies rt`now, rt`procs, rt`batch, rt`schedule, rt`trace, rt.store
    ensures rt.Valid() && old(rt.trace) <= rt.trace && Follows(old(rt.Now()), rt.Now(), me)
    ensures Running(rt.State(), me) && RunOf(rt.State(), me).pc.Finished? && RunOf(rt.State(), me).failed == []
    ensures AllOk(old(rt.schedule)) ==> !exit.Aborted? && exit != Enqueued(true)
    ensures exit.Enqueued? ==>
      && RunOf(rt.State(), me).scan.done
      && (Row(rt.State(), me).status == Dispatched || Row(rt.State(), me).status == Completed)
      && Row(rt.State(), me).total == |RunOf(rt.State(), me).scan.fetched|
    ensures exit.Skipped? || exit.Stopped? ==> Row(rt.State(), me).action == Update && Row(rt.State(), me).status == Superseded
    ensures exit.Aborted? ==> Unsent(Row(rt.State(), me))
    ensures old(rt.schedule) == [] && exit.Enqueued? ==>
      && (forall x :: x in RunOf(rt.State(), me).scan.fetched <==> Meant(old(rt.State()), me, x))
      && (forall x :: x in rt.State().procs[me].flights <==> x in RunOf(rt.State(), me).scan.fetched)
      && (forall x :: x in rt.State().procs[me].flights ==> rt.State().procs[me].flights[x].stage == Tasked)
  {
    ghost var start := rt.Now();
    var early := Begin(rt, me, action);
    if early.Some? {
      return early.value;
    }
    ghost var begun := rt.Now();
    var stopped, totalTokenCount, totalFailedOutcomes, run := FanoutPages(rt, me, action, NewRun(action).(pc := LoopHead(action)));
    FollowsOn(start, begun, rt.Now(), me);
    if stopped.Some? {
      return stopped.value;
    }
    AtCompleteIsDone(rt.origin, rt.trace, rt.State(), me);
    ghost var paged := rt.Now();
    exit := End(rt, me, totalTokenCount, totalFailedOutcomes, action, run);
    FollowsOn(start, paged, rt.Now(), me);
    if exit.Enqueued? {
      TotalIsFetched(rt.origin, rt.trace, rt.State(), me);
      if start.schedule == [] {
        UndisturbedReachesAll(rt.origin, start, rt.Now(), me);
      }
    }
  }

  lemma AtCompleteIsDone(origin: Sys, trace: seq<Step>, s: Sys, me: nat)
    requires Reaches(origin, trace, s) && Running(s, me) && RunOf(s, me).pc.AtComplete?
    ensures RunOf(s, me).scan.done
  {
    ReachesInv(origin, trace, s);
    assert LocalOk(s, me);
  }

  lemma TotalIsFetched(origin: Sys, trace: seq<Step>, s: Sys, me: nat)
    requires Reaches(origin, trace, s) && Running(s, me) && Row(s, me).status in {Dispatched, Completed}
    ensures Row(s, me).total == |RunOf(s, me).scan.fetched|
  {
    ReachesInv(origin, trace, s);
    assert LocalOk(s, me);
    CountedExactly(Row(s, me), s.procs[me], me, JobOf(s, me).activity);
  }
}
