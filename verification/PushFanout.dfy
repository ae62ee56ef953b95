/** `FanoutPushToken` as the loop it is, running against the store while the
    rest of the system moves.

    The loop is proved to be a run of the step machine for every schedule, so the
    theorems about reachable states hold of it, and to be the very run that the
    schedule determines. */
module PushFanout {
  import opened Options
  import opened PushTables
  import opened PushProtocol
  import opened PushStore
  import opened PushSchedule
  import opened Keyset

  /** The rest of the machine is kept in `around`; its row and receipts live in
      the store. */
  class Runtime {
    const store: PublishJobStore
    const job: nat
    const pageSize: nat
    var around: Cell
    var schedule: seq<Turn>
    ghost const origin: Cell
    ghost var trace: seq<Step>

    function State(): Cell
      reads this, store
      requires job in store.rows
    {
      around.(row := store.rows[job], receipts := store.receipts)
    }

    ghost function Now(): Moment
      reads this, store
      requires job in store.rows
    {
      Moment(State(), schedule, trace)
    }

    /** Everything that has happened is a run of the step machine. */
    ghost predicate Valid()
      reads this, store
    {
      store.rows.Keys == {job} && State().job == job && State().pageSize == pageSize && Reaches(origin, trace, State())
    }

    ghost predicate At(run: Run)
      reads this, store
    {
      job in store.rows && State().run == Some(run)
    }

    constructor (c: Cell, schedule: seq<Turn>)
      requires Reachable(c)
      ensures Valid() && State() == c && this.schedule == schedule && trace == [] && fresh(store)
    {
      store := new PublishJobStore(Tables(map[c.job := c.row], c.receipts));
      job, pageSize, around := c.job, c.pageSize, c;
      this.schedule := schedule;
      origin := c;
      trace := [];
      new;
      assert State() == c;
    }

    /** One step of somebody else. */
    method Other(step: Step, ghost run: Run)
      requires Valid() && At(run) && Enabled(State(), step) && !step.Work?
      modifies this`around, this`trace, store
      ensures Valid() && At(run) && trace == old(trace) + [step] && State() == Do(old(State()), step)
    {
      ReachesInv(origin, trace, State());
      OthersKeepRun(State(), step);
      ReachesNext(origin, trace, State(), step);
      var c := Do(State(), step);
      store.Reload(Tables(map[job := c.row], c.receipts));
      around := c;
      trace := trace + [step];
      assert State() == c;
    }

    /** Others act, then the worker's next call is told whether it succeeds. */
    method Yield(ghost run: Run) returns (ok: bool)
      requires Valid() && At(run)
      modifies this`around, this`schedule, this`trace, store
      ensures Valid() && At(run) && old(trace) <= trace
      ensures Now() == Met(old(Now())) && ok == NextTurn(old(schedule)).ok
      ensures if old(schedule) == [] then schedule == [] && State() == old(State()) else |schedule| < |old(schedule)|
      ensures AllOk(old(schedule)) ==> ok && AllOk(schedule)
    {
      if schedule == [] {
        return true;
      }
      var turn := schedule[0];
      schedule := schedule[1..];
      Others(turn.others, run);
      ok := turn.ok;
    }

    method Others(steps: seq<Step>, ghost run: Run)
      requires Valid() && At(run)
      modifies this`around, this`trace, store
      ensures Valid() && At(run) && old(trace) <= trace
      ensures Now() == OthersAct(old(Now()), steps)
    {
      for i := 0 to |steps|
        invariant Valid() && At(run) && old(trace) <= trace
        invariant Now() == OthersAct(old(Now()), steps[..i])
      {
        assert steps[..i + 1][..i] == steps[..i];
        if Enabled(State(), steps[i]) && !steps[i].Work? {
          Other(steps[i], run);
        }
      }
      assert steps[..|steps|] == steps;
    }

    /** The worker's next call: others act, and `next` is what the answer makes of
        the machine. */
    method Call(ghost run: Run) returns (ok: bool, next: Cell)
      requires Valid() && At(run) && !run.pc.Ended? && !CallsNothing(State())
      modifies this`around, this`schedule, this`trace, store
      ensures Valid() && At(run) && old(trace) <= trace && CanWork(State()) && next == DoWork(State(), ok)
      ensures Next(old(Now())) == Acted(Now(), ok)
      ensures Quieter()
      ensures AllOk(old(schedule)) ==> ok && AllOk(schedule)
    {
      ReachesInv(origin, trace, State());
      ok := Yield(run);
      ReachesInv(origin, trace, State());
      next := DoWork(State(), ok);
    }

    /** Either the schedule got shorter, or no token came or went. */
    twostate predicate Quieter()
      reads this
    {
      |schedule| < |old(schedule)| || (schedule == old(schedule) && around.eligible == old(around.eligible))
    }

    /** The worker's bookkeeping around one of its own statements. */
    method Commit(ok: bool, ghost was: Moment, next: Cell)
      requires Reaches(origin, trace, was.c) && CanWork(was.c) && next == DoWork(was.c, ok)
      requires trace == was.trace && schedule == was.schedule
      requires next.job == job && next.pageSize == pageSize
      requires store.rows.Keys == {job} && store.rows[job] == next.row && store.receipts == next.receipts
      modifies this`around, this`trace
      ensures Valid() && State() == next && Now() == Acted(was, ok)
    {
      ReachesNext(origin, trace, was.c, Work(ok));
      around := next;
      trace := trace + [Work(ok)];
      assert State() == next;
    }

    // ---- the store and queue calls of one fan-out run ------------------------------

    method MarkInProgress(ghost run: Run)
      requires Valid() && At(run) && run.pc.AtMark?
      modifies this`around, this`schedule, this`trace, store
      ensures Valid() && old(trace) <= trace && At(run.(pc := AtTokens))
      ensures Now() == Next(old(Now()))
      ensures AllOk(old(schedule)) ==> AllOk(schedule)
    {
      var ok, next := Call(run);
      ghost var was := Now();
      if ok {
        store.UpdateJobStatus(job, InProgress);
      }
      Commit(ok, was, next);
    }

    method GetTokenBatch(cursor: nat, ghost run: Run) returns (page: Page, err: bool, ghost run': Run)
      requires Valid() && At(run) && run.pc.AtTokens? && cursor == run.cursor
      modifies this`around, this`schedule, this`trace, store
      ensures Valid() && old(trace) <= trace && Quieter() && At(run')
      ensures Now() == Next(old(Now()))
      ensures AllOk(old(schedule)) ==> !err && AllOk(schedule)
      ensures run' == if err then run.(pc := AtFailWrite)
                      else run.(pc := AtEmit(page, 0), total := run.total + |page.ids|, scan := run'.scan)
      ensures !err && page.more ==> page.next in around.eligible && page.next > cursor
    {
      var ok, next := Call(run);
      ghost var was := Now();
      page := PageOf(around.eligible, cursor, pageSize);
      NextInside(around.eligible, cursor, pageSize);
      FetchResult(was.c, ok);
      Commit(ok, was, next);
      err := !ok;
      run' := next.run.value;
    }

    method Emit(ghost run: Run) returns (err: bool)
      requires Valid() && At(run) && run.pc.AtEmit? && run.pc.sent < |run.pc.page.ids|
      modifies this`around, this`schedule, this`trace, store
      ensures Valid() && old(trace) <= trace && Quieter()
      ensures Now() == Next(old(Now()))
      ensures AllOk(old(schedule)) ==> !err && AllOk(schedule)
      ensures At(if err then run.(pc := Ended(EmitRefused)) else Pushed(run))
    {
      var ok, next := Call(run);
      EmitResult(State(), ok, run);
      Commit(ok, Now(), next);
      err := !ok;
    }

    /** The end of a page: break, or move the cursor. */
    method NextPage(ghost run: Run)
      requires Valid() && At(run) && run.pc.AtEmit? && run.pc.sent == |run.pc.page.ids|
      modifies this`around, this`trace
      ensures Valid() && old(trace) <= trace && around.eligible == old(around.eligible)
      ensures Now() == Next(old(Now()))
      ensures At(if run.pc.page.more then run.(pc := AtTokens, cursor := run.pc.page.next) else run.(pc := AtFinalize))
    {
      ReachesInv(origin, trace, State());
      Commit(true, Now(), DoWork(State(), true));
    }

    method FinalizeJobDispatch(total: nat, ghost run: Run) returns (err: bool)
      requires Valid() && At(run) && run.pc.AtFinalize? && total == run.total
      modifies this`around, this`schedule, this`trace, store
      ensures Valid() && old(trace) <= trace
      ensures Now() == Next(old(Now()))
      ensures AllOk(old(schedule)) ==> !err && AllOk(schedule)
      ensures At(run.(pc := if err then AtFailWrite else AtRecheck))
    {
      var ok, next := Call(run);
      ghost var was := Now();
      if ok {
        store.FinalizeJobDispatch(job, total);
      }
      Commit(ok, was, next);
      err := !ok;
    }

    method CompleteJobIfDone(ghost run: Run) returns (err: bool)
      requires Valid() && At(run) && run.pc.AtRecheck?
      modifies this`around, this`schedule, this`trace, store
      ensures Valid() && old(trace) <= trace
      ensures Now() == Next(old(Now()))
      ensures AllOk(old(schedule)) ==> !err && AllOk(schedule)
      ensures At(run.(pc := Ended(if err then RecheckFailed else Rechecked)))
    {
      var ok, next := Call(run);
      ghost var was := Now();
      if ok {
        store.CompleteJobIfDone(job);
      }
      Commit(ok, was, next);
      err := !ok;
    }

    method MarkFailed(ghost run: Run) returns (err: bool)
      requires Valid() && At(run) && run.pc.AtFailWrite?
      modifies this`around, this`schedule, this`trace, store
      ensures Valid() && old(trace) <= trace
      ensures Now() == Next(old(Now()))
      ensures AllOk(old(schedule)) ==> !err && AllOk(schedule)
      ensures At(run.(pc := Ended(Abandoned(err))))
    {
      var ok, next := Call(run);
      ghost var was := Now();
      if ok {
        store.UpdateJobStatus(job, Failed);
      }
      Commit(ok, was, next);
      err := !ok;
    }
  }

  // ---- the loops ---------------------------------------------------------------------

  /** Emit the tokens of a page until one is refused. */
  method EmitPage(rt: Runtime, page: Page, ghost run: Run) returns (err: bool, ghost run': Run)
    requires rt.Valid() && rt.At(run) && run.pc == AtEmit(page, 0)
    modifies rt`around, rt`schedule, rt`trace, rt.store
    ensures rt.Valid() && old(rt.trace) <= rt.trace && rt.Quieter() && rt.At(run')
    ensures Follows(old(rt.Now()), rt.Now())
    ensures AllOk(old(rt.schedule)) ==> !err && AllOk(rt.schedule)
    ensures if err then run' == run.(pc := Ended(EmitRefused), emitted := run'.emitted)
            else run' == Pushing(run, page, |page.ids|)
  {
    ghost var start := rt.Now();
    FollowsOne(start);
    PushesMore(run, page, 0);
    for i := 0 to |page.ids|
      invariant rt.Valid() && old(rt.trace) <= rt.trace && rt.Quieter() && Follows(start, rt.Now())
      invariant AllOk(old(rt.schedule)) ==> AllOk(rt.schedule)
      invariant rt.At(Pushing(run, page, i))
    {
      FollowsNext(start, rt.Now());
      var refused := rt.Emit(Pushing(run, page, i));
      PushesMore(run, page, i);
      if refused {
        return true, Pushing(run, page, i).(pc := Ended(EmitRefused));
      }
    }
    return false, Pushing(run, page, |page.ids|);
  }

  /** Why the page loop stops early. */
  datatype Stop = Go | FetchFailed | TaskRefused

  /** Fetch one page and emit it. */
  method FanoutPage(rt: Runtime, cursor: nat, ghost run: Run) returns (page: Page, stop: Stop, ghost run': Run)
    requires rt.Valid() && rt.At(run) && run.pc.AtTokens? && run.cursor == cursor
    modifies rt`around, rt`schedule, rt`trace, rt.store
    ensures rt.Valid() && old(rt.trace) <= rt.trace && rt.Quieter() && rt.At(run')
    ensures Follows(old(rt.Now()), rt.Now())
    ensures AllOk(old(rt.schedule)) ==> stop.Go? && AllOk(rt.schedule)
    ensures match stop
            case FetchFailed => run'.pc.AtFailWrite?
            case TaskRefused => run'.pc == Ended(EmitRefused)
            case Go =>
              && run'.total == run.total + |page.ids|
              && (if page.more then run'.pc.AtTokens? && run'.cursor == page.next > cursor else run'.pc.AtFinalize?)
    ensures stop.Go? && page.more && rt.schedule == old(rt.schedule) ==> page.next in rt.around.eligible
  {
    var err: bool;
    ghost var start := rt.Now();
    FollowsOne(start);
    page, err, run' := rt.GetTokenBatch(cursor, run);
    if err {
      return page, FetchFailed, run';
    }
    ghost var fetched := rt.Now();
    stop, run' := PushPage(rt, page, run');
    FollowsOn(start, fetched, rt.Now());
  }

  /** Emit a page, and take the branch at the end of the loop body. */
  method PushPage(rt: Runtime, page: Page, ghost run: Run) returns (stop: Stop, ghost run': Run)
    requires rt.Valid() && rt.At(run) && run.pc == AtEmit(page, 0)
    modifies rt`around, rt`schedule, rt`trace, rt.store
    ensures rt.Valid() && old(rt.trace) <= rt.trace && rt.Quieter() && rt.At(run')
    ensures Follows(old(rt.Now()), rt.Now())
    ensures AllOk(old(rt.schedule)) ==> stop.Go? && AllOk(rt.schedule)
    ensures match stop
            case FetchFailed => false
            case TaskRefused => run'.pc == Ended(EmitRefused)
            case Go =>
              && run'.total == run.total
              && (if page.more then run'.pc.AtTokens? && run'.cursor == page.next else run'.pc.AtFinalize?)
  {
    ghost var start := rt.Now();
    var err: bool;
    err, run' := EmitPage(rt, page, run);
    if err {
      return TaskRefused, run';
    }
    FollowsNext(start, rt.Now());
    rt.NextPage(run');
    return Go, if page.more then run'.(pc := AtTokens, cursor := page.next) else run'.(pc := AtFinalize);
  }

  /** The two writes after the last page. */
  method Finish(rt: Runtime, total: nat, ghost run: Run) returns (how: How)
    requires rt.Valid() && rt.At(run) && run.pc.AtFinalize? && run.total == total
    modifies rt`around, rt`schedule, rt`trace, rt.store
    ensures rt.Valid() && old(rt.trace) <= rt.trace && rt.At(run.(pc := Ended(how)))
    ensures Follows(old(rt.Now()), rt.Now())
    ensures AllOk(old(rt.schedule)) ==> how == Rechecked
  {
    ghost var start := rt.Now();
    FollowsOne(start);
    var err := rt.FinalizeJobDispatch(total, run);
    FollowsNext(start, rt.Now());
    if err {
      err := rt.MarkFailed(run.(pc := AtFailWrite));
      return Abandoned(err);
    }
    err := rt.CompleteJobIfDone(run.(pc := AtRecheck));
    return if err then RecheckFailed else Rechecked;
  }

  /** `FanoutPushToken`.  Under every finite schedule of the other processes and every
      choice of failing calls the loop ends, each turn of it using up some of
      the schedule or moving the cursor past a token that is there; and what it
      did is the run of the step machine that the schedule determines.  Without a
      failing call it gets to its re-check, and then the job is DISPATCHED or
      COMPLETED with the tokens fetched as its total.  With nobody in between
      these are the eligible tokens, in order, and every one has been emitted. */
  method FanoutPushToken(rt: Runtime) returns (how: How)
    requires rt.Valid() && rt.At(NEW_RUN)
    modifies rt`around, rt`schedule, rt`trace, rt.store
    ensures rt.Valid() && old(rt.trace) <= rt.trace && Follows(old(rt.Now()), rt.Now())
    ensures rt.State().run.Some? && rt.State().run.value.pc == Ended(how)
    ensures AllOk(old(rt.schedule)) ==> how == Rechecked
    ensures how.Rechecked? || how.RecheckFailed? ==>
      && rt.State().run.value.scan.done
      && (rt.State().row.status == Dispatched || rt.State().row.status == Completed)
      && rt.State().row.total == |rt.State().run.value.scan.fetched|
    ensures how == Abandoned(false) ==> rt.State().row.status == Failed
    ensures how.EmitRefused? || how == Abandoned(true) ==> rt.State().row.status == Queued || rt.State().row.status == InProgress
    ensures old(rt.schedule) == [] ==>
      && rt.State().run.value.scan.fetched == Sorted(old(rt.around.eligible))
      && (forall x :: x in rt.State().flights <==> x in old(rt.around.eligible))
      && (forall x :: x in rt.State().flights ==> rt.State().flights[x] == Tasked)
  {
    ghost var start := rt.Now();
    how := FanoutPages(rt);
    ReachesInv(rt.origin, rt.trace, rt.State());
    if start.schedule == [] {
      UndisturbedReachesAll(rt.origin, start, rt.Now());
    }
  }

  /** One turn of the page loop; a failed fetch marks the job FAILED. */
  method FanoutTurn(rt: Runtime, cursor: nat, ghost run: Run) returns (page: Page, end: Option<How>, ghost run': Run)
    requires rt.Valid() && rt.At(run) && run.pc.AtTokens? && run.cursor == cursor
    modifies rt`around, rt`schedule, rt`trace, rt.store
    ensures rt.Valid() && old(rt.trace) <= rt.trace && Follows(old(rt.Now()), rt.Now())
    ensures AllOk(old(rt.schedule)) ==> end.None? && AllOk(rt.schedule)
    ensures if end.Some? then rt.State().run.Some? && rt.State().run.value.pc == Ended(end.value)
            else
              && rt.Quieter() && rt.At(run')
              && run'.total == run.total + |page.ids|
              && (if page.more then run'.pc.AtTokens? && run'.cursor == page.next > cursor else run'.pc.AtFinalize?)
              && (page.more && rt.schedule == old(rt.schedule) ==> page.next in rt.around.eligible)
  {
    ghost var start := rt.Now();
    var stop: Stop;
    page, stop, run' := FanoutPage(rt, cursor, run);
    match stop
    case Go => end := None;
    case TaskRefused => end := Some(EmitRefused);
    case FetchFailed =>
      FollowsNext(start, rt.Now());
      var lost := rt.MarkFailed(run');
      end := Some(Abandoned(lost));
  }

  /** The page loop. */
  method PageLoop(rt: Runtime, ghost start: Run) returns (end: Option<How>, totalTokenCount: nat, ghost run: Run)
    requires rt.Valid() && rt.At(start) && start == NEW_RUN.(pc := AtTokens)
    modifies rt`around, rt`schedule, rt`trace, rt.store
    ensures rt.Valid() && old(rt.trace) <= rt.trace && Follows(old(rt.Now()), rt.Now())
    ensures AllOk(old(rt.schedule)) ==> end.None? && AllOk(rt.schedule)
    ensures if end.Some? then rt.State().run.Some? && rt.State().run.value.pc == Ended(end.value)
            else rt.At(run) && run.pc.AtFinalize? && run.total == totalTokenCount
  {
    run := start;
    ghost var origin := rt.Now();
    FollowsOne(origin);
    var cursor := 0;
    totalTokenCount := 0;
    while true
      invariant rt.Valid() && old(rt.trace) <= rt.trace && Follows(origin, rt.Now())
      invariant AllOk(old(rt.schedule)) ==> AllOk(rt.schedule)
      invariant rt.At(run) && run.pc.AtTokens? && run.cursor == cursor && run.total == totalTokenCount
      decreases |rt.schedule|, |Above(rt.around.eligible, cursor)|
    {
      label Top:
      ghost var top := rt.Now();
      var page;
      page, end, run := FanoutTurn(rt, cursor, run);
      FollowsOn(origin, top, rt.Now());
      totalTokenCount := totalTokenCount + |page.ids|;
      if end.Some? || !page.more {
        return;
      }
      if rt.schedule == old@Top(rt.schedule) {
        CursorAdvances(rt.around.eligible, cursor, page.next);
      }
      cursor := page.next;
    }
  }

  /** The write of IN_PROGRESS, whose error is ignored, and the page loop. */
  method MarkAndPage(rt: Runtime) returns (end: Option<How>, totalTokenCount: nat, ghost run: Run)
    requires rt.Valid() && rt.At(NEW_RUN)
    modifies rt`around, rt`schedule, rt`trace, rt.store
    ensures rt.Valid() && old(rt.trace) <= rt.trace && Follows(old(rt.Now()), rt.Now())
    ensures AllOk(old(rt.schedule)) ==> end.None? && AllOk(rt.schedule)
    ensures if end.Some? then rt.State().run.Some? && rt.State().run.value.pc == Ended(end.value)
            else rt.At(run) && run.pc.AtFinalize? && run.total == totalTokenCount
  {
    ghost var start := rt.Now();
    FollowsOne(start);
    rt.MarkInProgress(NEW_RUN);
    ghost var marked := rt.Now();
    end, totalTokenCount, run := PageLoop(rt, NEW_RUN.(pc := AtTokens));
    FollowsOn(start, marked, rt.Now());
  }

  /** The body of `FanoutPushToken`. */
  method FanoutPages(rt: Runtime) returns (how: How)
    requires rt.Valid() && rt.At(NEW_RUN)
    modifies rt`around, rt`schedule, rt`trace, rt.store
    ensures rt.Valid() && old(rt.trace) <= rt.trace && Follows(old(rt.Now()), rt.Now())
    ensures rt.State().run.Some? && rt.State().run.value.pc == Ended(how)
    ensures AllOk(old(rt.schedule)) ==> how == Rechecked
  {
    ghost var start := rt.Now();
    var end, totalTokenCount, run := MarkAndPage(rt);
    if end.Some? {
      return end.value;
    }
    ghost var paged := rt.Now();
    how := Finish(rt, totalTokenCount, run);
    FollowsOn(start, paged, rt.Now());
  }
}
