/** Why the handover needs a start that does not fail: a run in which a start
    delivers to a token, its fan-out then fails, and an update misses the token.

    One job, one token, a start dispatch 10 and an update dispatch 20. */
module LAFailedStart {
  import opened Options
  import opened LATables
  import opened LAProtocol
  import opened LASafety
  import opened LAScans
  import opened Keyset

  const JOB := Job(1, 1, UserScope(1), Active, false)
  const TOKEN := Token(1, Fcm, UpdateToken, None, false)
  const START := NewDispatch(1, Start, 0)
  const UPDATE := NewDispatch(1, Update, 1)
  const PAGE := Page([1], false, 0)
  const READ := Scan([{1}], [1], 0, true)

  /** The state as far as the run changes it. */
  function State(start: Dispatch, update: Dispatch, sp: Proc, up: Proc): Sys {
    Sys(Tables(map[1 := JOB], map[10 := start, 20 := update], map[1 := TOKEN], {}, {}), 0, map[10 := sp, 20 := up], [], 1)
  }

  /** A dispatch that is being fanned out. */
  function Busy(run: Run, flights: map<nat, Flight>): Proc {
    Proc(Marking, true, false, Some(run), flights, false, false)
  }

  function OneFlight(stage: Stage): map<nat, Flight> {
    map[1 := Flight(Fcm, stage)]
  }

  const DELIVERED := Resolved(InQueue, Sent)

  lemma Begin()
    ensures Reachable(Sys(Tables(map[1 := JOB], map[], map[1 := TOKEN], {}, {}), 0, map[], [], 1))
  {
    var s0 := Init(1);
    assert Exec(Init(1), []) == Some(s0);
    NextReachable(s0, World(0, map[1 := TOKEN], {}, {}), Do(s0, World(0, map[1 := TOKEN], {}, {})));
    var s1 := Do(s0, World(0, map[1 := TOKEN], {}, {}));
    NextReachable(s1, StartJob(1, 1, 1, UserScope(1)), Do(s1, StartJob(1, 1, 1, UserScope(1))));
    assert CreateOrGetStartJob(map[], 1, 1, 1, UserScope(1)) == map[1 := JOB];
  }

  lemma Requested()
    ensures Reachable(State(START, UPDATE, NEW_PROC, NEW_PROC))
  {
    Begin();
    var s := Sys(Tables(map[1 := JOB], map[], map[1 := TOKEN], {}, {}), 0, map[], [], 1);
    NextReachable(s, NewRequest(10, 1, Start, 0), Do(s, NewRequest(10, 1, Start, 0)));
    var s' := Do(s, NewRequest(10, 1, Start, 0));
    NextReachable(s', NewRequest(20, 1, Update, 1), Do(s', NewRequest(20, 1, Update, 1)));
    assert Do(s', NewRequest(20, 1, Update, 1)) == State(START, UPDATE, NEW_PROC, NEW_PROC);
  }

  /** Both dispatches are accepted and the start's worker takes its own. */
  lemma Taken()
    ensures Reachable(State(START, UPDATE, Busy(NewRun(Start), map[]), NEW_PROC))
  {
    Requested();
    var s := State(START, UPDATE, NEW_PROC, NEW_PROC);
    NextReachable(s, Submit(10, true), Do(s, Submit(10, true)));
    var s' := Do(s, Submit(10, true));
    NextReachable(s', Take(10), Do(s', Take(10)));
    assert Do(s', Take(10)) == State(START, UPDATE, Busy(NewRun(Start), map[]), NEW_PROC);
  }

  lemma OneRow(s: set<nat>)
    requires s == {1}
    ensures PageOf(s, 0, 1) == PAGE && ReadPage(NEW_SCAN, s, 1) == READ
  {
    assert Above(s, 0) == {1};
    var all := Sorted(Above(s, 0));
    assert 1 in all && forall x :: x in all ==> x == 1;
    assert |all| == 1 by {
      assert forall i :: 0 <= i < |all| ==> all[i] in all;
    }
    assert all == [1];
  }

  const RUNNING := START.(status := InProgress)
  const AT_TOKENS := NewRun(Start).(pc := AtTokens(true))
  const AT_EMIT := NewRun(Start).(pc := AtEmit(PAGE, 0), scan := READ)
  const AT_COMPLETE := NewRun(Start).(pc := AtComplete, scan := READ, total := 1)
  const AT_END := NewRun(Start).(pc := AtFailApply, scan := READ, total := 1)
  const FAILED := RUNNING.(status := Failed, total := 1, completedAtSet := true)

  lemma MarkStep(s: Sys)
    requires s == State(START, UPDATE, Busy(NewRun(Start), map[]), NEW_PROC)
    ensures Steps(s, Work(10, true), State(RUNNING, UPDATE, Busy(NewRun(Start).(pc := AtScope), map[]), NEW_PROC))
  {
  }

  lemma ScopeStep(s: Sys)
    requires s == State(RUNNING, UPDATE, Busy(NewRun(Start).(pc := AtScope), map[]), NEW_PROC)
    ensures Steps(s, Work(10, true), State(RUNNING, UPDATE, Busy(AT_TOKENS, map[]), NEW_PROC))
  {
    assert s.tables.dispatches[10] == RUNNING;
    assert StartPending(s.tables, 1);
  }

  lemma Scoped()
    ensures Reachable(State(RUNNING, UPDATE, Busy(AT_TOKENS, map[]), NEW_PROC))
  {
    Taken();
    var s := State(START, UPDATE, Busy(NewRun(Start), map[]), NEW_PROC);
    MarkStep(s);
    NextReachable(s, Work(10, true), Do(s, Work(10, true)));
    ScopeStep(Do(s, Work(10, true)));
    NextReachable(Do(s, Work(10, true)), Work(10, true), Do(Do(s, Work(10, true)), Work(10, true)));
  }

  lemma Restaged(stage: Stage, stage': Stage)
    ensures OneFlight(stage)[1 := Flight(Fcm, stage')] == OneFlight(stage')
    ensures OneFlight(stage)[1] == Flight(Fcm, stage)
  {
  }

  lemma FirstFetch(p: Proc)
    requires p.flights == map[]
    ensures FetchFlights(p, map[1 := TOKEN], PAGE) == OneFlight(Fetched)
  {
  }

  lemma StartSees(s: Sys)
    requires s == State(RUNNING, UPDATE, Busy(AT_TOKENS, map[]), NEW_PROC)
    ensures Known(s, 10) && TokenSet(s, 10, true) == {1}
  {
    assert Selected(s.tables, 0, JOB, Start, true, 1);
  }

  lemma ReadStep(s: Sys)
    requires s == State(RUNNING, UPDATE, Busy(AT_TOKENS, map[]), NEW_PROC)
    ensures Steps(s, Work(10, true), State(RUNNING, UPDATE, Busy(AT_EMIT, OneFlight(Fetched)), NEW_PROC))
  {
    StartSees(s);
    OneRow(TokenSet(s, 10, true));
    FirstFetch(s.procs[10]);
    assert s.procs[10] == Busy(AT_TOKENS, map[]);
  }

  lemma Read()
    ensures Reachable(State(RUNNING, UPDATE, Busy(AT_EMIT, OneFlight(Fetched)), NEW_PROC))
  {
    Scoped();
    var s := State(RUNNING, UPDATE, Busy(AT_TOKENS, map[]), NEW_PROC);
    ReadStep(s);
    NextReachable(s, Work(10, true), Do(s, Work(10, true)));
  }

  lemma EmitStep(s: Sys)
    requires s == State(RUNNING, UPDATE, Busy(AT_EMIT, OneFlight(Fetched)), NEW_PROC)
    ensures Steps(s, Work(10, true), State(RUNNING, UPDATE, Busy(AT_EMIT.(pc := AtEmit(PAGE, 1)), OneFlight(Tasked)), NEW_PROC))
  {
    Restaged(Fetched, Tasked);
    assert s.procs[10] == Busy(AT_EMIT, OneFlight(Fetched));
  }

  lemma EmittedStep(s: Sys)
    requires s == State(RUNNING, UPDATE, Busy(AT_EMIT.(pc := AtEmit(PAGE, 1)), OneFlight(Tasked)), NEW_PROC)
    ensures Steps(s, Work(10, true), State(RUNNING, UPDATE, Busy(AT_COMPLETE, OneFlight(Tasked)), NEW_PROC))
  {
  }

  lemma Emitted()
    ensures Reachable(State(RUNNING, UPDATE, Busy(AT_COMPLETE, OneFlight(Tasked)), NEW_PROC))
  {
    Read();
    var s := State(RUNNING, UPDATE, Busy(AT_EMIT, OneFlight(Fetched)), NEW_PROC);
    EmitStep(s);
    NextReachable(s, Work(10, true), Do(s, Work(10, true)));
    EmittedStep(Do(s, Work(10, true)));
    NextReachable(Do(s, Work(10, true)), Work(10, true), Do(Do(s, Work(10, true)), Work(10, true)));
  }

  lemma SendStep(s: Sys)
    requires s == State(RUNNING, UPDATE, Busy(AT_COMPLETE, OneFlight(Tasked)), NEW_PROC)
    ensures Steps(s, StartSend(10, 1), State(RUNNING, UPDATE, Busy(AT_COMPLETE, OneFlight(Sending)), NEW_PROC))
  {
    Restaged(Tasked, Sending);
    assert s.procs[10] == Busy(AT_COMPLETE, OneFlight(Tasked));
  }

  lemma SentStep(s: Sys)
    requires s == State(RUNNING, UPDATE, Busy(AT_COMPLETE, OneFlight(Sending)), NEW_PROC)
    ensures Steps(s, EndSend(10, 1, Sent, true), State(RUNNING, UPDATE, Busy(AT_COMPLETE, OneFlight(DELIVERED)), NEW_PROC))
  {
    Restaged(Sending, DELIVERED);
    assert s.procs[10] == Busy(AT_COMPLETE, OneFlight(Sending));
  }

  lemma Delivered()
    ensures Reachable(State(RUNNING, UPDATE, Busy(AT_COMPLETE, OneFlight(DELIVERED)), NEW_PROC))
  {
    Emitted();
    var s := State(RUNNING, UPDATE, Busy(AT_COMPLETE, OneFlight(Tasked)), NEW_PROC);
    SendStep(s);
    NextReachable(s, StartSend(10, 1), Do(s, StartSend(10, 1)));
    SentStep(Do(s, StartSend(10, 1)));
    NextReachable(Do(s, StartSend(10, 1)), EndSend(10, 1, Sent, true), Do(Do(s, StartSend(10, 1)), EndSend(10, 1, Sent, true)));
  }

  lemma CompleteFails(s: Sys)
    requires s == State(RUNNING, UPDATE, Busy(AT_COMPLETE, OneFlight(DELIVERED)), NEW_PROC)
    ensures Steps(s, Work(10, false), State(RUNNING, UPDATE, Busy(AT_COMPLETE.(pc := AtFail), OneFlight(DELIVERED)), NEW_PROC))
  {
  }

  lemma FailStep(s: Sys)
    requires s == State(RUNNING, UPDATE, Busy(AT_COMPLETE.(pc := AtFail), OneFlight(DELIVERED)), NEW_PROC)
    ensures Steps(s, Work(10, true), State(FAILED, UPDATE, Busy(AT_END, OneFlight(DELIVERED)), NEW_PROC))
  {
  }

  /** The write that completes the enqueue fails, and the start is marked FAILED. */
  lemma StartFailed()
    ensures Reachable(State(FAILED, UPDATE, Busy(AT_END, OneFlight(DELIVERED)), NEW_PROC))
  {
    Delivered();
    var s := State(RUNNING, UPDATE, Busy(AT_COMPLETE, OneFlight(DELIVERED)), NEW_PROC);
    CompleteFails(s);
    NextReachable(s, Work(10, false), Do(s, Work(10, false)));
    FailStep(Do(s, Work(10, false)));
    NextReachable(Do(s, Work(10, false)), Work(10, true), Do(Do(s, Work(10, false)), Work(10, true)));
  }

  function Updating(update: Dispatch, run: Run): Sys {
    State(FAILED, update, Busy(AT_END, OneFlight(DELIVERED)), Busy(run, map[]))
  }

  lemma UpdateTaken()
    ensures Reachable(Updating(UPDATE, NewRun(Update)))
  {
    StartFailed();
    var s := State(FAILED, UPDATE, Busy(AT_END, OneFlight(DELIVERED)), NEW_PROC);
    var s1 := DoSubmit(s, 20, true);
    NextReachable(s, Submit(20, true), s1);
    UpdateStarts(s1);
    NextReachable(s1, Take(20), Updating(UPDATE, NewRun(Update)));
  }

  lemma UpdateStarts(s: Sys)
    requires s == DoSubmit(State(FAILED, UPDATE, Busy(AT_END, OneFlight(DELIVERED)), NEW_PROC), 20, true)
    ensures Steps(s, Take(20), Updating(UPDATE, NewRun(Update)))
  {
  }

  const BUSY := UPDATE.(status := InProgress)
  const NOTHING := Scan([{}], [], 0, true)

  lemma NotStale(update: Dispatch, run: Run)
    requires update.createdAt == 1
    ensures !Stale(Updating(update, run).tables, 20)
  {
  }

  lemma NotPending(update: Dispatch, run: Run)
    requires update.action.Update?
    ensures !StartPending(Updating(update, run).tables, 1)
  {
  }

  lemma NoRows(s: set<nat>)
    requires s == {}
    ensures PageOf(s, 0, 1) == Page([], false, 0) && ReadPage(NEW_SCAN, s, 1) == NOTHING
  {
    assert Above(s, 0) == {};
  }

  lemma Extend(s: Sys, steps: seq<Step>, mid: Sys)
    requires Exec(s, steps) == Some(mid) && UsableAtReads(s, steps, 20, 1, false)
    requires Enabled(mid, Work(20, true)) && Usable(mid, 20, 1)
    ensures var longer := steps + [Work(20, true)];
      Exec(s, longer) == Some(Do(mid, Work(20, true))) && UsableAtReads(s, longer, 20, 1, false)
  {
    var longer := steps + [Work(20, true)];
    assert longer[..|longer| - 1] == steps;
  }

  lemma AlwaysUsable(update: Dispatch, run: Run)
    requires update.job == 1
    ensures Usable(Updating(update, run), 20, 1)
  {
  }

  lemma Checks(run: Run)
    requires run == NewRun(Update)
    ensures Steps(Updating(UPDATE, run), Work(20, true), Updating(UPDATE, run.(pc := AtMark)))
    ensures Steps(Updating(UPDATE, run.(pc := AtMark)), Work(20, true), Updating(BUSY, run.(pc := AtCheck)))
  {
    NotStale(UPDATE, run);
  }

  lemma Scopes(run: Run)
    requires run == NewRun(Update)
    ensures Steps(Updating(BUSY, run.(pc := AtCheck)), Work(20, true), Updating(BUSY, run.(pc := AtScope)))
    ensures Steps(Updating(BUSY, run.(pc := AtScope)), Work(20, true), Updating(BUSY, run.(pc := AtTokens(false))))
  {
    NotStale(BUSY, run.(pc := AtCheck));
    NotPending(BUSY, run.(pc := AtScope));
  }

  lemma UpdateSees(s: Sys)
    requires s == Updating(BUSY, NewRun(Update).(pc := AtTokens(false)))
    ensures Known(s, 20) && TokenSet(s, 20, false) == {}
  {
  }

  lemma ReadsNothing(run: Run)
    requires run == NewRun(Update)
    ensures Steps(Updating(BUSY, run.(pc := AtTokens(false))), Work(20, true),
                  Updating(BUSY, run.(pc := AtEmit(Page([], false, 0), 0), scan := NOTHING)))
  {
    var s := Updating(BUSY, run.(pc := AtTokens(false)));
    UpdateSees(s);
    NoRows(TokenSet(s, 20, false));
    assert FetchFlights(s.procs[20], s.tables.tokens, Page([], false, 0)) == map[];
    assert s.procs[20] == Busy(run.(pc := AtTokens(false)), map[]);
  }

  /** The run: the start was delivered to the token before the update read
      anything, the token stays usable, and the update reads its last page
      without it.  Only the start's failure tells it apart from the runs of the
      handover theorem. */
  lemma FailedStartMisses() returns (s: Sys, steps: seq<Step>)
    ensures Reachable(s) && Unread(s, 20) && Row(s, 20).action != Start
    ensures StartDelivered(s, 10, 1) && Row(s, 10).job == Row(s, 20).job
    ensures Exec(s, steps).Some? && UsableAtReads(s, steps, 20, 1, false)
    ensures var s' := Exec(s, steps).value;
      && Running(s', 20) && RunOf(s', 20).scan.done && 1 !in RunOf(s', 20).scan.fetched
      && 10 in s'.tables.dispatches && s'.tables.dispatches[10].status.Failed?
  {
    var run := NewRun(Update);
    UpdateTaken();
    s, steps := Updating(UPDATE, run), [];
    steps := Walk(run);
  }

  lemma Walk(run: Run) returns (steps: seq<Step>)
    requires run == NewRun(Update)
    ensures var s := Updating(UPDATE, run);
      && UsableAtReads(s, steps, 20, 1, false)
      && Exec(s, steps) == Some(Updating(BUSY, run.(pc := AtEmit(Page([], false, 0), 0), scan := NOTHING)))
  {
    var s := Updating(UPDATE, run);
    var w := [Work(20, true)];
    Checks(run);
    Scopes(run);
    ReadsNothing(run);
    AlwaysUsable(UPDATE, run);
    Extend(s, [], s);
    AlwaysUsable(UPDATE, run.(pc := AtMark));
    Extend(s, [] + w, Updating(UPDATE, run.(pc := AtMark)));
    AlwaysUsable(BUSY, run.(pc := AtCheck));
    Extend(s, [] + w + w, Updating(BUSY, run.(pc := AtCheck)));
    AlwaysUsable(BUSY, run.(pc := AtScope));
    Extend(s, [] + w + w + w, Updating(BUSY, run.(pc := AtScope)));
    AlwaysUsable(BUSY, run.(pc := AtTokens(false)));
    Extend(s, [] + w + w + w + w, Updating(BUSY, run.(pc := AtTokens(false))));
    steps := [] + w + w + w + w + w;
  }
}
