/** Every step of the machine keeps the invariant of the dispatch it acts on. */
module LASteps {
  import opened Options
  import opened LATables
  import opened LAProtocol
  import opened LALocal
  import opened Keyset

  lemma KeepStock(row: Dispatch, row': Dispatch, p: Proc, p': Proc, run: Run, run': Run, d: nat, activity: nat)
    requires StockOk(row, p, run, d, activity)
    requires row'.action == row.action && p'.flights == p.flights
    requires run'.scan == run.scan && run'.failed == run.failed
    requires forall x :: Pending(run', x) <==> Pending(run, x)
    requires run'.failed != [] ==> InLoop(run'.pc) || run'.pc.AtApply? || run'.pc.AtFail? || run'.pc.AtFailApply?
    ensures StockOk(row', p', run', d, activity)
  {
    forall o | o in run'.failed ensures FailedOk(p', d, row', activity, o) {
      assert FailedOk(p, d, row, activity, o);
    }
  }

  lemma FirstCheckOk(s: Sys, d: nat, ok: bool)
    requires LocalOk(s, d) && CanWork(s, d) && RunOf(s, d).pc.AtFirstCheck?
    ensures LocalOk(WorkFirstCheck(s, d, ok), d)
  {
    var s' := WorkFirstCheck(s, d, ok);
    KeepStock(Row(s, d), Row(s', d), s.procs[d], s'.procs[d], RunOf(s, d), RunOf(s', d), d, JobOf(s, d).activity);
  }

  lemma MarkOk(s: Sys, d: nat, ok: bool)
    requires LocalOk(s, d) && CanWork(s, d) && RunOf(s, d).pc.AtMark?
    ensures LocalOk(WorkMark(s, d, ok), d)
  {
    var s' := WorkMark(s, d, ok);
    KeepStock(Row(s, d), Row(s', d), s.procs[d], s'.procs[d], RunOf(s, d), RunOf(s', d), d, JobOf(s, d).activity);
  }

  lemma CheckOk(s: Sys, d: nat, ok: bool)
    requires LocalOk(s, d) && CanWork(s, d) && RunOf(s, d).pc.AtCheck?
    ensures LocalOk(WorkCheck(s, d, ok), d)
  {
    var s' := WorkCheck(s, d, ok);
    KeepStock(Row(s, d), Row(s', d), s.procs[d], s'.procs[d], RunOf(s, d), RunOf(s', d), d, JobOf(s, d).activity);
  }

  lemma ScopeOk(s: Sys, d: nat, ok: bool)
    requires LocalOk(s, d) && CanWork(s, d) && RunOf(s, d).pc.AtScope?
    ensures LocalOk(WorkScope(s, d, ok), d)
  {
    var s' := WorkScope(s, d, ok);
    KeepStock(Row(s, d), Row(s', d), s.procs[d], s'.procs[d], RunOf(s, d), RunOf(s', d), d, JobOf(s, d).activity);
  }

  lemma TokensOk(s: Sys, d: nat, ok: bool)
    requires LocalOk(s, d) && CanWork(s, d) && RunOf(s, d).pc.AtTokens?
    ensures LocalOk(WorkTokens(s, d, ok), d)
  {
    var s' := WorkTokens(s, d, ok);
    var run, run', p, p' := RunOf(s, d), RunOf(s', d), s.procs[d], s'.procs[d];
    if !ok {
      KeepStock(Row(s, d), Row(s', d), p, p', run, run', d, JobOf(s, d).activity);
    } else {
      var matching := TokenSet(s, d, run.pc.startPending);
      FetchValue(Row(s, d), p, run, p', run', d, JobOf(s, d).activity, s.tables.tokens, matching, s.pageSize);
    }
  }

  lemma FetchValue(row: Dispatch, p: Proc, run: Run, p': Proc, run': Run, d: nat, activity: nat,
                   tokens: map<nat, Token>, matching: set<nat>, pageSize: nat)
    requires DispatchOk(row, p, d, activity) && p.run == Some(run) && run.pc.AtTokens? && pageSize >= 1
    requires forall x :: x in matching ==> x in tokens
    requires run' == run.(pc := AtEmit(PageOf(matching, run.cursor, pageSize), 0),
                          scan := ReadPage(run.scan, matching, pageSize))
    requires p' == p.(flights := FetchFlights(p, tokens, run'.pc.page), run := Some(run'))
    ensures DispatchOk(row, p', d, activity)
  {
    FetchLoop(run, run', matching, pageSize);
    assert forall x :: x in run'.pc.page.ids ==> x in tokens by {
      PageContents(matching, run.cursor, pageSize);
    }
    FetchStock(row, p, run, p', run', d, activity, tokens);
    FetchMoves(row, p, run, p', run');
  }

  lemma FetchMoves(row: Dispatch, p: Proc, run: Run, p': Proc, run': Run)
    requires RowOk(row, p) && RunOk(row, p, run) && p.run == Some(run)
    requires run.pc.AtTokens? && run'.pc.AtEmit? && run'.total == run.total
    requires p' == p.(flights := p'.flights, run := Some(run'))
    ensures RowOk(row, p') && RunOk(row, p', run')
  {
  }

  lemma FetchLoop(run: Run, run': Run, matching: set<nat>, pageSize: nat)
    requires LoopOk(run) && run.pc.AtTokens? && pageSize >= 1
    requires run' == run.(pc := AtEmit(PageOf(matching, run.cursor, pageSize), 0),
                          scan := ReadPage(run.scan, matching, pageSize))
    ensures LoopOk(run') && run'.scan.fetched == run.scan.fetched + run'.pc.page.ids
    ensures forall x :: x in run'.pc.page.ids ==> x !in run.scan.fetched
  {
    ReadPageOk(run.scan, matching, pageSize);
    PageContents(matching, run.cursor, pageSize);
  }

  /** The tokens of the page become flights the worker holds. */
  lemma FetchStock(row: Dispatch, p: Proc, run: Run, p': Proc, run': Run, d: nat, activity: nat,
                   tokens: map<nat, Token>)
    requires StockOk(row, p, run, d, activity) && CountsOk(row, p.flights) && run.pc.AtTokens?
    requires run'.pc.AtEmit? && run'.pc.sent == 0 && run'.failed == run.failed
    requires run'.scan.fetched == run.scan.fetched + run'.pc.page.ids
    requires forall x :: x in run'.pc.page.ids ==> x in tokens && x !in run.scan.fetched
    requires p'.flights == FetchFlights(p, tokens, run'.pc.page)
    ensures StockOk(row, p', run', d, activity) && CountsOk(row, p'.flights)
  {
    assert run'.pc.page.ids[0..] == run'.pc.page.ids;
    SameRecorded(p.flights, p'.flights);
    forall o | o in run'.failed ensures FailedOk(p', d, row, activity, o) {
      assert FailedOk(p, d, row, activity, o);
    }
  }

  lemma EmitOk(s: Sys, d: nat, ok: bool)
    requires LocalOk(s, d) && CanWork(s, d) && RunOf(s, d).pc.AtEmit?
    ensures LocalOk(WorkEmit(s, d, ok), d)
  {
    var s' := WorkEmit(s, d, ok);
    var run, run', p, p' := RunOf(s, d), RunOf(s', d), s.procs[d], s'.procs[d];
    var page, sent := run.pc.page, run.pc.sent;
    if sent < |page.ids| {
      EmitOneOk(s, d, ok);
    } else {
      EmitEndValue(Row(s, d), p, run, p', run', d, JobOf(s, d).activity);
    }
  }

  lemma EmitEndValue(row: Dispatch, p: Proc, run: Run, p': Proc, run': Run, d: nat, activity: nat)
    requires DispatchOk(row, p, d, activity) && p.run == Some(run) && run.pc.AtEmit?
    requires var page := run.pc.page;
      && run.pc.sent >= |page.ids|
      && run' == (if page.more then run.(pc := LoopHead(row.action), total := run.total + |page.ids|, cursor := page.next)
                  else run.(pc := AtComplete, total := run.total + |page.ids|))
      && p' == p.(run := Some(run'))
    ensures DispatchOk(row, p', d, activity)
  {
    assert run.pc.page.ids[run.pc.sent..] == [];
    KeepStock(row, row, p, p', run, run', d, activity);
  }

  lemma EmitPending(run: Run, run': Run)
    requires LoopOk(run) && run.pc.AtEmit? && run.pc.sent < |run.pc.page.ids|
    requires run'.pc == AtEmit(run.pc.page, run.pc.sent + 1)
    ensures var x := run.pc.page.ids[run.pc.sent];
      Pending(run, x) && forall y :: Pending(run', y) <==> Pending(run, y) && y != x
  {
    var ids, sent := run.pc.page.ids, run.pc.sent;
    var x, rest := ids[sent], ids[sent + 1..];
    assert Increasing(ids) by {
      assert forall i :: 0 <= i < |ids| ==> ids[i] == run.scan.fetched[run.total + i];
    }
    assert ids[sent..] == [x] + rest;
    forall y | y in rest ensures y != x {
      var i :| 0 <= i < |rest| && rest[i] == y;
      assert ids[sent + 1 + i] == y;
    }
  }

  lemma EmitTasked(row: Dispatch, p: Proc, run: Run, p': Proc, run': Run, x: nat, d: nat, activity: nat)
    requires StockOk(row, p, run, d, activity) && x in p.flights && p.flights[x].stage.Fetched?
    requires p'.flights == p.flights[x := p.flights[x].(stage := Tasked)]
    requires run'.scan == run.scan && run'.failed == run.failed && run.pc.AtEmit? && run'.pc.AtEmit?
    requires forall y :: Pending(run', y) <==> Pending(run, y) && y != x
    ensures StockOk(row, p', run', d, activity)
  {
    forall o | o in run'.failed ensures FailedOk(p', d, row, activity, o) {
      assert FailedOk(p, d, row, activity, o);
    }
  }

  lemma EmitRefused(row: Dispatch, p: Proc, run: Run, p': Proc, run': Run, x: nat, d: nat, activity: nat)
    requires StockOk(row, p, run, d, activity) && x in p.flights && p.flights[x].stage.Fetched?
    requires p'.flights == p.flights[x := p.flights[x].(stage := Resolved(AtWorker, ENQUEUE_FAILED))]
    requires run'.failed == run.failed + [Outcome(d, x, p.flights[x].platform, row.action, activity, ENQUEUE_FAILED)]
    requires run'.scan == run.scan && run.pc.AtEmit? && run'.pc.AtEmit?
    requires forall y :: Pending(run', y) <==> Pending(run, y) && y != x
    ensures StockOk(row, p', run', d, activity)
  {
    var o := run'.failed[|run.failed|];
    forall q | q in run'.failed ensures FailedOk(p', d, row, activity, q) {
      if q in run.failed {
        assert FailedOk(p, d, row, activity, q);
      }
    }
    AppendDistinct(p, run, o);
    forall y | y in p'.flights && p'.flights[y].stage.Resolved? && p'.flights[y].stage.place.AtWorker?
      ensures ListsToken(run'.failed, y)
    {
      if y == x {
        assert run'.failed[|run.failed|].token == x;
      } else {
        var i :| 0 <= i < |run.failed| && run.failed[i].token == y;
        assert run'.failed[i].token == y;
      }
    }
  }

  lemma AppendDistinct(p: Proc, run: Run, o: Outcome)
    requires DistinctTokens(run.failed) && o.token in p.flights && p.flights[o.token].stage.Fetched?
    requires forall q :: q in run.failed ==> q.token in p.flights && p.flights[q.token].stage.Resolved?
    ensures DistinctTokens(run.failed + [o])
  {
    assert forall i :: 0 <= i < |run.failed| ==> run.failed[i] in run.failed;
  }

  lemma EmitMoves(row: Dispatch, p: Proc, run: Run, p': Proc, run': Run)
    requires RowOk(row, p) && RunOk(row, p, run) && LoopOk(run) && p.run == Some(run)
    requires run.pc.AtEmit? && run.pc.sent < |run.pc.page.ids|
    requires run' == run.(pc := AtEmit(run.pc.page, run.pc.sent + 1), failed := run'.failed)
    requires p' == p.(flights := p'.flights, run := Some(run'))
    ensures RowOk(row, p') && RunOk(row, p', run') && LoopOk(run')
  {
  }

  lemma EmitOneValue(row: Dispatch, p: Proc, run: Run, p': Proc, run': Run, d: nat, activity: nat, ok: bool)
    requires DispatchOk(row, p, d, activity) && p.run == Some(run) && run.pc.AtEmit?
    requires run.pc.sent < |run.pc.page.ids|
    requires var x := run.pc.page.ids[run.pc.sent];
      && x in p.flights
      && run' == run.(pc := AtEmit(run.pc.page, run.pc.sent + 1), failed := run'.failed)
      && p' == p.(flights := p'.flights, run := Some(run'))
      && if ok then run'.failed == run.failed && p'.flights == p.flights[x := p.flights[x].(stage := Tasked)]
         else run'.failed == run.failed + [Outcome(d, x, p.flights[x].platform, row.action, activity, ENQUEUE_FAILED)]
              && p'.flights == p.flights[x := p.flights[x].(stage := Resolved(AtWorker, ENQUEUE_FAILED))]
    ensures DispatchOk(row, p', d, activity)
  {
    var x := run.pc.page.ids[run.pc.sent];
    assert x in run.pc.page.ids[run.pc.sent..];
    assert p.flights[x].stage.Fetched? by {
      assert Pending(run, x);
    }
    assert CountsOk(row, p'.flights) by {
      SameRecorded(p.flights, p'.flights);
    }
    EmitMoves(row, p, run, p', run');
    assert StockOk(row, p', run', d, activity) by {
      EmitPending(run, run');
      if ok {
        EmitTasked(row, p, run, p', run', x, d, activity);
      } else {
        EmitRefused(row, p, run, p', run', x, d, activity);
      }
    }
  }

  lemma EmitOneOk(s: Sys, d: nat, ok: bool)
    requires LocalOk(s, d) && CanWork(s, d) && RunOf(s, d).pc.AtEmit?
    requires RunOf(s, d).pc.sent < |RunOf(s, d).pc.page.ids|
    ensures LocalOk(WorkEmit(s, d, ok), d)
  {
    var s' := WorkEmit(s, d, ok);
    EmitOneValue(Row(s, d), s.procs[d], RunOf(s, d), s'.procs[d], RunOf(s', d), d, JobOf(s, d).activity, ok);
  }

  lemma FetchedAll(p: Proc, run: Run, row: Dispatch, d: nat, activity: nat)
    requires StockOk(row, p, run, d, activity) && LoopOk(run) && !run.pc.AtEmit?
    ensures |p.flights| == run.total
  {
    KeysCount(p, run);
  }

  lemma FailedFly(row: Dispatch, p: Proc, run: Run, d: nat, activity: nat)
    requires StockOk(row, p, run, d, activity)
    ensures run.failed != [] ==> |p.flights| > 0
  {
    if run.failed != [] {
      assert FailedOk(p, d, row, activity, run.failed[0]);
      assert run.failed[0].token in p.flights.Keys;
    }
  }

  lemma CompleteMoves(row: Dispatch, row': Dispatch, p: Proc, run: Run, p': Proc, run': Run)
    requires RowOk(row, p) && RunOk(row, p, run) && LoopOk(run) && p.run == Some(run) && run.pc.AtComplete?
    requires run' == run.(pc := run'.pc) && p' == p.(run := Some(run'))
    requires if run.total == 0 then row' == CompleteEmpty(row) && run'.pc == (if row.action.Update? then AtApply else AtFollowUp)
             else row' == CompleteIfReady(MarkDispatched(row, run.total)) && run'.pc.AtApply?
    ensures RowOk(row', p') && RunOk(row', p', run') && LoopOk(run') && row'.action == row.action
  {
  }

  lemma CompleteValue(row: Dispatch, row': Dispatch, p: Proc, run: Run, p': Proc, run': Run, d: nat, activity: nat)
    requires DispatchOk(row, p, d, activity) && p.run == Some(run) && run.pc.AtComplete?
    requires run' == run.(pc := run'.pc) && p' == p.(run := Some(run'))
    requires if run.total == 0 then row' == CompleteEmpty(row) && run'.pc == (if row.action.Update? then AtApply else AtFollowUp)
             else row' == CompleteIfReady(MarkDispatched(row, run.total)) && run'.pc.AtApply?
    ensures DispatchOk(row', p', d, activity)
  {
    CompleteMoves(row, row', p, run, p', run');
    assert BalanceOk(row') && CountsOk(row', p'.flights) by {
      FetchedAll(p, run, row, d, activity);
      CountsBounded(row, p.flights);
    }
    assert StockOk(row', p', run', d, activity) by {
      FetchedAll(p, run, row, d, activity);
      FailedFly(row, p, run, d, activity);
      KeepStock(row, row', p, p', run, run', d, activity);
    }
  }

  lemma CompleteOk(s: Sys, d: nat, ok: bool)
    requires LocalOk(s, d) && CanWork(s, d) && RunOf(s, d).pc.AtComplete?
    ensures LocalOk(WorkComplete(s, d, ok), d)
  {
    var s' := WorkComplete(s, d, ok);
    if ok {
      CompleteValue(Row(s, d), Row(s', d), s.procs[d], RunOf(s, d), s'.procs[d], RunOf(s', d), d, JobOf(s, d).activity);
    } else {
      KeepStock(Row(s, d), Row(s', d), s.procs[d], s'.procs[d], RunOf(s, d), RunOf(s', d), d, JobOf(s, d).activity);
    }
  }

  lemma FollowUpOk(s: Sys, d: nat, ok: bool)
    requires LocalOk(s, d) && CanWork(s, d) && RunOf(s, d).pc.AtFollowUp?
    ensures LocalOk(WorkFollowUp(s, d, ok), d)
  {
    var s' := WorkFollowUp(s, d, ok);
    KeepStock(Row(s, d), Row(s', d), s.procs[d], s'.procs[d], RunOf(s, d), RunOf(s', d), d, JobOf(s, d).activity);
  }

  lemma FailOk(s: Sys, d: nat, ok: bool)
    requires LocalOk(s, d) && CanWork(s, d) && RunOf(s, d).pc.AtFail?
    ensures LocalOk(WorkFail(s, d, ok), d)
  {
    var s' := WorkFail(s, d, ok);
    KeepStock(Row(s, d), Row(s', d), s.procs[d], s'.procs[d], RunOf(s, d), RunOf(s', d), d, JobOf(s, d).activity);
  }

  lemma FailStartOk(s: Sys, d: nat, ok: bool)
    requires LocalOk(s, d) && CanWork(s, d) && RunOf(s, d).pc.AtFailStart?
    ensures LocalOk(WorkFailStart(s, d, ok), d)
  {
    var s' := WorkFailStart(s, d, ok);
    assert Known(s', d) && Row(s', d) == Row(s, d);
    GotoValue(Row(s, d), s.procs[d], RunOf(s, d), s'.procs[d], RunOf(s', d), d, JobOf(s, d).activity);
  }

  /** Moving on with nothing held keeps the row, the counters and the flights. */
  lemma GotoValue(row: Dispatch, p: Proc, run: Run, p': Proc, run': Run, d: nat, activity: nat)
    requires DispatchOk(row, p, d, activity) && p.run == Some(run)
    requires (run.pc.AtFailStart? && run'.pc.Finished?)
          || (run.failed == [] && ((run.pc.AtApply? && run'.pc.Finished?) || (run.pc.AtFailApply? && run'.pc.AtFailStart?)))
    requires run' == run.(pc := run'.pc) && p' == p.(run := Some(run'), followLost := p'.followLost)
    ensures DispatchOk(row, p', d, activity)
  {
    KeepStock(row, row, p, p', run, run', d, activity);
  }

  // ---- recording the worker's own failures ------------------------------------------

  lemma FailedCovers(row: Dispatch, p: Proc, run: Run, d: nat, activity: nat)
    requires StockOk(row, p, run, d, activity)
    ensures Covers(run.failed, d, p.flights, AtWorker)
    ensures run.failed != [] ==> d in Touched(run.failed)
    ensures forall e :: e != d ==> e !in Touched(run.failed)
  {
    forall x | x in p.flights && p.flights[x].stage.Resolved? && p.flights[x].stage.place.AtWorker?
      ensures exists o :: o in run.failed && o.dispatch == d && o.token == x
    {
      assert ListsToken(run.failed, x);
      var i :| 0 <= i < |run.failed| && run.failed[i].token == x;
      assert FailedOk(p, d, row, activity, run.failed[i]) && run.failed[i] in run.failed;
    }
    forall o | o in run.failed ensures FailedOk(p, d, row, activity, o) {
    }
    if run.failed != [] {
      assert run.failed[0] in run.failed;
    }
  }

  lemma NoneAtWorker(row: Dispatch, row': Dispatch, p: Proc, p': Proc, run: Run, run': Run, d: nat, activity: nat, to: Place)
    requires StockOk(row, p, run, d, activity) && !run.pc.AtEmit? && !run'.pc.AtEmit? && !to.AtWorker?
    requires p'.flights == Move(p.flights, AtWorker, to) && run'.scan == run.scan && run'.failed == []
    ensures StockOk(row', p', run', d, activity)
  {
  }

  lemma ApplyCounts(row: Dispatch, p: Proc, run: Run, d: nat, activity: nat, ok: bool)
    requires DispatchOk(row, p, d, activity) && p.run == Some(run) && run.failed != []
    requires run.pc.AtApply? || run.pc.AtFailApply?
    ensures var row' := if ok then ApplyToDispatch(row, run.failed, d) else row;
      BalanceOk(row') && CountsOk(row', Move(p.flights, AtWorker, if ok then Recorded else Dropped))
  {
    if ok {
      FailedCovers(row, p, run, d, activity);
      FetchedAll(p, run, row, d, activity);
      ApplyBalance(row, p.flights, run.failed, d, AtWorker);
    } else {
      SameRecorded(p.flights, Move(p.flights, AtWorker, Dropped));
    }
  }

  lemma ApplyValue(row: Dispatch, p: Proc, run: Run, p': Proc, run': Run, d: nat, activity: nat, ok: bool)
    requires DispatchOk(row, p, d, activity) && p.run == Some(run) && run.failed != []
    requires (run.pc.AtApply? && run'.pc.Finished?) || (run.pc.AtFailApply? && run'.pc.AtFailStart?)
    requires run' == run.(pc := run'.pc, failed := [])
    requires p' == p.(flights := Move(p.flights, AtWorker, if ok then Recorded else Dropped), run := Some(run'))
    ensures DispatchOk(if ok then ApplyToDispatch(row, run.failed, d) else row, p', d, activity)
  {
    var row' := if ok then ApplyToDispatch(row, run.failed, d) else row;
    ApplyCounts(row, p, run, d, activity, ok);
    assert StockOk(row', p', run', d, activity) by {
      NoneAtWorker(row, row', p, p', run, run', d, activity, if ok then Recorded else Dropped);
    }
    ApplyRow(row, row', p, run, run', p', d);
  }

  lemma ApplyOk(s: Sys, d: nat, ok: bool, next: Pc)
    requires LocalOk(s, d) && CanWork(s, d)
    requires (RunOf(s, d).pc.AtApply? && next.Finished?) || (RunOf(s, d).pc.AtFailApply? && next.AtFailStart?)
    ensures LocalOk(WorkApply(s, d, ok, next), d)
  {
    var s' := WorkApply(s, d, ok, next);
    var run, p, row, activity := RunOf(s, d), s.procs[d], Row(s, d), JobOf(s, d).activity;
    if run.failed == [] {
      GotoValue(row, p, run, s'.procs[d], RunOf(s', d), d, activity);
    } else {
      ApplyValue(row, p, run, s'.procs[d], RunOf(s', d), d, activity, ok);
    }
  }

  lemma ApplyRow(row: Dispatch, row': Dispatch, p: Proc, run: Run, run': Run, p': Proc, d: nat)
    requires RowOk(row, p) && RunOk(row, p, run) && LoopOk(run) && p.run == Some(run)
    requires (run.pc.AtApply? && run'.pc.Finished?) || (run.pc.AtFailApply? && run'.pc.AtFailStart?)
    requires run' == run.(pc := run'.pc, failed := [])
    requires p' == p.(flights := p'.flights, run := Some(run'))
    requires row' == row || row' == ApplyToDispatch(row, run.failed, d)
    ensures RowOk(row', p') && RunOk(row', p', run') && LoopOk(run')
  {
  }

  /** Every statement of the fan-out worker keeps its dispatch's invariant. */
  lemma WorkOk(s: Sys, d: nat, ok: bool)
    requires LocalOk(s, d) && CanWork(s, d)
    ensures LocalOk(DoWork(s, d, ok), d)
  {
    match RunOf(s, d).pc
    case AtFirstCheck => FirstCheckOk(s, d, ok);
    case AtMark => MarkOk(s, d, ok);
    case AtCheck => CheckOk(s, d, ok);
    case AtScope => ScopeOk(s, d, ok);
    case AtTokens(_) => TokensOk(s, d, ok);
    case AtEmit(_, _) => EmitOk(s, d, ok);
    case AtComplete => CompleteOk(s, d, ok);
    case AtFollowUp => FollowUpOk(s, d, ok);
    case AtApply => ApplyOk(s, d, ok, Finished);
    case AtFail => FailOk(s, d, ok);
    case AtFailApply => ApplyOk(s, d, ok, AtFailStart);
    case AtFailStart => FailStartOk(s, d, ok);
  }
}
