/** What each dispatch keeps in every run, and the proof that every step that
    concerns the dispatch keeps it. */
module LALocal {
  import opened LATables
  import opened LABatching
  import opened LAProtocol
  import opened Keyset
  import opened Sequences

  // ---- the invariant of one dispatch -------------------------------------------

  ghost predicate Waiting(status: Status) {
    status in {EnqueuePending, Queued, InProgress}
  }

  /** Row, handler and queue agree. */
  ghost predicate RowOk(row: Dispatch, p: Proc) {
    && (row.completedAtSet <==> Terminal(row.status))
    && (row.status.Superseded? ==> row.action.Update?)
    && (p.accepted <==> p.queued || p.run.Some?)
    && (p.queued ==> p.run.None? && row.status in {EnqueuePending, Queued} && !p.statusLost)
    && (p.accepted ==> p.handler.Marking? || p.handler.Answered?)
    && (!p.accepted ==>
          && !p.handler.Marking?
          && (row.status.EnqueuePending? || row.status.Failed?)
          && (p.handler.Submitting? || p.handler.Refusing? ==> row.status.EnqueuePending? && !p.statusLost)
          && (p.handler.RefusingJob? || p.handler.Answered? ==> (row.status.EnqueuePending? <==> p.statusLost)))
    && (p.handler.RefusingJob? ==> row.action.Start?)
    && (p.run.None? ==> p.flights == map[] && row.total == 0)
  }

  ghost predicate InLoop(pc: Pc) {
    pc.AtCheck? || pc.AtScope? || pc.AtTokens? || pc.AtEmit? || pc.AtComplete?
  }

  ghost predicate Failing(pc: Pc) {
    pc.AtFailApply? || pc.AtFailStart?
  }

  /** Program counter and row agree. */
  ghost predicate RunOk(row: Dispatch, p: Proc, run: Run) {
    && (run.pc.AtFirstCheck? || run.pc.AtMark? ==>
          row.status in {EnqueuePending, Queued} && run.total == 0)
    && (run.pc.AtFirstCheck? || run.pc.AtCheck? ==> row.action.Update?)
    && (InLoop(run.pc) ==> row.status.InProgress?)
    && (run.pc.AtFollowUp? ==> row.status.Completed? && run.total == 0 && !row.action.Update?)
    && (run.pc.AtApply? ==> row.status in {Dispatched, Completed, Superseded})
    && (run.pc.AtFail? ==> Waiting(row.status) || (row.status.Completed? && run.total == 0 && !row.action.Update?))
    && (Failing(run.pc) || run.pc.Finished? ==> (Waiting(row.status) <==> p.statusLost))
    && (Failing(run.pc) ==> row.status in {EnqueuePending, Queued, InProgress, Failed} ||
                            (row.status.Completed? && run.total == 0 && !row.action.Update?))
    && (p.statusLost ==> Failing(run.pc) || run.pc.Finished?)
    && row.total == (if Waiting(row.status) then 0 else run.total)
  }

  /** Loop variables and the scan agree. */
  ghost predicate LoopOk(run: Run) {
    && ScanOk(run.scan)
    && (match run.pc
        case AtEmit(page, sent) =>
          && sent <= |page.ids|
          && run.total + |page.ids| == |run.scan.fetched|
          && run.scan.fetched[run.total..] == page.ids
          && (page.more ==> run.scan.cursor == page.next && !run.scan.done)
          && (!page.more ==> run.scan.done)
        case _ =>
          && run.total == |run.scan.fetched|
          && (run.pc.AtFirstCheck? || run.pc.AtMark? ==> run.scan == NEW_SCAN && run.cursor == 0)
          && (run.pc.AtCheck? || run.pc.AtScope? || run.pc.AtTokens? ==> !run.scan.done && run.scan.cursor == run.cursor)
          && (run.pc.AtComplete? ==> run.scan.done))
  }

  ghost predicate Pending(run: Run, x: nat) {
    run.pc.AtEmit? && run.pc.sent <= |run.pc.page.ids| && x in run.pc.page.ids[run.pc.sent..]
  }

  ghost predicate FailedOk(p: Proc, d: nat, row: Dispatch, activity: nat, o: Outcome) {
    && o.token in p.flights
    && p.flights[o.token].stage == Resolved(AtWorker, ENQUEUE_FAILED)
    && o == Outcome(d, o.token, p.flights[o.token].platform, row.action, activity, ENQUEUE_FAILED)
  }

  ghost predicate DistinctTokens(os: seq<Outcome>) {
    forall i, j :: 0 <= i < j < |os| ==> os[i].token != os[j].token
  }

  ghost predicate ListsToken(os: seq<Outcome>, x: nat) {
    exists i :: 0 <= i < |os| && os[i].token == x
  }

  /** The flights are exactly the tokens fetched; those not yet emitted and
      those refused by the task queue are the ones the worker holds. */
  ghost predicate StockOk(row: Dispatch, p: Proc, run: Run, d: nat, activity: nat) {
    && (forall x :: x in p.flights <==> x in run.scan.fetched)
    && (forall x :: x in p.flights ==> (p.flights[x].stage.Fetched? <==> Pending(run, x)))
    && (forall o :: o in run.failed ==> FailedOk(p, d, row, activity, o))
    && (forall x :: x in p.flights && p.flights[x].stage.Resolved? && p.flights[x].stage.place.AtWorker? ==>
                      ListsToken(run.failed, x))
    && DistinctTokens(run.failed)
    && (run.failed != [] ==> InLoop(run.pc) || run.pc.AtApply? || run.pc.AtFail? || run.pc.AtFailApply?)
  }

  function RecordedSent(flights: map<nat, Flight>): set<nat> {
    set x | x in flights && flights[x].stage == Resolved(Recorded, Sent)
  }

  function RecordedRejected(flights: map<nat, Flight>): set<nat> {
    set x | x in flights && flights[x].stage.Resolved? && flights[x].stage.place.Recorded? && flights[x].stage.verdict.Rejected?
  }

  /** The counters count exactly the tokens whose outcome has been recorded. */
  ghost predicate CountsOk(row: Dispatch, flights: map<nat, Flight>) {
    && row.success == |RecordedSent(flights)|
    && row.failure == |RecordedRejected(flights)|
  }

  ghost predicate BalanceOk(row: Dispatch) {
    && (row.status.Dispatched? ==> row.success + row.failure < row.total)
    && (row.status.Completed? ==> row.success + row.failure == row.total)
  }

  ghost predicate DispatchOk(row: Dispatch, p: Proc, d: nat, activity: nat) {
    && RowOk(row, p)
    && CountsOk(row, p.flights)
    && BalanceOk(row)
    && (p.run.Some? ==>
          && RunOk(row, p, p.run.value)
          && LoopOk(p.run.value)
          && StockOk(row, p, p.run.value, d, activity))
  }

  ghost predicate LocalOk(s: Sys, d: nat) {
    Known(s, d) && DispatchOk(Row(s, d), s.procs[d], d, JobOf(s, d).activity)
  }

  // ---- counting ----------------------------------------------------------------

  lemma KeysCount(p: Proc, run: Run)
    requires forall x :: x in p.flights <==> x in run.scan.fetched
    requires Increasing(run.scan.fetched)
    ensures |p.flights| == |run.scan.fetched|
  {
    IncreasingSize(run.scan.fetched);
    assert p.flights.Keys == Elements(run.scan.fetched);
  }

  /** No more outcomes are recorded than tokens were fetched. */
  lemma CountsBounded(row: Dispatch, flights: map<nat, Flight>)
    requires CountsOk(row, flights)
    ensures row.success + row.failure <= |flights|
    ensures row.success + row.failure == |flights| <==>
            forall x :: x in flights ==> flights[x].stage.Resolved? && flights[x].stage.place.Recorded?
  {
    var a, b := RecordedSent(flights), RecordedRejected(flights);
    assert a !! b && a + b <= flights.Keys;
    assert |a + b| == |a| + |b|;
    SubsetSize(a + b, flights.Keys);
    if row.success + row.failure == |flights| {
      SubsetSize(flights.Keys - (a + b), flights.Keys);
      assert |flights.Keys - (a + b)| == |flights.Keys| - |a + b|;
      assert flights.Keys == a + b;
      forall x | x in flights ensures flights[x].stage.Resolved? && flights[x].stage.place.Recorded? {
        assert x in a + b;
      }
    }
    if forall x :: x in flights ==> flights[x].stage.Resolved? && flights[x].stage.place.Recorded? {
      forall x | x in flights ensures x in a + b {
        assert flights[x].stage == Resolved(Recorded, flights[x].stage.verdict);
      }
      assert flights.Keys == a + b;
    }
  }

  lemma SameRecorded(f: map<nat, Flight>, g: map<nat, Flight>)
    requires f.Keys <= g.Keys
    requires forall x :: x in g ==>
      if x in f && f[x].stage.Resolved? && f[x].stage.place.Recorded? then g[x] == f[x]
      else !(g[x].stage.Resolved? && g[x].stage.place.Recorded?)
    ensures RecordedSent(f) == RecordedSent(g) && RecordedRejected(f) == RecordedRejected(g)
  {
  }

  // ---- recording a list of outcomes ----------------------------------------------

  /** For dispatch `d`, `os` lists exactly the outcomes at one place, once each. */
  ghost predicate Covers(os: seq<Outcome>, d: nat, flights: map<nat, Flight>, from: Place) {
    && DistinctFor(os, d)
    && (forall o :: o in os && o.dispatch == d ==>
                      o.token in flights && flights[o.token].stage == Resolved(from, o.verdict))
    && (forall x :: x in flights && flights[x].stage.Resolved? && flights[x].stage.place == from ==>
                      exists o :: o in os && o.dispatch == d && o.token == x)
  }

  function SentTokens(os: seq<Outcome>, d: nat): set<nat> {
    set o | o in os && o.dispatch == d && o.verdict.Sent? :: o.token
  }

  function RejectedTokens(os: seq<Outcome>, d: nat): set<nat> {
    set o | o in os && o.dispatch == d && o.verdict.Rejected? :: o.token
  }

  ghost predicate DistinctFor(os: seq<Outcome>, d: nat) {
    forall i, j :: 0 <= i < j < |os| && os[i].dispatch == d && os[j].dispatch == d ==> os[i].token != os[j].token
  }

  lemma TokensNext(os: seq<Outcome>, d: nat)
    requires os != [] && DistinctFor(os, d)
    ensures var init, last := os[..|os| - 1], os[|os| - 1];
      && DistinctFor(init, d)
      && SentTokens(os, d) == SentTokens(init, d) + (if last.dispatch == d && last.verdict.Sent? then {last.token} else {})
      && RejectedTokens(os, d) == RejectedTokens(init, d) + (if last.dispatch == d && last.verdict.Rejected? then {last.token} else {})
      && (last.dispatch == d ==> last.token !in SentTokens(init, d) + RejectedTokens(init, d))
  {
    var init, last := os[..|os| - 1], os[|os| - 1];
    assert forall o :: o in os <==> o in init || o == last;
    if last.dispatch == d {
      forall o | o in init && o.dispatch == d ensures o.token != last.token {
        var i :| 0 <= i < |init| && init[i] == o;
        assert os[i] == o;
      }
    }
  }

  lemma {:induction false} TokensCount(os: seq<Outcome>, d: nat)
    requires DistinctFor(os, d)
    ensures |SentTokens(os, d)| == Successes(os, d)
    ensures |RejectedTokens(os, d)| == Failures(os, d)
  {
    if os == [] {
      assert SentTokens(os, d) == {} && RejectedTokens(os, d) == {};
    } else {
      TokensNext(os, d);
      TokensCount(os[..|os| - 1], d);
    }
  }

  lemma MoveSent(f: map<nat, Flight>, os: seq<Outcome>, d: nat, from: Place)
    requires Covers(os, d, f, from) && from != Recorded
    ensures RecordedSent(Move(f, from, Recorded)) == RecordedSent(f) + SentTokens(os, d)
    ensures RecordedSent(f) !! SentTokens(os, d)
  {
    var g := Move(f, from, Recorded);
    forall x | x in RecordedSent(g) ensures x in RecordedSent(f) + SentTokens(os, d) {
      if f[x].stage != g[x].stage {
        var o :| o in os && o.dispatch == d && o.token == x;
      }
    }
    forall x | x in SentTokens(os, d) ensures x in RecordedSent(g) && x !in RecordedSent(f) {
      var o :| o in os && o.dispatch == d && o.verdict.Sent? && o.token == x;
      assert f[x].stage == Resolved(from, Sent);
    }
  }

  lemma MoveRejected(f: map<nat, Flight>, os: seq<Outcome>, d: nat, from: Place)
    requires Covers(os, d, f, from) && from != Recorded
    ensures RecordedRejected(Move(f, from, Recorded)) == RecordedRejected(f) + RejectedTokens(os, d)
    ensures RecordedRejected(f) !! RejectedTokens(os, d)
  {
    var g := Move(f, from, Recorded);
    forall x | x in RecordedRejected(g) ensures x in RecordedRejected(f) + RejectedTokens(os, d) {
      if f[x].stage != g[x].stage {
        var o :| o in os && o.dispatch == d && o.token == x;
      }
    }
    forall x | x in RejectedTokens(os, d) ensures x in RecordedRejected(g) && x !in RecordedRejected(f) {
      var o :| o in os && o.dispatch == d && o.verdict.Rejected? && o.token == x;
      assert f[x].stage == Resolved(from, o.verdict);
    }
  }

  lemma ApplyCounts(row: Dispatch, flights: map<nat, Flight>, os: seq<Outcome>, d: nat, from: Place)
    requires Covers(os, d, flights, from) && from != Recorded && CountsOk(row, flights)
    ensures CountsOk(Counted(row, os, d), Move(flights, from, Recorded))
  {
    TokensCount(os, d);
    MoveSent(flights, os, d, from);
    MoveRejected(flights, os, d, from);
  }

  lemma ApplyBalance(row: Dispatch, flights: map<nat, Flight>, os: seq<Outcome>, d: nat, from: Place)
    requires Covers(os, d, flights, from) && from != Recorded && CountsOk(row, flights) && BalanceOk(row)
    requires row.status in {Dispatched, Completed} ==> row.total == |flights|
    ensures var row' := ApplyToDispatch(row, os, d);
      BalanceOk(row') && CountsOk(row', Move(flights, from, Recorded))
  {
    ApplyCounts(row, flights, os, d, from);
    var flights' := Move(flights, from, Recorded);
    CountsBounded(Counted(row, os, d), flights');
    assert |flights'| == |flights| by {
      assert flights'.Keys == flights.Keys;
    }
    if d !in Touched(os) {
      UntouchedCounts(os, d);
    }
  }
}
