/** The publish-job invariant and the theorems about every run. */
module PushSafety {
  import opened Options
  import opened PushTables
  import opened PushProtocol
  import opened Keyset
  import opened Sequences

  ghost predicate Early(status: JobStatus) {
    status in {Queued, InProgress}
  }

  /** The copies of the job there have been, wherever they are now. */
  function Copies(c: Cell): nat {
    c.entry.claimed + c.entry.refused + c.entry.settled + |c.entry.entered|
    + if c.entry.handler.Creating? && c.row.scheduledAt.None? then 1 else 0
  }

  ghost predicate InTime(c: Cell) {
    c.row.scheduledAt.Some? ==>
      && (c.entry.claimed > 0 ==> c.row.scheduledAt.value <= c.now)
      && (forall i :: 0 <= i < |c.entry.entered| ==> c.row.scheduledAt.value <= c.entry.entered[i])
  }

  /** SCHEDULED is the only status in which a copy can still be made, and leaving
      it makes one. */
  ghost predicate EntryOk(c: Cell) {
    && (c.row.completedAtSet <==> c.row.status.Completed?)
    && Copies(c) == (if c.row.status.Scheduled? then 0 else 1)
    && c.entry.queued + (if c.run.Some? then 1 else 0) == |c.entry.entered|
    && InTime(c)
    && (c.run.None? ==> c.flights == map[] && c.row.total == 0 && c.row.success == 0 && c.row.failure == 0 && !c.flushedLate)
    && c.entry.lost <= c.entry.settled
    && (c.run.None? && !c.row.status.Scheduled? ==>
          c.row.status == if c.entry.settled > c.entry.lost then Failed else Queued)
  }

  ghost predicate Finalised(pc: Pc) {
    pc.AtRecheck? || (pc.Ended? && (pc.how.Rechecked? || pc.how.RecheckFailed?))
  }

  ghost predicate RunOk(c: Cell, run: Run) {
    && (Finalised(run.pc) <==> c.row.status in {Dispatched, Completed})
    && (!Finalised(run.pc) ==>
          c.row.total == 0 && !c.flushedLate &&
          if run.pc == Ended(Abandoned(false)) then c.row.status.Failed? else Early(c.row.status))
    && (Finalised(run.pc) ==> c.row.total == run.total && run.scan.done && (run.total == 0 ==> c.row.status.Completed?))
    && (c.row.status.Dispatched? && Done(c.row) ==> !c.flushedLate && run.pc != Ended(Rechecked))
    && (c.row.status.Completed? && run.total > 0 && run.pc != Ended(Rechecked) ==> c.flushedLate)
  }

  ghost predicate LoopOk(run: Run) {
    && ScanOk(run.scan)
    && run.total == |run.scan.fetched|
    && (match run.pc
        case AtMark => run.scan == NEW_SCAN && run.cursor == 0 && run.emitted == 0
        case AtTokens => !run.scan.done && run.scan.cursor == run.cursor && run.emitted == run.total
        case AtEmit(page, sent) =>
          && sent <= |page.ids| <= run.total
          && run.emitted == run.total - |page.ids| + sent
          && run.scan.fetched[run.total - |page.ids|..] == page.ids
          && (page.more ==> !run.scan.done && run.scan.cursor == page.next)
          && (!page.more ==> run.scan.done)
        case AtFinalize => run.scan.done && run.emitted == run.total
        case AtRecheck => run.emitted == run.total
        case AtFailWrite => run.emitted == run.total
        case Ended(how) => if how.EmitRefused? then run.emitted < run.total else run.emitted == run.total)
  }

  /** The flights are the tokens fetched, and those emitted are a prefix of them. */
  ghost predicate StockOk(c: Cell, run: Run) {
    && (forall x :: x in c.flights <==> x in run.scan.fetched)
    && run.emitted <= |run.scan.fetched|
    && (forall i :: 0 <= i < |run.scan.fetched| ==>
          run.scan.fetched[i] in c.flights && (c.flights[run.scan.fetched[i]].Fetched? <==> i >= run.emitted))
  }

  function RecordedAs(flights: map<nat, Stage>, sent: bool): set<nat> {
    set x | x in flights && flights[x] == Resolved(Recorded, sent)
  }

  /** The counters and the failure receipts count exactly the recorded outcomes. */
  ghost predicate CountsOk(c: Cell) {
    && c.row.success == |RecordedAs(c.flights, true)|
    && c.row.failure == |RecordedAs(c.flights, false)|
    && c.row.failure == Failures(c.receipts, c.job)
  }

  ghost predicate Inv(c: Cell) {
    && c.pageSize >= 1 && 0 !in c.eligible
    && EntryOk(c)
    && CountsOk(c)
    && (c.row.status.Completed? ==> c.row.success + c.row.failure == c.row.total)
    && (c.run.Some? ==> RunOk(c, c.run.value) && LoopOk(c.run.value) && StockOk(c, c.run.value))
  }

  lemma InitInv(job: nat, scheduledAt: Option<nat>, pageSize: nat)
    requires pageSize >= 1
    ensures Inv(Init(job, scheduledAt, pageSize))
  {
    assert RecordedAs(map[], true) == {} && RecordedAs(map[], false) == {};
  }

  // ---- counting ---------------------------------------------------------------------

  ghost predicate AllRecorded(flights: map<nat, Stage>) {
    forall x :: x in flights ==> flights[x].Resolved? && flights[x].place.Recorded?
  }

  lemma RecordedParts(flights: map<nat, Stage>)
    ensures var a, b := RecordedAs(flights, true), RecordedAs(flights, false);
      && a + b <= flights.Keys && |a + b| == |a| + |b|
      && (a + b == flights.Keys <==> AllRecorded(flights))
  {
    var a, b := RecordedAs(flights, true), RecordedAs(flights, false);
    assert a !! b;
    if AllRecorded(flights) {
      forall x | x in flights ensures x in a + b {
        assert flights[x] == Resolved(Recorded, flights[x].sent);
      }
    } else {
      var x :| x in flights && !(flights[x].Resolved? && flights[x].place.Recorded?);
      assert x !in a + b;
    }
  }

  lemma CountsBounded(c: Cell)
    requires CountsOk(c) && c.run.Some? && StockOk(c, c.run.value) && Increasing(c.run.value.scan.fetched)
    ensures c.row.success + c.row.failure <= |c.run.value.scan.fetched|
    ensures c.row.success + c.row.failure == |c.run.value.scan.fetched| <==> AllRecorded(c.flights)
  {
    var ids := c.run.value.scan.fetched;
    IncreasingSize(ids);
    assert c.flights.Keys == Elements(ids);
    RecordedParts(c.flights);
    SubsetSize(RecordedAs(c.flights, true) + RecordedAs(c.flights, false), c.flights.Keys);
  }

  lemma SameRecorded(f: map<nat, Stage>, g: map<nat, Stage>)
    requires f.Keys <= g.Keys
    requires forall x :: x in g ==>
      if x in f && f[x].Resolved? && f[x].place.Recorded? then g[x] == f[x] else !(g[x].Resolved? && g[x].place.Recorded?)
    ensures forall sent :: RecordedAs(f, sent) == RecordedAs(g, sent)
  {
  }

  // ---- the fan-out's steps -------------------------------------------------------------

  lemma FetchLoop(run: Run, eligible: set<nat>, size: nat)
    requires LoopOk(run) && run.pc.AtTokens? && size >= 1
    ensures var page := PageOf(eligible, run.cursor, size);
      LoopOk(run.(pc := AtEmit(page, 0), total := run.total + |page.ids|, scan := ReadPage(run.scan, eligible, size)))
  {
    ReadPageOk(run.scan, eligible, size);
  }

  /** `c'` is `c` after one more page has been read. */
  ghost predicate Fetches(c: Cell, c': Cell)
    requires c.run.Some? && c.pageSize >= 1
  {
    var run, page := c.run.value, PageOf(c.eligible, c.run.value.cursor, c.pageSize);
    && c'.run == Some(run.(pc := AtEmit(page, 0), total := run.total + |page.ids|,
                           scan := ReadPage(run.scan, c.eligible, c.pageSize)))
    && c'.flights == c.flights + (map x | x in page.ids :: Fetched)
    && c'.row == c.row && c'.receipts == c.receipts && c'.job == c.job
    && c'.pageSize == c.pageSize && c'.eligible == c.eligible
  }

  lemma FetchRow(c: Cell)
    requires EntryOk(c) && CanWork(c) && RunOk(c, c.run.value) && c.run.value.pc.AtTokens?
    ensures Fetches(c, DoWork(c, true))
    ensures EntryOk(DoWork(c, true)) && RunOk(DoWork(c, true), DoWork(c, true).run.value)
  {
  }

  lemma FetchKeeps(c: Cell, c': Cell)
    requires Inv(c) && c.run.Some? && c.run.value.pc.AtTokens? && c.pageSize >= 1
    requires Fetches(c, c') && EntryOk(c') && RunOk(c', c'.run.value)
    ensures Inv(c')
  {
    var run := c.run.value;
    var page := PageOf(c.eligible, run.cursor, c.pageSize);
    FetchLoop(run, c.eligible, c.pageSize);
    FetchNew(c, run, page);
    SameRecorded(c.flights, c'.flights);
    FetchStock(c, c', run, c'.run.value, page);
  }

  lemma TokensOk(c: Cell)
    requires Inv(c) && CanWork(c) && c.run.value.pc.AtTokens?
    ensures Inv(DoWork(c, true))
  {
    FetchRow(c);
    FetchKeeps(c, DoWork(c, true));
  }

  lemma FetchNew(c: Cell, run: Run, page: Page)
    requires StockOk(c, run) && ScanOk(run.scan) && !run.scan.done && run.scan.cursor == run.cursor && c.pageSize >= 1
    requires page == PageOf(c.eligible, run.cursor, c.pageSize)
    ensures forall x :: x in page.ids ==> x !in c.flights
  {
    PageContents(c.eligible, run.cursor, c.pageSize);
  }

  lemma FetchStock(c: Cell, c': Cell, run: Run, run': Run, page: Page)
    requires StockOk(c, run) && run.emitted == |run.scan.fetched| && run'.emitted == run.emitted
    requires run'.scan.fetched == run.scan.fetched + page.ids
    requires forall x :: x in page.ids ==> x !in c.flights
    requires c'.flights == c.flights + map x | x in page.ids :: Fetched
    ensures StockOk(c', run')
  {
    forall i | 0 <= i < |run'.scan.fetched|
      ensures run'.scan.fetched[i] in c'.flights && (c'.flights[run'.scan.fetched[i]].Fetched? <==> i >= run'.emitted)
    {
      if i < |run.scan.fetched| {
        assert run'.scan.fetched[i] == run.scan.fetched[i];
      } else {
        assert run'.scan.fetched[i] in page.ids;
      }
    }
  }

  lemma EmitStock(c: Cell, c': Cell, run: Run, run': Run, x: nat)
    requires StockOk(c, run) && Increasing(run.scan.fetched)
    requires run.emitted < |run.scan.fetched| && x == run.scan.fetched[run.emitted]
    requires c'.flights == c.flights[x := Tasked] && run'.scan == run.scan && run'.emitted == run.emitted + 1
    ensures StockOk(c', run') && x in c.flights && c.flights[x].Fetched?
  {
  }

  lemma EmitLoop(run: Run)
    requires LoopOk(run) && run.pc.AtEmit? && run.pc.sent < |run.pc.page.ids|
    ensures LoopOk(run.(pc := AtEmit(run.pc.page, run.pc.sent + 1), emitted := run.emitted + 1))
    ensures run.pc.page.ids[run.pc.sent] == run.scan.fetched[run.emitted]
  {
    assert run.pc.page.ids[run.pc.sent] == run.scan.fetched[run.total - |run.pc.page.ids|..][run.pc.sent];
  }

  lemma EmitRow(c: Cell)
    requires EntryOk(c) && CanWork(c) && RunOk(c, c.run.value)
    requires c.run.value.pc.AtEmit? && c.run.value.pc.sent < |c.run.value.pc.page.ids|
    ensures Emits(c, DoWork(c, true))
    ensures EntryOk(DoWork(c, true)) && RunOk(DoWork(c, true), DoWork(c, true).run.value)
  {
  }

  /** `c'` is `c` after one more token has been emitted. */
  ghost predicate Emits(c: Cell, c': Cell)
    requires c.run.Some? && c.run.value.pc.AtEmit? && c.run.value.pc.sent < |c.run.value.pc.page.ids|
  {
    var run := c.run.value;
    && c'.run == Some(run.(pc := AtEmit(run.pc.page, run.pc.sent + 1), emitted := run.emitted + 1))
    && c'.flights == c.flights[run.pc.page.ids[run.pc.sent] := Tasked]
    && c'.row == c.row && c'.receipts == c.receipts && c'.job == c.job
    && c'.pageSize == c.pageSize && c'.eligible == c.eligible
  }

  lemma EmitKeeps(c: Cell, c': Cell)
    requires Inv(c) && c.run.Some? && c.run.value.pc.AtEmit? && c.run.value.pc.sent < |c.run.value.pc.page.ids|
    requires Emits(c, c') && EntryOk(c') && RunOk(c', c'.run.value)
    ensures Inv(c')
  {
    var run := c.run.value;
    EmitLoop(run);
    EmitStock(c, c', run, c'.run.value, run.pc.page.ids[run.pc.sent]);
    SameRecorded(c.flights, c'.flights);
  }

  lemma EmitOneOk(c: Cell)
    requires Inv(c) && CanWork(c) && c.run.value.pc.AtEmit? && c.run.value.pc.sent < |c.run.value.pc.page.ids|
    ensures Inv(DoWork(c, true))
  {
    EmitRow(c);
    EmitKeeps(c, DoWork(c, true));
  }

  lemma EmitOk(c: Cell, ok: bool)
    requires Inv(c) && CanWork(c) && c.run.value.pc.AtEmit?
    ensures Inv(DoWork(c, ok))
  {
    var run := c.run.value;
    if run.pc.sent < |run.pc.page.ids| && ok {
      EmitOneOk(c);
    } else {
      assert StockOk(DoWork(c, ok), DoWork(c, ok).run.value);
    }
  }

  lemma LateOk(c: Cell, ok: bool)
    requires Inv(c) && CanWork(c) && (c.run.value.pc.AtFinalize? || c.run.value.pc.AtRecheck? || c.run.value.pc.AtFailWrite?)
    ensures Inv(DoWork(c, ok))
  {
    CountsBounded(c);
  }

  lemma WorkOk(c: Cell, ok: bool)
    requires Inv(c) && CanWork(c)
    ensures Inv(DoWork(c, ok))
  {
    match c.run.value.pc
    case AtTokens => if ok { TokensOk(c); }
    case AtEmit(_, _) => EmitOk(c, ok);
    case AtMark =>
    case _ => LateOk(c, ok);
  }

  // ---- sends and batches ------------------------------------------------------------------

  lemma RestageOk(c: Cell, x: nat, stage: Stage)
    requires Inv(c) && x in c.flights && !c.flights[x].Fetched?
    requires c.flights[x].Resolved? ==> c.flights[x].place.InQueue?
    requires !stage.Fetched? && !(stage.Resolved? && stage.place.Recorded?)
    ensures Inv(c.(flights := c.flights[x := stage]))
  {
    var c' := c.(flights := c.flights[x := stage]);
    SameRecorded(c.flights, c'.flights);
    assert c.run.Some?;
    assert StockOk(c', c.run.value);
  }

  function TokensOf(rs: seq<Receipt>, j: nat, sent: bool): set<nat> {
    set r | r in rs && r.job == j && r.sent == sent :: r.token
  }

  ghost predicate Distinct(rs: seq<Receipt>, j: nat) {
    forall i, k :: 0 <= i < k < |rs| && rs[i].job == j && rs[k].job == j ==> rs[i].token != rs[k].token
  }

  lemma TokensNext(rs: seq<Receipt>, j: nat)
    requires rs != [] && Distinct(rs, j)
    ensures var init, last := rs[..|rs| - 1], rs[|rs| - 1];
      && Distinct(init, j)
      && (forall sent :: TokensOf(rs, j, sent) ==
            TokensOf(init, j, sent) + (if last.job == j && last.sent == sent then {last.token} else {}))
      && (last.job == j ==> last.token !in TokensOf(init, j, last.sent))
  {
    var init, last := rs[..|rs| - 1], rs[|rs| - 1];
    assert forall r :: r in rs <==> r in init || r == last;
    if last.job == j {
      forall r | r in init && r.job == j ensures r.token != last.token {
        var i :| 0 <= i < |init| && init[i] == r;
        assert rs[i] == r;
      }
    }
  }

  lemma {:induction false} TokensCount(rs: seq<Receipt>, j: nat)
    requires Distinct(rs, j)
    ensures |TokensOf(rs, j, true)| == Sent(rs, j) && |TokensOf(rs, j, false)| == Failures(rs, j)
  {
    if rs == [] {
      assert TokensOf(rs, j, true) == {} && TokensOf(rs, j, false) == {};
    } else {
      TokensNext(rs, j);
      TokensCount(rs[..|rs| - 1], j);
    }
  }

  lemma OneFailure(r: Receipt, j: nat)
    ensures Failures([r], j) == if r.job == j && !r.sent then 1 else 0
  {
    assert [r][..0] == [];
  }

  lemma {:induction false} FailedOnlyCounts(rs: seq<Receipt>, j: nat)
    ensures Failures(FailedOnly(rs), j) == Failures(rs, j)
  {
    if rs == [] {
    } else {
      var init, last := rs[..|rs| - 1], rs[|rs| - 1];
      FailedOnlyCounts(init, j);
      OneFailure(last, j);
      ReceiptsAdd(FailedOnly(init), [last], j);
      assert last.sent ==> FailedOnly(rs) == FailedOnly(init);
    }
  }

  lemma RecordCounts(c: Cell, batch: seq<Receipt>, sent: bool)
    requires Covers(c, batch)
    ensures RecordedAs(Record(c.flights), sent) == RecordedAs(c.flights, sent) + TokensOf(batch, c.job, sent)
    ensures RecordedAs(c.flights, sent) !! TokensOf(batch, c.job, sent)
  {
    var f, g := c.flights, Record(c.flights);
    forall x | x in RecordedAs(g, sent) ensures x in RecordedAs(f, sent) + TokensOf(batch, c.job, sent) {
      if f[x] != g[x] {
        assert Batched(c, x);
        var r :| r in batch && r.job == c.job && r.token == x;
      }
    }
    forall x | x in TokensOf(batch, c.job, sent) ensures x in RecordedAs(g, sent) && x !in RecordedAs(f, sent) {
      var r :| r in batch && r.job == c.job && r.sent == sent && r.token == x;
      assert f[x] == Resolved(InBatch, sent);
    }
  }

  lemma FlushCounts(c: Cell, batch: seq<Receipt>)
    requires CountsOk(c) && Covers(c, batch)
    ensures CountsOk(c.(row := Counted(c.row, batch, c.job), receipts := c.receipts + FailedOnly(batch), flights := Record(c.flights)))
  {
    TokensCount(batch, c.job);
    RecordCounts(c, batch, true);
    RecordCounts(c, batch, false);
    ReceiptsAdd(c.receipts, FailedOnly(batch), c.job);
    FailedOnlyCounts(batch, c.job);
  }

  lemma RecordStock(c: Cell, c': Cell, run: Run)
    requires StockOk(c, run) && c'.flights == Record(c.flights)
    ensures StockOk(c', run)
  {
  }

  lemma FlushOk(c: Cell, batch: seq<Receipt>)
    requires Inv(c) && Covers(c, batch)
    ensures Inv(DoFlush(c, batch))
  {
    var c' := DoFlush(c, batch);
    FlushCounts(c, batch);
    if c.job !in Touched(batch) {
      UntouchedReceipts(batch, c.job);
      assert c'.row == Counted(c.row, batch, c.job);
    }
    if c.run.None? {
      forall r | r in batch ensures r.job != c.job {
        assert r.job == c.job ==> r.token in c.flights;
      }
      assert c'.flights == map[];
    } else {
      var counted := c.(row := Counted(c.row, batch, c.job), receipts := c'.receipts, flights := c'.flights);
      RecordStock(c, c', c.run.value);
      RecordStock(c, counted, c.run.value);
      CountsBounded(counted);
    }
  }

  /** The handler, the scheduler and the queue, and the tokens moving on. */
  lemma EntryStepOk(c: Cell, step: Step)
    requires Inv(c) && Enabled(c, step)
    requires !step.Work? && !step.StartSend? && !step.EndSend? && !step.Collect? && !step.Flush?
    ensures Inv(Do(c, step))
  {
  }

  lemma InvStep(c: Cell, step: Step)
    requires Inv(c) && Enabled(c, step)
    ensures Inv(Do(c, step))
  {
    match step
    case Work(ok) => WorkOk(c, ok);
    case StartSend(x) => RestageOk(c, x, Sending);
    case EndSend(x, sent, queued) => RestageOk(c, x, Resolved(if queued then InQueue else Dropped, sent));
    case Collect(x) => RestageOk(c, x, Resolved(InBatch, c.flights[x].sent));
    case Flush(batch, ok) => if ok { FlushOk(c, batch); }
    case _ => EntryStepOk(c, step);
  }

  lemma {:induction false} RunInv(c: Cell, steps: seq<Step>)
    requires Inv(c) && Exec(c, steps).Some?
    ensures Inv(Exec(c, steps).value)
  {
    if steps == [] {
    } else {
      RunInv(c, steps[..|steps| - 1]);
      InvStep(Exec(c, steps[..|steps| - 1]).value, steps[|steps| - 1]);
    }
  }

  lemma ReachableInv(c: Cell)
    requires Reachable(c)
    ensures Inv(c)
  {
    var job: nat, scheduledAt, pageSize: nat, steps :|
      pageSize >= 1 && Exec(Init(job, scheduledAt, pageSize), steps) == Some(c);
    InitInv(job, scheduledAt, pageSize);
    RunInv(Init(job, scheduledAt, pageSize), steps);
  }
}
