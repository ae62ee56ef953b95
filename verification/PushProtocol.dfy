/** The life of one publish job as a step machine: how it enters the job queue,
    its fan-out, its sends, and the outcome batches that race the fan-out.

    Publish jobs share no row, and a batch acts on each row by that row's own
    receipts, so the runs of one job under arbitrary steps of the others are
    the runs of this machine. */
module PushProtocol {
  import opened Options
  import opened PushTables
  import opened Keyset

  datatype Place = InQueue | InBatch | Recorded | Dropped
  datatype Stage = Fetched | Tasked | Sending | Resolved(place: Place, sent: bool)

  /** The handler that created the job, before and after its `enqueueImmediateJob`. */
  datatype Handler = Creating | Answered

  /** Copies of the job on their way to the job queue.  `claimed` are in the
      hands of scheduler ticks, any number of which may run at once; `refused` wait
      for their FAILED write; `settled` have had it, `lost` among them in vain;
      `entered` lists when a submit was accepted; `queued` are in the queue. */
  datatype Entry = Entry(handler: Handler, claimed: nat, refused: nat, settled: nat, lost: nat, entered: seq<nat>, queued: nat)

  /** How `FanoutPushToken` returned. */
  datatype How = Rechecked | RecheckFailed | EmitRefused | Abandoned(writeLost: bool)

  /** The next statement of `FanoutPushToken`. */
  datatype Pc = AtMark | AtTokens | AtEmit(page: Page, sent: nat) | AtFinalize | AtRecheck | AtFailWrite | Ended(how: How)

  /** `emitted` counts the tokens handed to the task queue. */
  datatype Run = Run(pc: Pc, cursor: nat, total: nat, emitted: nat, scan: Scan)

  /** `flushedLate` records that a batch touched the row after it was finalised. */
  datatype Cell = Cell(job: nat, row: PushRow, entry: Entry,
                       run: Option<Run>, flights: map<nat, Stage>, receipts: seq<Receipt>, flushedLate: bool,
                       now: nat, eligible: set<nat>, pageSize: nat)

  datatype Step =
    | World(now: nat, eligible: set<nat>)
    | HandlerSubmit(ok: bool)
    | Claim
    | SchedulerSubmit(ok: bool)
    | RefuseWrite(ok: bool)
    | Take
    | Work(ok: bool)
    | StartSend(x: nat)
    | EndSend(x: nat, sent: bool, queued: bool)
    | Collect(x: nat)
    | Flush(batch: seq<Receipt>, ok: bool)

  function Init(job: nat, scheduledAt: Option<nat>, pageSize: nat): Cell {
    Cell(job, NewJob(scheduledAt), Entry(Creating, 0, 0, 0, 0, [], 0),
         None, map[], [], false, 0, {}, pageSize)
  }

  const NEW_RUN := Run(AtMark, 0, 0, 0, NEW_SCAN)

  function SetRun(c: Cell, run: Run): Cell {
    c.(run := Some(run))
  }

  function Goto(c: Cell, pc: Pc): Cell
    requires c.run.Some?
  {
    SetRun(c, c.run.value.(pc := pc))
  }

  predicate CanWork(c: Cell) {
    c.run.Some? && !c.run.value.pc.Ended? && c.pageSize >= 1
  }

  /** One statement of the fan-out.  The status writes ignore their errors. */
  function DoWork(c: Cell, ok: bool): Cell
    requires CanWork(c)
  {
    var run := c.run.value;
    match run.pc
    case AtMark =>
      Goto(if ok then c.(row := SetStatus(c.row, InProgress)) else c, AtTokens)
    case AtTokens =>
      var page := PageOf(c.eligible, run.cursor, c.pageSize);
      if !ok then Goto(c, AtFailWrite)
      else SetRun(c.(flights := c.flights + map x | x in page.ids :: Fetched),
                  run.(pc := AtEmit(page, 0), total := run.total + |page.ids|, scan := ReadPage(run.scan, c.eligible, c.pageSize)))
    case AtEmit(page, sent) =>
      if sent < |page.ids| then
        if ok then SetRun(c.(flights := c.flights[page.ids[sent] := Tasked]),
                          run.(pc := AtEmit(page, sent + 1), emitted := run.emitted + 1))
        else Goto(c, Ended(EmitRefused))
      else if page.more then SetRun(c, run.(pc := AtTokens, cursor := page.next))
      else Goto(c, AtFinalize)
    case AtFinalize =>
      if ok then Goto(c.(row := Finalize(c.row, run.total)), AtRecheck) else Goto(c, AtFailWrite)
    case AtRecheck =>
      if ok then Goto(c.(row := CompleteIfDone(c.row)), Ended(Rechecked)) else Goto(c, Ended(RecheckFailed))
    case AtFailWrite =>
      if ok then Goto(c.(row := SetStatus(c.row, Failed)), Ended(Abandoned(false))) else Goto(c, Ended(Abandoned(true)))
    case Ended(_) => c
  }

  predicate Batched(c: Cell, x: nat) {
    x in c.flights && c.flights[x].Resolved? && c.flights[x].place.InBatch?
  }

  /** For this job the batch lists exactly the outcomes waiting in it, once each. */
  predicate Covers(c: Cell, batch: seq<Receipt>) {
    && (forall i, k :: 0 <= i < k < |batch| && batch[i].job == c.job && batch[k].job == c.job ==> batch[i].token != batch[k].token)
    && (forall r :: r in batch && r.job == c.job ==> r.token in c.flights && c.flights[r.token] == Resolved(InBatch, r.sent))
    && (forall x :: x in c.flights && Batched(c, x) ==> exists r :: r in batch && r.job == c.job && r.token == x)
  }

  function Record(flights: map<nat, Stage>): map<nat, Stage> {
    map x | x in flights :: if flights[x].Resolved? && flights[x].place.InBatch? then flights[x].(place := Recorded) else flights[x]
  }

  function DoFlush(c: Cell, batch: seq<Receipt>): Cell {
    c.(row := ApplyToRow(c.row, batch, c.job),
       receipts := c.receipts + FailedOnly(batch),
       flights := Record(c.flights),
       flushedLate := c.flushedLate || (c.job in Touched(batch) && c.row.status.Dispatched?))
  }

  /** A copy is submitted to the job queue. */
  function DoSubmit(c: Cell, entry: Entry, ok: bool): Cell {
    c.(entry := if ok then entry.(entered := entry.entered + [c.now], queued := entry.queued + 1)
                else entry.(refused := entry.refused + 1))
  }

  function DoRefuse(c: Cell, ok: bool): Cell
    requires c.entry.refused > 0
  {
    var entry := c.entry.(refused := c.entry.refused - 1, settled := c.entry.settled + 1);
    if ok then c.(row := SetStatus(c.row, Failed), entry := entry) else c.(entry := entry.(lost := entry.lost + 1))
  }

  predicate Enabled(c: Cell, step: Step) {
    match step
    case World(now, eligible) => now >= c.now && 0 !in eligible
    case HandlerSubmit(_) => c.entry.handler.Creating? && c.row.scheduledAt.None?
    case Claim => Due(c.row, c.now)
    case SchedulerSubmit(_) => c.entry.claimed > 0
    case RefuseWrite(_) => c.entry.refused > 0
    case Take => c.entry.queued > 0
    case Work(_) => CanWork(c)
    case StartSend(x) => x in c.flights && c.flights[x].Tasked?
    case EndSend(x, _, _) => x in c.flights && c.flights[x].Sending?
    case Collect(x) => x in c.flights && c.flights[x].Resolved? && c.flights[x].place.InQueue?
    case Flush(batch, _) => Covers(c, batch)
  }

  function Do(c: Cell, step: Step): Cell
    requires Enabled(c, step)
  {
    match step
    case World(now, eligible) => c.(now := now, eligible := eligible)
    case HandlerSubmit(ok) => DoSubmit(c, c.entry.(handler := Answered), ok)
    case Claim => c.(row := c.row.(status := Queued), entry := c.entry.(claimed := c.entry.claimed + 1))
    case SchedulerSubmit(ok) => DoSubmit(c, c.entry.(claimed := c.entry.claimed - 1), ok)
    case RefuseWrite(ok) => DoRefuse(c, ok)
    case Take => c.(run := Some(NEW_RUN), entry := c.entry.(queued := c.entry.queued - 1))
    case Work(ok) => DoWork(c, ok)
    case StartSend(x) => c.(flights := c.flights[x := Sending])
    case EndSend(x, sent, queued) => c.(flights := c.flights[x := Resolved(if queued then InQueue else Dropped, sent)])
    case Collect(x) => c.(flights := c.flights[x := Resolved(InBatch, c.flights[x].sent)])
    case Flush(batch, ok) => if ok then DoFlush(c, batch) else c
  }

  /** The state a run ends in, or None when some step of it is not enabled. */
  ghost function Exec(c: Cell, steps: seq<Step>): Option<Cell> {
    if steps == [] then Some(c)
    else
      match Exec(c, steps[..|steps| - 1])
      case None => None
      case Some(mid) => if Enabled(mid, steps[|steps| - 1]) then Some(Do(mid, steps[|steps| - 1])) else None
  }

  ghost predicate Reachable(c: Cell) {
    exists job: nat, scheduledAt, pageSize: nat, steps ::
      pageSize >= 1 && Exec(Init(job, scheduledAt, pageSize), steps) == Some(c)
  }
}
