/** The Live Activity lifecycle as a step machine.

    HTTP handlers, fan-out workers, senders and the outcome worker run
    concurrently and meet only in the queues and the tables.  One step is one
    atomic action of one of them: a statement or transaction of the store, a
    queue operation, or the end of a provider call.  A run is any sequence of
    enabled steps, so it covers every interleaving.

    Queues are modelled as bags: an item may leave a queue in any order and a
    submit may be refused at any time.  Every run of the bounded FIFO queues is
    one of these runs. */
module LAProtocol {
  import opened Options
  import opened LATables
  import opened Keyset

  /** Where an outcome is, from the moment its verdict is known. */
  datatype Place = AtWorker | InQueue | InBatch | Recorded | Dropped

  /** The life of one token a fan-out has fetched. */
  datatype Stage = Fetched | Tasked | Sending | Resolved(place: Place, verdict: Verdict)
  datatype Flight = Flight(platform: Platform, stage: Stage)

  /** The next statement of `FanoutLATokens` and the functions it calls. */
  datatype Pc =
    | AtFirstCheck
    | AtMark
    | AtCheck
    | AtScope
    | AtTokens(startPending: bool)
    | AtEmit(page: Page, sent: nat)
    | AtComplete
    | AtFollowUp
    | AtApply
    | AtFail
    | AtFailApply
    | AtFailStart
    | Finished

  /** A fan-out run: program counter, the loop variables of the source, and the
      scan its pages make up. */
  datatype Run = Run(pc: Pc, cursor: nat, total: nat, failed: seq<Outcome>, scan: Scan)

  /** The next action of `enqueueImmediateLADispatch`. */
  datatype Handler = Submitting | Marking | Refusing | RefusingJob | Answered

  /** Everything about one dispatch outside its row.  `accepted` records that
      its submit succeeded; `statusLost` and `followLost` that the write of its
      final status, or the job write that follows it, failed for good. */
  datatype Proc = Proc(handler: Handler, accepted: bool, queued: bool, run: Option<Run>,
                       flights: map<nat, Flight>, statusLost: bool, followLost: bool)

  datatype Sys = Sys(tables: Tables, now: nat, procs: map<nat, Proc>, batch: seq<Outcome>, pageSize: nat)

  datatype Step =
    | StartJob(j: nat, activity: nat, kind: nat, scope: Scope)
    | RollbackJob(j: nat)
    | NewRequest(d: nat, j: nat, action: Action, createdAt: nat)
    | Submit(d: nat, ok: bool)
    | Mark(d: nat, ok: bool)
    | Refuse(d: nat, ok: bool)
    | RefuseJob(d: nat, ok: bool)
    | Take(d: nat)
    | Work(d: nat, ok: bool)
    | StartSend(d: nat, x: nat)
    | EndSend(d: nat, x: nat, verdict: Verdict, queued: bool)
    | Collect(d: nat, x: nat)
    | Flush(ok: bool)
    | World(now: nat, tokens: map<nat, Token>, links: set<(nat, nat)>, subs: set<(nat, nat)>)

  function Init(pageSize: nat): Sys {
    Sys(Tables(map[], map[], map[], {}, {}), 0, map[], [], pageSize)
  }

  const NEW_PROC := Proc(Submitting, false, false, None, map[], false, false)

  const ENQUEUE_FAILED := Rejected("task enqueue failed")

  function NewRun(action: Action): Run {
    Run(if action.Update? then AtFirstCheck else AtMark, 0, 0, [], NEW_SCAN)
  }

  /** The top of the page loop: only updates check for a newer update. */
  function LoopHead(action: Action): Pc {
    if action.Update? then AtCheck else AtScope
  }

  // ---- state access ---------------------------------------------------------

  predicate Known(s: Sys, d: nat) {
    d in s.procs && d in s.tables.dispatches && s.tables.dispatches[d].job in s.tables.jobs
  }

  predicate Running(s: Sys, d: nat) {
    Known(s, d) && s.procs[d].run.Some?
  }

  function Row(s: Sys, d: nat): Dispatch
    requires Known(s, d)
  {
    s.tables.dispatches[d]
  }

  function JobOf(s: Sys, d: nat): Job
    requires Known(s, d)
  {
    s.tables.jobs[s.tables.dispatches[d].job]
  }

  function RunOf(s: Sys, d: nat): Run
    requires Running(s, d)
  {
    s.procs[d].run.value
  }

  function SetRow(s: Sys, d: nat, row: Dispatch): Sys {
    s.(tables := s.tables.(dispatches := s.tables.dispatches[d := row]))
  }

  function SetProc(s: Sys, d: nat, p: Proc): Sys {
    s.(procs := s.procs[d := p])
  }

  function SetRun(s: Sys, d: nat, run: Run): Sys
    requires d in s.procs
  {
    SetProc(s, d, s.procs[d].(run := Some(run)))
  }

  function Goto(s: Sys, d: nat, pc: Pc): Sys
    requires d in s.procs && s.procs[d].run.Some?
  {
    SetRun(s, d, s.procs[d].run.value.(pc := pc))
  }

  /** Outcomes in one place move to another. */
  function Move(flights: map<nat, Flight>, from: Place, to: Place): map<nat, Flight> {
    map x | x in flights ::
      if flights[x].stage.Resolved? && flights[x].stage.place == from
      then flights[x].(stage := flights[x].stage.(place := to)) else flights[x]
  }

  function OutcomeOf(d: nat, x: nat, platform: Platform, row: Dispatch, job: Job, verdict: Verdict): Outcome {
    Outcome(d, x, platform, row.action, job.activity, verdict)
  }

  // ---- the statements of the fan-out worker ----------------------------------

  function WorkFirstCheck(s: Sys, d: nat, ok: bool): Sys
    requires Running(s, d)
  {
    if !ok then Goto(s, d, AtFail)
    else if Stale(s.tables, d) then Goto(SetRow(s, d, Supersede(Row(s, d), 0)), d, Finished)
    else Goto(s, d, AtMark)
  }

  function WorkMark(s: Sys, d: nat, ok: bool): Sys
    requires Running(s, d)
  {
    if !ok then Goto(s, d, AtFail)
    else Goto(SetRow(s, d, SetStatus(Row(s, d), InProgress)), d, LoopHead(Row(s, d).action))
  }

  function WorkCheck(s: Sys, d: nat, ok: bool): Sys
    requires Running(s, d)
  {
    if !ok then Goto(s, d, AtFail)
    else if Stale(s.tables, d) then Goto(SetRow(s, d, Supersede(Row(s, d), RunOf(s, d).total)), d, AtApply)
    else Goto(s, d, AtScope)
  }

  function WorkScope(s: Sys, d: nat, ok: bool): Sys
    requires Running(s, d)
  {
    Goto(s, d, if ok then AtTokens(StartPending(s.tables, Row(s, d).job)) else AtFail)
  }

  function TokenSet(s: Sys, d: nat, startPending: bool): set<nat>
    requires Known(s, d)
  {
    Eligible(s.tables, s.now, JobOf(s, d), Row(s, d).action, startPending)
  }

  function FetchFlights(p: Proc, tokens: map<nat, Token>, page: Page): map<nat, Flight> {
    p.flights + map x | x in page.ids && x in tokens :: Flight(tokens[x].platform, Fetched)
  }

  function WorkTokens(s: Sys, d: nat, ok: bool): Sys
    requires Running(s, d) && RunOf(s, d).pc.AtTokens? && s.pageSize >= 1
  {
    var run, p := RunOf(s, d), s.procs[d];
    var matching := TokenSet(s, d, run.pc.startPending);
    var page := PageOf(matching, run.cursor, s.pageSize);
    if !ok then Goto(s, d, AtFail)
    else SetProc(s, d, p.(flights := FetchFlights(p, s.tables.tokens, page),
                          run := Some(run.(pc := AtEmit(page, 0), scan := ReadPage(run.scan, matching, s.pageSize)))))
  }

  /** One `emit`, or, after the last one, the end of the loop body. */
  function WorkEmit(s: Sys, d: nat, ok: bool): Sys
    requires Running(s, d) && RunOf(s, d).pc.AtEmit?
    requires RunOf(s, d).pc.sent < |RunOf(s, d).pc.page.ids| ==>
               RunOf(s, d).pc.page.ids[RunOf(s, d).pc.sent] in s.procs[d].flights
  {
    var run, p := RunOf(s, d), s.procs[d];
    var page, sent := run.pc.page, run.pc.sent;
    if sent < |page.ids| then
      var x := page.ids[sent];
      var flight := p.flights[x];
      if ok then
        SetProc(s, d, p.(flights := p.flights[x := flight.(stage := Tasked)],
                         run := Some(run.(pc := AtEmit(page, sent + 1)))))
      else
        var o := OutcomeOf(d, x, flight.platform, Row(s, d), JobOf(s, d), ENQUEUE_FAILED);
        SetProc(s, d, p.(flights := p.flights[x := flight.(stage := Resolved(AtWorker, ENQUEUE_FAILED))],
                         run := Some(run.(pc := AtEmit(page, sent + 1), failed := run.failed + [o]))))
    else if page.more then
      SetRun(s, d, run.(pc := LoopHead(Row(s, d).action), total := run.total + |page.ids|, cursor := page.next))
    else
      SetRun(s, d, run.(pc := AtComplete, total := run.total + |page.ids|))
  }

  function WorkComplete(s: Sys, d: nat, ok: bool): Sys
    requires Running(s, d)
  {
    if !ok then Goto(s, d, AtFail)
    else if RunOf(s, d).total == 0 then
      Goto(SetRow(s, d, CompleteEmpty(Row(s, d))), d, if Row(s, d).action.Update? then AtApply else AtFollowUp)
    else
      Goto(s.(tables := CompleteEnqueue(s.tables, d, RunOf(s, d).total)), d, AtApply)
  }

  /** The second statement of `completeEmptyLADispatch`. */
  function WorkFollowUp(s: Sys, d: nat, ok: bool): Sys
    requires Running(s, d)
  {
    var p, start := s.procs[d], Row(s, d).action.Start?;
    if ok then
      Goto(s.(tables := if start then FailJob(s.tables, Row(s, d).job) else CloseJob(s.tables, Row(s, d).job)), d, AtApply)
    else
      Goto(SetProc(s, d, p.(followLost := p.followLost || !start)), d, AtFail)
  }

  /** `applyLAEnqueueFailures`. */
  function WorkApply(s: Sys, d: nat, ok: bool, next: Pc): Sys
    requires Running(s, d)
  {
    var run, p := RunOf(s, d), s.procs[d];
    if run.failed == [] then Goto(s, d, next)
    else
      SetProc(if ok then s.(tables := ApplyOutcomes(s.tables, run.failed)) else s, d,
              p.(flights := Move(p.flights, AtWorker, if ok then Recorded else Dropped),
                 run := Some(run.(pc := next, failed := []))))
  }

  function WorkFail(s: Sys, d: nat, ok: bool): Sys
    requires Running(s, d)
  {
    if ok then Goto(SetRow(s, d, FailEnqueue(Row(s, d), RunOf(s, d).total)), d, AtFailApply)
    else Goto(SetProc(s, d, s.procs[d].(statusLost := !Terminal(Row(s, d).status))), d, AtFailApply)
  }

  /** `failLAStartAfterDispatchFailure`. */
  function WorkFailStart(s: Sys, d: nat, ok: bool): Sys
    requires Running(s, d)
  {
    if !Row(s, d).action.Start? then Goto(s, d, Finished)
    else if ok then Goto(s.(tables := FailJob(s.tables, Row(s, d).job)), d, Finished)
    else Goto(SetProc(s, d, s.procs[d].(followLost := true)), d, Finished)
  }

  predicate CanWork(s: Sys, d: nat) {
    && Running(s, d)
    && !RunOf(s, d).pc.Finished?
    && s.pageSize >= 1
    && (RunOf(s, d).pc.AtEmit? && RunOf(s, d).pc.sent < |RunOf(s, d).pc.page.ids| ==>
          RunOf(s, d).pc.page.ids[RunOf(s, d).pc.sent] in s.procs[d].flights)
  }

  function DoWork(s: Sys, d: nat, ok: bool): Sys
    requires CanWork(s, d)
  {
    match RunOf(s, d).pc
    case AtFirstCheck => WorkFirstCheck(s, d, ok)
    case AtMark => WorkMark(s, d, ok)
    case AtCheck => WorkCheck(s, d, ok)
    case AtScope => WorkScope(s, d, ok)
    case AtTokens(_) => WorkTokens(s, d, ok)
    case AtEmit(_, _) => WorkEmit(s, d, ok)
    case AtComplete => WorkComplete(s, d, ok)
    case AtFollowUp => WorkFollowUp(s, d, ok)
    case AtApply => WorkApply(s, d, ok, Finished)
    case AtFail => WorkFail(s, d, ok)
    case AtFailApply => WorkApply(s, d, ok, AtFailStart)
    case AtFailStart => WorkFailStart(s, d, ok)
    case Finished => s
  }

  // ---- handlers, senders, the outcome worker ----------------------------------

  predicate AtStage(s: Sys, d: nat, x: nat, stage: Stage) {
    Known(s, d) && x in s.procs[d].flights && s.procs[d].flights[x].stage == stage
  }

  predicate Queueing(s: Sys, d: nat, x: nat) {
    && Known(s, d) && x in s.procs[d].flights
    && s.procs[d].flights[x].stage.Resolved? && s.procs[d].flights[x].stage.place.InQueue?
  }

  function SetStage(s: Sys, d: nat, x: nat, stage: Stage): Sys
    requires Known(s, d) && x in s.procs[d].flights
  {
    var p := s.procs[d];
    SetProc(s, d, p.(flights := p.flights[x := p.flights[x].(stage := stage)]))
  }

  predicate HandlerAt(s: Sys, d: nat, handler: Handler) {
    Known(s, d) && s.procs[d].handler == handler
  }

  predicate HasStart(t: Tables, j: nat) {
    exists d :: d in t.dispatches && t.dispatches[d].job == j && t.dispatches[d].action.Start?
  }

  /** A start row is written only for a job that its own request has just made. */
  predicate Enabled(s: Sys, step: Step) {
    match step
    case StartJob(j, activity, _, _) => j !in s.tables.jobs && activity != 0
    case RollbackJob(_) => true
    case NewRequest(d, j, action, _) =>
      d !in s.tables.dispatches && d !in s.procs && j in s.tables.jobs && (action.Start? ==> !HasStart(s.tables, j))
    case Submit(d, _) => HandlerAt(s, d, Submitting)
    case Mark(d, _) => HandlerAt(s, d, Marking)
    case Refuse(d, _) => HandlerAt(s, d, Refusing)
    case RefuseJob(d, _) => HandlerAt(s, d, RefusingJob)
    case Take(d) => Known(s, d) && s.procs[d].queued && s.procs[d].run.None?
    case Work(d, _) => CanWork(s, d)
    case StartSend(d, x) => AtStage(s, d, x, Tasked)
    case EndSend(d, x, _, _) => AtStage(s, d, x, Sending)
    case Collect(d, x) => Queueing(s, d, x)
    case Flush(_) => s.batch != []
    case World(now, _, links, _) => now >= s.now && s.tables.links <= links
  }

  function DoSubmit(s: Sys, d: nat, ok: bool): Sys
    requires Known(s, d)
  {
    SetProc(s, d, if ok then s.procs[d].(handler := Marking, accepted := true, queued := true)
                  else s.procs[d].(handler := Refusing))
  }

  function DoMark(s: Sys, d: nat, ok: bool): Sys
    requires Known(s, d)
  {
    SetProc(if ok then SetRow(s, d, MarkEnqueued(Row(s, d))) else s, d, s.procs[d].(handler := Answered))
  }

  function DoRefuse(s: Sys, d: nat, ok: bool): Sys
    requires Known(s, d)
  {
    SetProc(if ok then SetRow(s, d, SetStatus(Row(s, d), Failed)) else s, d,
            s.procs[d].(handler := if Row(s, d).action.Start? then RefusingJob else Answered,
                        statusLost := s.procs[d].statusLost || !ok))
  }

  function DoRefuseJob(s: Sys, d: nat, ok: bool): Sys
    requires Known(s, d)
  {
    SetProc(if ok then s.(tables := FailJob(s.tables, Row(s, d).job)) else s, d,
            s.procs[d].(handler := Answered, followLost := s.procs[d].followLost || !ok))
  }

  function DoCollect(s: Sys, d: nat, x: nat): Sys
    requires Queueing(s, d, x)
  {
    var flight := s.procs[d].flights[x];
    SetStage(s, d, x, Resolved(InBatch, flight.stage.verdict))
      .(batch := s.batch + [OutcomeOf(d, x, flight.platform, Row(s, d), JobOf(s, d), flight.stage.verdict)])
  }

  /** A flush that fails keeps the batch. */
  function DoFlush(s: Sys, ok: bool): Sys {
    if !ok then s
    else s.(tables := ApplyOutcomes(s.tables, s.batch),
            procs := map d | d in s.procs :: s.procs[d].(flights := Move(s.procs[d].flights, InBatch, Recorded)),
            batch := [])
  }

  function Do(s: Sys, step: Step): Sys
    requires Enabled(s, step)
  {
    match step
    case StartJob(j, activity, kind, scope) =>
      s.(tables := s.tables.(jobs := CreateOrGetStartJob(s.tables.jobs, j, activity, kind, scope)))
    case RollbackJob(j) => s.(tables := RollbackStartJob(s.tables, j))
    case NewRequest(d, j, action, createdAt) => SetProc(SetRow(s, d, NewDispatch(j, action, createdAt)), d, NEW_PROC)
    case Submit(d, ok) => DoSubmit(s, d, ok)
    case Mark(d, ok) => DoMark(s, d, ok)
    case Refuse(d, ok) => DoRefuse(s, d, ok)
    case RefuseJob(d, ok) => DoRefuseJob(s, d, ok)
    case Take(d) => SetProc(s, d, s.procs[d].(queued := false, run := Some(NewRun(Row(s, d).action))))
    case Work(d, ok) => DoWork(s, d, ok)
    case StartSend(d, x) => SetStage(s, d, x, Sending)
    case EndSend(d, x, verdict, queued) => SetStage(s, d, x, Resolved(if queued then InQueue else Dropped, verdict))
    case Collect(d, x) => DoCollect(s, d, x)
    case Flush(ok) => DoFlush(s, ok)
    case World(now, tokens, links, subs) =>
      s.(now := now, tables := s.tables.(tokens := tokens, links := links, subs := subs))
  }

  // ---- runs -------------------------------------------------------------------

  /** The state a run ends in, or None when some step of it is not enabled. */
  function Exec(s: Sys, steps: seq<Step>): Option<Sys> {
    if steps == [] then Some(s)
    else
      match Exec(s, steps[..|steps| - 1])
      case None => None
      case Some(mid) => if Enabled(mid, steps[|steps| - 1]) then Some(Do(mid, steps[|steps| - 1])) else None
  }

  ghost predicate Reachable(s: Sys) {
    exists pageSize: nat, steps :: pageSize >= 1 && Exec(Init(pageSize), steps) == Some(s)
  }
}
