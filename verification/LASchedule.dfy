/** A fan-out worker among the others: a schedule says what the others do before
    each call of the worker and whether the call succeeds.

    A schedule is finite: when it has run out the others rest and every call
    succeeds.  What the worker does is then determined, statement by statement. */
module LASchedule {
  import opened Options
  import opened LATables
  import opened LAProtocol
  import opened LALocal
  import opened LAFrame
  import opened LASafety
  import opened LAScans
  import opened LATheorems
  import opened Keyset
  import opened Iterations

  datatype Turn = Turn(others: seq<Step>, ok: bool)

  lemma OthersKeepRun(s: Sys, step: Step, me: nat)
    requires Inv(s) && Enabled(s, step) && Running(s, me) && !(step.Work? && step.d == me)
    ensures Running(Do(s, step), me)
    ensures Do(s, step).procs[me].run == s.procs[me].run
    ensures Row(Do(s, step), me).action == Row(s, me).action
    ensures Do(s, step).pageSize == s.pageSize
  {
    StepFacts(s, step);
    KeysStep(s, step);
    assert Stays(s, Do(s, step), me);
    if step.Flush? {
      if step.ok {
        FlushStays(s, me);
      }
    } else if Actor(step) == Some(me) {
      match step
      case StartSend(_, _) => StageRun(s, step);
      case EndSend(_, _, _, _) => StageRun(s, step);
      case Collect(_, _) => StageRun(s, step);
      case _ => HandlerRun(s, step);
    }
  }

  /** `s` is reached from the reachable state `origin` by `trace`. */
  ghost predicate Reaches(origin: Sys, trace: seq<Step>, s: Sys) {
    Reachable(origin) && Exec(origin, trace) == Some(s)
  }

  lemma ReachesInv(origin: Sys, trace: seq<Step>, s: Sys)
    requires Reaches(origin, trace, s)
    ensures Inv(s)
  {
    ReachableInv(origin);
    RunInv(origin, trace);
  }

  lemma ReachesNext(origin: Sys, trace: seq<Step>, s: Sys, step: Step)
    requires Reaches(origin, trace, s) && Enabled(s, step)
    ensures Reaches(origin, trace + [step], Do(s, step))
  {
    var trace' := trace + [step];
    assert trace'[..|trace'| - 1] == trace;
  }

  lemma OthersReach(origin: Sys, trace: seq<Step>, s: Sys, step: Step, me: nat)
    requires Reaches(origin, trace, s) && Enabled(s, step) && Running(s, me) && !(step.Work? && step.d == me)
    ensures Reaches(origin, trace + [step], Do(s, step))
    ensures Running(Do(s, step), me) && RunOf(Do(s, step), me) == RunOf(s, me)
    ensures Row(Do(s, step), me).action == Row(s, me).action
    ensures Do(s, step).pageSize == s.pageSize
  {
    ReachesInv(origin, trace, s);
    OthersKeepRun(s, step, me);
    ReachesNext(origin, trace, s, step);
  }

  /** The worker's own next statement is always enabled. */
  lemma WorkerCanWork(origin: Sys, trace: seq<Step>, s: Sys, me: nat)
    requires Reaches(origin, trace, s) && Running(s, me) && !RunOf(s, me).pc.Finished?
    ensures CanWork(s, me)
  {
    ReachesInv(origin, trace, s);
    RunningCanWork(s, me);
  }

  lemma RunningCanWork(s: Sys, me: nat)
    requires Inv(s) && Running(s, me) && !RunOf(s, me).pc.Finished?
    ensures CanWork(s, me)
  {
    assert LocalOk(s, me);
    var pc := RunOf(s, me).pc;
    if pc.AtEmit? && pc.sent < |pc.page.ids| {
      assert pc.page.ids[pc.sent] in pc.page.ids[pc.sent..];
      assert Pending(RunOf(s, me), pc.page.ids[pc.sent]);
      assert pc.page.ids[pc.sent] == RunOf(s, me).scan.fetched[RunOf(s, me).total + pc.sent];
    }
  }

  lemma WorkerNext(origin: Sys, trace: seq<Step>, s: Sys, me: nat, ok: bool)
    requires Reaches(origin, trace, s) && CanWork(s, me)
    ensures Reaches(origin, trace + [Work(me, ok)], DoWork(s, me, ok))
    ensures Running(DoWork(s, me, ok), me)
    ensures Row(DoWork(s, me, ok), me).action == Row(s, me).action
    ensures DoWork(s, me, ok).now == s.now && DoWork(s, me, ok).batch == s.batch && DoWork(s, me, ok).pageSize == s.pageSize
    ensures DoWork(s, me, ok).tables.tokens.Keys == s.tables.tokens.Keys
  {
    ReachesInv(origin, trace, s);
    StepFacts(s, Work(me, ok));
    assert Stays(s, DoWork(s, me, ok), me);
    StepRun(s, Work(me, ok), me);
    ReachesNext(origin, trace, s, Work(me, ok));
    WorkKeys(s, me, ok);
    WorkLeaves(s, me, ok);
  }

  lemma WorkLeaves(s: Sys, me: nat, ok: bool)
    requires CanWork(s, me)
    ensures DoWork(s, me, ok).now == s.now
    ensures DoWork(s, me, ok).tables.tokens.Keys == s.tables.tokens.Keys
  {
  }

  /** The outcome of the token the run is about to emit, should its task be refused. */
  function Refusal(s: Sys, me: nat): Outcome
    requires CanWork(s, me) && RunOf(s, me).pc.AtEmit? && RunOf(s, me).pc.sent < |RunOf(s, me).pc.page.ids|
  {
    var x := RunOf(s, me).pc.page.ids[RunOf(s, me).pc.sent];
    Outcome(me, x, s.procs[me].flights[x].platform, Row(s, me).action, JobOf(s, me).activity, ENQUEUE_FAILED)
  }

  /** One emit seen from the run; a refused token is held as a failed outcome. */
  lemma EmitResult(s: Sys, me: nat, ok: bool, run: Run, failed: seq<Outcome>)
    requires CanWork(s, me) && RunOf(s, me) == run && run.pc.AtEmit? && run.pc.sent < |run.pc.page.ids|
    requires failed == if ok then [] else [Refusal(s, me)]
    ensures var s' := DoWork(s, me, ok);
      && s'.tables == s.tables && Running(s', me)
      && RunOf(s', me) == Emitted(run, failed)
  {
    assert run.failed + [] == run.failed;
  }

  /** A run that has emitted `sent` tokens of a page and holds `failed` of them. */
  function Holding(run: Run, page: Page, sent: nat, failed: seq<Outcome>): Run {
    run.(pc := AtEmit(page, sent), failed := run.failed + failed)
  }

  /** A run after one more token, which is among `failed` if its task was refused. */
  function Emitted(run: Run, failed: seq<Outcome>): Run
    requires run.pc.AtEmit?
  {
    run.(pc := AtEmit(run.pc.page, run.pc.sent + 1), failed := run.failed + failed)
  }

  lemma HoldsMore(run: Run, page: Page, sent: nat, failed: seq<Outcome>, more: seq<Outcome>)
    ensures Emitted(Holding(run, page, sent, failed), more) == Holding(run, page, sent + 1, failed + more)
    ensures run.pc == AtEmit(page, 0) ==> Holding(run, page, 0, []) == run
  {
    assert run.failed + [] == run.failed;
  }

  /** The other statements that write, each seen from the run and the tables. */
  lemma CheckResult(s: Sys, me: nat, ok: bool, run: Run)
    requires CanWork(s, me) && RunOf(s, me) == run && (run.pc.AtFirstCheck? || run.pc.AtCheck?)
    ensures var s', stale := DoWork(s, me, ok), ok && Stale(s.tables, me);
      var total := if run.pc.AtFirstCheck? then 0 else run.total;
      && Running(s', me)
      && RunOf(s', me) == run.(pc := if !ok then AtFail
                                     else if stale then if run.pc.AtCheck? then AtApply else Finished
                                     else if run.pc.AtCheck? then AtScope else AtMark)
      && s'.tables == if stale then s.tables.(dispatches := s.tables.dispatches[me := Supersede(Row(s, me), total)]) else s.tables
  {
  }

  /** The branches that call nothing. */
  lemma InternalResult(s: Sys, me: nat, run: Run)
    requires CanWork(s, me) && RunOf(s, me) == run && CallsNothing(s, me)
    ensures var s' := DoWork(s, me, true);
      && s'.tables == s.tables && Running(s', me)
      && RunOf(s', me) == AfterBranch(run, Row(s, me).action)
  {
  }

  function AfterBranch(run: Run, action: Action): Run {
    match run.pc
    case AtEmit(page, _) =>
      if page.more then run.(pc := LoopHead(action), total := run.total + |page.ids|, cursor := page.next)
      else run.(pc := AtComplete, total := run.total + |page.ids|)
    case AtFailApply => run.(pc := AtFailStart)
    case _ => run.(pc := Finished)
  }

  lemma CompleteResult(s: Sys, me: nat, ok: bool, run: Run)
    requires CanWork(s, me) && RunOf(s, me) == run && run.pc.AtComplete?
    ensures var s', row := DoWork(s, me, ok), Row(s, me);
      && Running(s', me)
      && RunOf(s', me) == run.(pc := if !ok then AtFail
                                     else if run.total == 0 && !row.action.Update? then AtFollowUp else AtApply)
      && s'.tables == if !ok then s.tables
                      else if run.total == 0 then s.tables.(dispatches := s.tables.dispatches[me := CompleteEmpty(row)])
                      else CompleteEnqueue(s.tables, me, run.total)
  {
  }

  lemma FollowUpResult(s: Sys, me: nat, ok: bool, run: Run)
    requires CanWork(s, me) && RunOf(s, me) == run && run.pc.AtFollowUp? && !Row(s, me).action.Update? && Known(DoWork(s, me, ok), me)
    ensures var s' := DoWork(s, me, ok);
      && Running(s', me) && RunOf(s', me) == run.(pc := if ok then AtApply else AtFail)
      && s'.tables == if ok then SettleEmpty(s.tables, Row(s, me)) else s.tables
  {
  }

  lemma ApplyResult(s: Sys, me: nat, ok: bool, run: Run)
    requires CanWork(s, me) && RunOf(s, me) == run && (run.pc.AtApply? || run.pc.AtFailApply?) && run.failed != []
    requires Known(DoWork(s, me, ok), me)
    ensures var s' := DoWork(s, me, ok);
      && Running(s', me)
      && RunOf(s', me) == run.(pc := if run.pc.AtApply? then Finished else AtFailStart, failed := [])
      && s'.tables == (if ok then ApplyOutcomes(s.tables, run.failed) else s.tables)
  {
  }

  lemma FailResult(s: Sys, me: nat, ok: bool, run: Run)
    requires CanWork(s, me) && RunOf(s, me) == run && run.pc.AtFail?
    ensures var s' := DoWork(s, me, ok);
      && Running(s', me) && RunOf(s', me) == run.(pc := AtFailApply)
      && s'.tables == if ok then s.tables.(dispatches := s.tables.dispatches[me := FailEnqueue(Row(s, me), run.total)]) else s.tables
  {
  }

  lemma FailStartResult(s: Sys, me: nat, ok: bool, run: Run)
    requires CanWork(s, me) && RunOf(s, me) == run && run.pc.AtFailStart? && Row(s, me).action.Start? && Known(DoWork(s, me, ok), me)
    ensures var s' := DoWork(s, me, ok);
      && Running(s', me) && RunOf(s', me) == run.(pc := Finished)
      && s'.tables == if ok then FailJob(s.tables, Row(s, me).job) else s.tables
  {
  }

  // ---- one statement after another ---------------------------------------------------------

  /** The system, what is left of the schedule, and what has happened so far. */
  datatype Moment = Moment(s: Sys, schedule: seq<Turn>, trace: seq<Step>)

  /** The turn the next call of the worker gets. */
  function NextTurn(schedule: seq<Turn>): Turn {
    if schedule == [] then Turn([], true) else schedule[0]
  }

  function Rest(schedule: seq<Turn>): seq<Turn> {
    if schedule == [] then [] else schedule[1..]
  }

  ghost predicate AllOk(schedule: seq<Turn>) {
    forall i :: 0 <= i < |schedule| ==> schedule[i].ok
  }

  /** The others take their enabled steps, in order. */
  function OthersAct(m: Moment, others: seq<Step>, me: nat): Moment {
    if others == [] then m
    else
      var mid, step := OthersAct(m, others[..|others| - 1], me), others[|others| - 1];
      if Enabled(mid.s, step) && !(step.Work? && step.d == me)
      then Moment(Do(mid.s, step), mid.schedule, mid.trace + [step]) else mid
  }

  function Met(m: Moment, me: nat): Moment {
    OthersAct(Moment(m.s, Rest(m.schedule), m.trace), NextTurn(m.schedule).others, me)
  }

  /** The worker's next statement, with its answer. */
  function Acted(m: Moment, me: nat, ok: bool): Moment {
    if CanWork(m.s, me) then Moment(DoWork(m.s, me, ok), m.schedule, m.trace + [Work(me, ok)]) else m
  }

  /** A statement of the run that calls neither the store nor a queue. */
  predicate CallsNothing(s: Sys, me: nat)
    requires Running(s, me)
  {
    var run := RunOf(s, me);
    || (run.pc.AtEmit? && run.pc.sent >= |run.pc.page.ids|)
    || ((run.pc.AtApply? || run.pc.AtFailApply?) && run.failed == [])
    || (run.pc.AtFailStart? && !Row(s, me).action.Start?)
  }

  /** The next statement, calls with the answer their turn gives. */
  function Next(m: Moment, me: nat): Moment {
    if !CanWork(m.s, me) then m
    else if CallsNothing(m.s, me) then Acted(m, me, true)
    else Acted(Met(m, me), me, NextTurn(m.schedule).ok)
  }

  function Turning(me: nat): Moment -> Moment {
    m => Next(m, me)
  }

  /** `m'` is what the schedule makes of `m` after some statements of the worker. */
  ghost predicate Follows(m: Moment, m': Moment, me: nat) {
    TurnsInto(Turning(me), m, m')
  }

  lemma FollowsOn(m: Moment, m': Moment, m'': Moment, me: nat)
    requires Follows(m, m', me) && Follows(m', m'', me)
    ensures Follows(m, m'', me)
  {
    TurnsOn(Turning(me), m, m', m'');
  }

  lemma FollowsOne(m: Moment, me: nat)
    ensures Follows(m, m, me) && Follows(m, Next(m, me), me)
  {
    OneTurn(Turning(me), m);
  }

  lemma FollowsNext(m: Moment, m': Moment, me: nat)
    requires Follows(m, m', me)
    ensures Follows(m, Next(m', me), me)
  {
    FollowsOne(m', me);
    FollowsOn(m, m', Next(m', me), me);
  }

  // ---- what stays on the way ------------------------------------------------------------------

  lemma {:induction false} ExecSplits(s: Sys, a: seq<Step>, b: seq<Step>)
    requires Exec(s, a).Some? && Exec(s, a + b).Some?
    ensures Exec(Exec(s, a).value, b) == Exec(s, a + b)
  {
    if b == [] {
      assert a + b == a;
    } else {
      var ab := a + b;
      assert ab[..|ab| - 1] == a + b[..|b| - 1];
      ExecSplits(s, a, b[..|b| - 1]);
    }
  }

  /** A status moves forward between two moments of one run. */
  lemma LedFrom(origin: Sys, trace: seq<Step>, s: Sys, trace': seq<Step>, s': Sys, me: nat)
    requires Reaches(origin, trace, s) && Reaches(origin, trace', s') && trace <= trace' && Known(s, me)
    ensures Known(s', me) && LedTo(Row(s, me), Row(s', me))
  {
    var rest := trace'[|trace|..];
    assert trace' == trace + rest;
    ExecSplits(origin, trace, rest);
    ReachesInv(origin, trace, s);
    RunLeads(s, rest, me);
  }

  lemma StageKeepsRow(s: Sys, step: Step, me: nat)
    requires Enabled(s, step) && Known(s, me) && Actor(step) == Some(me) && (step.StartSend? || step.EndSend? || step.Collect?)
    ensures Known(Do(s, step), me) && Row(Do(s, step), me) == Row(s, me)
  {
  }

  lemma HandlerKeepsWaiting(s: Sys, step: Step, me: nat)
    requires LocalOk(s, me) && Running(s, me) && Waiting(Row(s, me).status) && Enabled(s, step) && Actor(step) == Some(me)
    requires step.Submit? || step.Mark? || step.Refuse? || step.RefuseJob? || step.Take? || step.NewRequest?
    ensures Known(Do(s, step), me) && Waiting(Row(Do(s, step), me).status)
  {
  }

  lemma FlushKeepsWaiting(s: Sys, ok: bool, me: nat)
    requires Known(s, me) && Waiting(Row(s, me).status)
    ensures Known(DoFlush(s, ok), me) && Waiting(Row(DoFlush(s, ok), me).status)
  {
    if ok {
      FlushStays(s, me);
    }
  }

  /** Nobody but the worker ends a dispatch that is still waiting. */
  lemma OthersKeepWaiting(s: Sys, step: Step, me: nat)
    requires Inv(s) && Running(s, me) && Waiting(Row(s, me).status) && Enabled(s, step) && !(step.Work? && step.d == me)
    ensures Known(Do(s, step), me) && Waiting(Row(Do(s, step), me).status)
  {
    assert LocalOk(s, me);
    if step.Flush? {
      FlushKeepsWaiting(s, step.ok, me);
    } else if Actor(step) != Some(me) {
      StepFacts(s, step);
      assert Untouched(s, Do(s, step), me);
    } else if step.StartSend? || step.EndSend? || step.Collect? {
      StageKeepsRow(s, step, me);
    } else {
      HandlerKeepsWaiting(s, step, me);
    }
  }

  lemma LastWorkKeepsWaiting(s: Sys, me: nat, ok: bool)
    requires CanWork(s, me) && Failing(RunOf(s, me).pc) && Waiting(Row(s, me).status)
    ensures Known(DoWork(s, me, ok), me) && Waiting(Row(DoWork(s, me, ok), me).status)
  {
  }

  lemma {:induction false} OthersActKeepWaiting(m: Moment, others: seq<Step>, me: nat)
    requires Inv(m.s) && Running(m.s, me) && Waiting(Row(m.s, me).status)
    ensures var m' := OthersAct(m, others, me);
      && Inv(m'.s) && Running(m'.s, me) && Waiting(Row(m'.s, me).status) && RunOf(m'.s, me) == RunOf(m.s, me)
  {
    if others == [] {
    } else {
      OthersActKeepWaiting(m, others[..|others| - 1], me);
      var mid, step := OthersAct(m, others[..|others| - 1], me), others[|others| - 1];
      if Enabled(mid.s, step) && !(step.Work? && step.d == me) {
        OthersKeepWaiting(mid.s, step, me);
        OthersKeepRun(mid.s, step, me);
        InvStep(mid.s, step);
      }
    }
  }

  /** A lost FAILED write is not made up for by the rest of the failing exit. */
  lemma NextKeepsWaiting(m: Moment, me: nat)
    requires Inv(m.s) && Running(m.s, me) && Failing(RunOf(m.s, me).pc) && Waiting(Row(m.s, me).status)
    ensures Known(Next(m, me).s, me) && Waiting(Row(Next(m, me).s, me).status)
  {
    if CanWork(m.s, me) {
      OthersActKeepWaiting(Moment(m.s, Rest(m.schedule), m.trace), NextTurn(m.schedule).others, me);
      if CallsNothing(m.s, me) {
        LastWorkKeepsWaiting(m.s, me, true);
      } else if CanWork(Met(m, me).s, me) {
        LastWorkKeepsWaiting(Met(m, me).s, me, NextTurn(m.schedule).ok);
      }
    }
  }
}
