/** A push fan-out among the others: a schedule says what the others do before each
    call of the worker and whether the call succeeds.

    A schedule is finite: when it has run out the others rest and every call
    succeeds.  What the worker does is then determined, statement by statement. */
module PushSchedule {
  import opened Options
  import opened PushProtocol
  import opened PushSafety
  import opened Keyset
  import opened Iterations

  datatype Turn = Turn(others: seq<Step>, ok: bool)

  /** `c` is reached from the reachable state `origin` by `trace`. */
  ghost predicate Reaches(origin: Cell, trace: seq<Step>, c: Cell) {
    Reachable(origin) && Exec(origin, trace) == Some(c)
  }

  lemma ReachesInv(origin: Cell, trace: seq<Step>, c: Cell)
    requires Reaches(origin, trace, c)
    ensures Inv(c)
  {
    ReachableInv(origin);
    RunInv(origin, trace);
  }

  lemma ReachesNext(origin: Cell, trace: seq<Step>, c: Cell, step: Step)
    requires Reaches(origin, trace, c) && Enabled(c, step)
    ensures Reaches(origin, trace + [step], Do(c, step))
  {
    var trace' := trace + [step];
    assert trace'[..|trace'| - 1] == trace;
  }

  lemma OthersKeepRun(c: Cell, step: Step)
    requires Inv(c) && Enabled(c, step) && c.run.Some? && !step.Work?
    ensures Do(c, step).run == c.run && Do(c, step).job == c.job && Do(c, step).pageSize == c.pageSize
  {
  }

  /** What reading a page does to the worker. */
  lemma FetchResult(c: Cell, ok: bool)
    requires CanWork(c) && c.run.value.pc.AtTokens?
    ensures var c', run, page := DoWork(c, ok), c.run.value, PageOf(c.eligible, c.run.value.cursor, c.pageSize);
      && c'.row == c.row && c'.receipts == c.receipts && c'.eligible == c.eligible
      && c'.job == c.job && c'.pageSize == c.pageSize && c'.run.Some?
      && (var run' := c'.run.value;
          run' == if ok then run.(pc := AtEmit(page, 0), total := run.total + |page.ids|, scan := run'.scan)
                  else run.(pc := AtFailWrite))
  {
  }

  /** A run that has emitted `sent` tokens of a page. */
  function Pushing(run: Run, page: Page, sent: nat): Run {
    run.(pc := AtEmit(page, sent), emitted := run.emitted + sent)
  }

  function Pushed(run: Run): Run
    requires run.pc.AtEmit?
  {
    run.(pc := AtEmit(run.pc.page, run.pc.sent + 1), emitted := run.emitted + 1)
  }

  lemma PushesMore(run: Run, page: Page, sent: nat)
    ensures Pushed(Pushing(run, page, sent)) == Pushing(run, page, sent + 1)
    ensures run.pc == AtEmit(page, 0) ==> Pushing(run, page, 0) == run
  {
  }

  lemma EmitResult(c: Cell, ok: bool, run: Run)
    requires CanWork(c) && c.run == Some(run) && run.pc.AtEmit? && run.pc.sent < |run.pc.page.ids|
    ensures var c' := DoWork(c, ok);
      && c'.row == c.row && c'.receipts == c.receipts && c'.job == c.job && c'.pageSize == c.pageSize && c'.eligible == c.eligible
      && c'.run == Some(if ok then Pushed(run) else run.(pc := Ended(EmitRefused)))
  {
  }

  lemma NextInside(s: set<nat>, cursor: nat, size: nat)
    requires size >= 1
    ensures var p := PageOf(s, cursor, size); p.more ==> p.next in s && p.next > cursor
  {
    PageContents(s, cursor, size);
  }

  // ---- one statement after another ---------------------------------------------------------

  /** The machine, what is left of the schedule, and what has happened so far. */
  datatype Moment = Moment(c: Cell, schedule: seq<Turn>, trace: seq<Step>)

  function NextTurn(schedule: seq<Turn>): Turn {
    if schedule == [] then Turn([], true) else schedule[0]
  }

  function Rest(schedule: seq<Turn>): seq<Turn> {
    if schedule == [] then [] else schedule[1..]
  }

  ghost predicate AllOk(schedule: seq<Turn>) {
    forall i :: 0 <= i < |schedule| ==> schedule[i].ok
  }

  /** The others take their enabled steps, in order. */
  ghost function OthersAct(m: Moment, others: seq<Step>): Moment {
    if others == [] then m
    else
      var mid, step := OthersAct(m, others[..|others| - 1]), others[|others| - 1];
      if Enabled(mid.c, step) && !step.Work? then Moment(Do(mid.c, step), mid.schedule, mid.trace + [step]) else mid
  }

  ghost function Met(m: Moment): Moment {
    OthersAct(Moment(m.c, Rest(m.schedule), m.trace), NextTurn(m.schedule).others)
  }

  /** The worker's next statement, with its answer. */
  function Acted(m: Moment, ok: bool): Moment {
    if CanWork(m.c) then Moment(DoWork(m.c, ok), m.schedule, m.trace + [Work(ok)]) else m
  }

  /** The branch at the end of a page calls nothing. */
  predicate CallsNothing(c: Cell)
    requires c.run.Some?
  {
    c.run.value.pc.AtEmit? && c.run.value.pc.sent >= |c.run.value.pc.page.ids|
  }

  /** The next statement, calls with the answer their turn gives. */
  ghost function Next(m: Moment): Moment {
    if !CanWork(m.c) then m
    else if CallsNothing(m.c) then Acted(m, true)
    else Acted(Met(m), NextTurn(m.schedule).ok)
  }

  ghost function Turning(): Moment -> Moment {
    m => Next(m)
  }

  /** `m'` is what the schedule makes of `m` after some statements of the worker. */
  ghost predicate Follows(m: Moment, m': Moment) {
    TurnsInto(Turning(), m, m')
  }

  lemma FollowsOn(m: Moment, m': Moment, m'': Moment)
    requires Follows(m, m') && Follows(m', m'')
    ensures Follows(m, m'')
  {
    TurnsOn(Turning(), m, m', m'');
  }

  lemma FollowsOne(m: Moment)
    ensures Follows(m, m) && Follows(m, Next(m))
  {
    OneTurn(Turning(), m);
  }

  lemma FollowsNext(m: Moment, m': Moment)
    requires Follows(m, m')
    ensures Follows(m, Next(m'))
  {
    FollowsOne(m');
    FollowsOn(m, m', Next(m'));
  }

  // ---- with nobody in between ------------------------------------------------------------------

  /** Nothing has failed so far, and every page was read from the set `tokens`. */
  ghost predicate Smooth(c: Cell, tokens: set<nat>) {
    && Inv(c) && c.run.Some? && c.eligible == tokens
    && (forall k :: 0 <= k < |c.run.value.scan.seen| ==> c.run.value.scan.seen[k] == tokens)
    && (forall x :: x in c.flights ==> c.flights[x] == Fetched || c.flights[x] == Tasked)
  }

  lemma SmoothSeen(c: Cell, tokens: set<nat>)
    requires Smooth(c, tokens) && CanWork(c)
    ensures var c' := DoWork(c, true);
      && c'.run.Some? && c'.eligible == tokens
      && forall k :: 0 <= k < |c'.run.value.scan.seen| ==> c'.run.value.scan.seen[k] == tokens
  {
  }

  lemma SmoothFlights(c: Cell)
    requires CanWork(c) && forall x :: x in c.flights ==> c.flights[x] == Fetched || c.flights[x] == Tasked
    ensures forall x :: x in DoWork(c, true).flights ==> DoWork(c, true).flights[x] == Fetched || DoWork(c, true).flights[x] == Tasked
  {
  }

  lemma SmoothStep(c: Cell, tokens: set<nat>)
    requires Smooth(c, tokens) && CanWork(c)
    ensures Smooth(DoWork(c, true), tokens)
  {
    WorkOk(c, true);
    SmoothSeen(c, tokens);
    SmoothFlights(c);
  }

  ghost predicate Calm(m: Moment, tokens: set<nat>) {
    m.schedule == [] && Smooth(m.c, tokens)
  }

  lemma SmoothNext(m: Moment, tokens: set<nat>)
    requires Calm(m, tokens)
    ensures Calm(Next(m), tokens)
  {
    assert Moment(m.c, [], m.trace) == m;
    if CanWork(m.c) {
      SmoothStep(m.c, tokens);
    }
  }

  lemma SmoothRun(m: Moment, m': Moment, tokens: set<nat>)
    requires Calm(m, tokens) && Follows(m, m')
    ensures Calm(m', tokens)
  {
    forall k: Moment | Calm(k, tokens) ensures Calm(Next(k), tokens) {
      SmoothNext(k, tokens);
    }
    var n: nat :| Iterate(Turning(), m, n) == m';
    IterateKeeps(Turning(), m, n, k => Calm(k, tokens));
  }

  /** A finished fan-out that nobody disturbed has emitted exactly the eligible
      tokens, in order. */
  lemma UndisturbedReachesAll(origin: Cell, m: Moment, m': Moment)
    requires Reaches(origin, m.trace, m.c) && m.schedule == [] && Follows(m, m')
    requires m.c.run == Some(NEW_RUN)
    requires m'.c.run.Some? && m'.c.run.value.pc == Ended(Rechecked)
    ensures m'.c.run.value.scan.fetched == Sorted(m.c.eligible)
    ensures forall x :: x in m'.c.flights <==> x in m.c.eligible
    ensures forall x :: x in m'.c.flights ==> m'.c.flights[x] == Tasked
  {
    ReachesInv(origin, m.trace, m.c);
    assert m.c.flights == map[];
    SmoothRun(m, m', m.c.eligible);
    FixedSetScan(m'.c.run.value.scan, m.c.eligible);
    EmittedAll(m'.c);
  }

  lemma EmittedAll(c: Cell)
    requires Inv(c) && c.run.Some? && c.run.value.pc == Ended(Rechecked)
    ensures forall x :: x in c.flights ==> c.flights[x] != Fetched
    ensures forall x :: x in c.flights <==> x in c.run.value.scan.fetched
  {
    forall x | x in c.flights ensures c.flights[x] != Fetched {
      var i :| 0 <= i < |c.run.value.scan.fetched| && c.run.value.scan.fetched[i] == x;
    }
  }
}
