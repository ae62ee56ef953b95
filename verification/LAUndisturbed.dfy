/** A fan-out that nobody disturbs and whose calls all succeed: whom it reaches,
    said from the state it starts in. */
module LAUndisturbed {
  import opened LATables
  import opened LAProtocol
  import opened LALocal
  import opened LAFrame
  import opened LASafety
  import opened LAScans
  import opened LASchedule
  import opened Keyset
  import opened Iterations

  /** Whom dispatch `me` is for in state `s`: with the columns written out in
      `Usable`, and linked to the activity if no start of the job is under way. */
  ghost predicate Meant(s: Sys, me: nat, x: nat) {
    Known(s, me) && Usable(s, me, x) && (Row(s, me).action == Start || StartUnderway(s, me) || Linked(s, me, x))
  }

  /** The part of the system a fan-out reads is as in `s0`. */
  ghost predicate SameWorld(s0: Sys, s: Sys, me: nat) {
    && Running(s0, me) && Running(s, me)
    && s.tables.tokens == s0.tables.tokens && s.tables.links == s0.tables.links && s.tables.subs == s0.tables.subs
    && s.now == s0.now && s.pageSize == s0.pageSize
    && Row(s, me).action == Row(s0, me).action && Row(s, me).job == Row(s0, me).job
    && JobOf(s, me).activity == JobOf(s0, me).activity && JobOf(s, me).scope == JobOf(s0, me).scope
    && s.tables.dispatches.Keys == s0.tables.dispatches.Keys
    && (forall e :: e in s.tables.dispatches && e != me ==> s.tables.dispatches[e] == s0.tables.dispatches[e])
  }

  /** The one set every page is read from. */
  function Audience(s: Sys, me: nat): set<nat>
    requires Known(s, me)
  {
    TokenSet(s, me, StartPending(s.tables, Row(s, me).job))
  }

  ghost predicate Smooth(s0: Sys, s: Sys, me: nat) {
    && Inv(s) && SameWorld(s0, s, me)
    && (forall k :: 0 <= k < |RunOf(s, me).scan.seen| ==> RunOf(s, me).scan.seen[k] == Audience(s0, me))
    && (RunOf(s, me).pc.AtTokens? && Row(s, me).action != Start ==>
          RunOf(s, me).pc.startPending == StartPending(s0.tables, Row(s0, me).job))
    && Unfailed(s.procs[me])
    && Unsettled(s.procs[me].flights)
  }

  ghost predicate Unsettled(flights: map<nat, Flight>) {
    forall x :: x in flights ==> flights[x].stage == Fetched || flights[x].stage == Tasked
  }

  lemma SameAudience(s0: Sys, s: Sys, me: nat, flag: bool)
    requires SameWorld(s0, s, me) && (Row(s, me).action == Start || flag == StartPending(s0.tables, Row(s0, me).job))
    ensures TokenSet(s, me, flag) == Audience(s0, me)
  {
  }

  lemma SamePending(s0: Sys, s: Sys, me: nat)
    requires SameWorld(s0, s, me) && Row(s, me).action != Start
    ensures StartPending(s.tables, Row(s, me).job) == StartPending(s0.tables, Row(s0, me).job)
  {
  }

  lemma MeantIsAudience(s: Sys, me: nat, x: nat)
    requires Known(s, me) && x >= 1
    ensures x in Audience(s, me) <==> Meant(s, me, x)
  {
    QueriesBracket(s, me, StartPending(s.tables, Row(s, me).job), x);
    PendingIsUnderway(s, me);
  }

  // ---- one statement -----------------------------------------------------------------------

  ghost predicate ReadsKept(s: Sys, s': Sys) {
    && s'.tables.tokens == s.tables.tokens && s'.tables.links == s.tables.links && s'.tables.subs == s.tables.subs
    && s'.now == s.now && s'.pageSize == s.pageSize
  }

  lemma EarlyKeeps(s: Sys, me: nat)
    requires CanWork(s, me)
    requires var pc := RunOf(s, me).pc; pc.AtFirstCheck? || pc.AtMark? || pc.AtCheck? || pc.AtScope? || pc.AtTokens? || pc.AtEmit?
    ensures ReadsKept(s, DoWork(s, me, true))
  {
  }

  lemma LateKeeps(s: Sys, me: nat)
    requires CanWork(s, me) && RunOf(s, me).failed == []
    requires var pc := RunOf(s, me).pc; pc.AtComplete? || pc.AtFollowUp? || pc.AtApply?
    ensures ReadsKept(s, DoWork(s, me, true))
  {
  }

  lemma WorldStays(s0: Sys, s: Sys, me: nat)
    requires Smooth(s0, s, me) && CanWork(s, me)
    ensures SameWorld(s0, DoWork(s, me, true), me)
  {
    var s' := DoWork(s, me, true);
    StepRun(s, Work(me, true), me);
    OwnRowOnly(s, me);
    var pc := RunOf(s, me).pc;
    if pc.AtComplete? || pc.AtFollowUp? || pc.AtApply? {
      LateKeeps(s, me);
    } else {
      EarlyKeeps(s, me);
    }
    Onwards(s0, s, s', me);
  }

  lemma OwnRowOnly(s: Sys, me: nat)
    requires Inv(s) && CanWork(s, me)
    ensures var s' := DoWork(s, me, true);
      && Stays(s, s', me) && s'.tables.dispatches.Keys == s.tables.dispatches.Keys
      && forall e :: e in s.tables.dispatches && e != me ==> s'.tables.dispatches[e] == s.tables.dispatches[e]
  {
    var s' := DoWork(s, me, true);
    StepFacts(s, Work(me, true));
    WorkKeys(s, me, true);
    forall e | e in s.tables.dispatches && e != me ensures s'.tables.dispatches[e] == s.tables.dispatches[e] {
      assert Untouched(s, s', e);
    }
  }

  lemma Onwards(s0: Sys, s: Sys, s': Sys, me: nat)
    requires SameWorld(s0, s, me) && ReadsKept(s, s') && Running(s', me)
    requires Stays(s, s', me) && s'.tables.dispatches.Keys == s.tables.dispatches.Keys
    requires forall e :: e in s.tables.dispatches && e != me ==> s'.tables.dispatches[e] == s.tables.dispatches[e]
    ensures SameWorld(s0, s', me)
  {
  }

  lemma SeenStays(s0: Sys, s: Sys, me: nat)
    requires Smooth(s0, s, me) && CanWork(s, me)
    ensures var s' := DoWork(s, me, true);
      && Running(s', me)
      && (forall k :: 0 <= k < |RunOf(s', me).scan.seen| ==> RunOf(s', me).scan.seen[k] == Audience(s0, me))
      && (RunOf(s', me).pc.AtTokens? && Row(s, me).action != Start ==>
            RunOf(s', me).pc.startPending == StartPending(s0.tables, Row(s0, me).job))
  {
    StepRun(s, Work(me, true), me);
    if RunOf(s, me).pc.AtTokens? {
      SameAudience(s0, s, me, RunOf(s, me).pc.startPending);
    }
    SeenOnwards(s0, s, DoWork(s, me, true), me);
  }

  lemma SeenOnwards(s0: Sys, s: Sys, s': Sys, me: nat)
    requires SameWorld(s0, s, me) && CanWork(s, me) && RunMoves(s, Work(me, true), me, s')
    requires forall k :: 0 <= k < |RunOf(s, me).scan.seen| ==> RunOf(s, me).scan.seen[k] == Audience(s0, me)
    requires RunOf(s, me).pc.AtTokens? ==> TokenSet(s, me, RunOf(s, me).pc.startPending) == Audience(s0, me)
    requires RunOf(s, me).pc.AtTokens? && Row(s, me).action != Start ==>
      RunOf(s, me).pc.startPending == StartPending(s0.tables, Row(s0, me).job)
    ensures forall k :: 0 <= k < |RunOf(s', me).scan.seen| ==> RunOf(s', me).scan.seen[k] == Audience(s0, me)
    ensures RunOf(s', me).pc.AtTokens? && Row(s, me).action != Start ==>
      RunOf(s', me).pc.startPending == StartPending(s0.tables, Row(s0, me).job)
  {
    if Row(s, me).action != Start {
      SamePending(s0, s, me);
    }
  }

  ghost predicate Unfailed(p: Proc) {
    p.run.Some? && p.run.value.failed == [] && !p.run.value.pc.AtFail? && !Failing(p.run.value.pc)
  }

  /** A statement that succeeds leads to no failing exit. */
  lemma StaysUnfailed(s: Sys, me: nat)
    requires CanWork(s, me) && Unfailed(s.procs[me])
    ensures Unfailed(DoWork(s, me, true).procs[me])
  {
    var pc := RunOf(s, me).pc;
    if pc.AtComplete? || pc.AtFollowUp? || pc.AtApply? {
      EndsUnfailed(s, me);
    } else if pc.AtTokens? || pc.AtEmit? {
      PagesUnfailed(s, me);
    } else {
      ChecksUnfailed(s, me);
    }
  }

  lemma EndsUnfailed(s: Sys, me: nat)
    requires CanWork(s, me) && Unfailed(s.procs[me])
    requires RunOf(s, me).pc.AtComplete? || RunOf(s, me).pc.AtFollowUp? || RunOf(s, me).pc.AtApply?
    ensures Unfailed(DoWork(s, me, true).procs[me])
  {
  }

  lemma PagesUnfailed(s: Sys, me: nat)
    requires CanWork(s, me) && Unfailed(s.procs[me]) && (RunOf(s, me).pc.AtTokens? || RunOf(s, me).pc.AtEmit?)
    ensures Unfailed(DoWork(s, me, true).procs[me])
  {
  }

  lemma ChecksUnfailed(s: Sys, me: nat)
    requires CanWork(s, me) && Unfailed(s.procs[me])
    requires var pc := RunOf(s, me).pc; pc.AtFirstCheck? || pc.AtMark? || pc.AtCheck? || pc.AtScope?
    ensures Unfailed(DoWork(s, me, true).procs[me])
  {
  }

  lemma FlightsStay(s: Sys, me: nat)
    requires LocalOk(s, me) && CanWork(s, me) && RunOf(s, me).failed == [] && Unsettled(s.procs[me].flights)
    requires !Failing(RunOf(s, me).pc)
    ensures Unsettled(DoWork(s, me, true).procs[me].flights)
  {
    var pc := RunOf(s, me).pc;
    if pc.AtTokens? {
      FetchUnsettled(s, me);
    } else if pc.AtEmit? {
      EmitUnsettled(s, me);
    } else if !pc.AtApply? {
      WorkKeepsFlights(s, me, true);
    }
  }

  lemma FetchUnsettled(s: Sys, me: nat)
    requires CanWork(s, me) && RunOf(s, me).pc.AtTokens? && Unsettled(s.procs[me].flights)
    ensures Unsettled(WorkTokens(s, me, true).procs[me].flights)
  {
  }

  lemma EmitUnsettled(s: Sys, me: nat)
    requires CanWork(s, me) && RunOf(s, me).pc.AtEmit? && Unsettled(s.procs[me].flights)
    ensures Unsettled(WorkEmit(s, me, true).procs[me].flights)
  {
  }

  lemma SmoothStep(s0: Sys, s: Sys, me: nat)
    requires Smooth(s0, s, me) && CanWork(s, me)
    ensures Smooth(s0, DoWork(s, me, true), me)
  {
    assert LocalOk(s, me);
    InvStep(s, Work(me, true));
    WorldStays(s0, s, me);
    SeenStays(s0, s, me);
    StaysUnfailed(s, me);
    FlightsStay(s, me);
  }

  lemma NextAlone(m: Moment, me: nat)
    requires m.schedule == []
    ensures Next(m, me) == Acted(m, me, true)
  {
    assert Moment(m.s, [], m.trace) == m;
  }

  ghost predicate Calm(s0: Sys, m: Moment, me: nat) {
    m.schedule == [] && Smooth(s0, m.s, me)
  }

  lemma SmoothNext(s0: Sys, m: Moment, me: nat)
    requires Calm(s0, m, me)
    ensures Calm(s0, Next(m, me), me)
  {
    NextAlone(m, me);
    if CanWork(m.s, me) {
      SmoothStep(s0, m.s, me);
    }
  }

  lemma SmoothRun(s0: Sys, m: Moment, m': Moment, me: nat)
    requires Calm(s0, m, me) && Follows(m, m', me)
    ensures Calm(s0, m', me)
  {
    forall k: Moment | Calm(s0, k, me) ensures Calm(s0, Next(k, me), me) {
      SmoothNext(s0, k, me);
    }
    var n: nat :| Iterate(Turning(me), m, n) == m';
    IterateKeeps(Turning(me), m, n, k => Calm(s0, k, me));
  }

  lemma NewIsSmooth(s: Sys, me: nat)
    requires Inv(s) && Running(s, me) && RunOf(s, me) == NewRun(Row(s, me).action)
    ensures Smooth(s, s, me)
  {
    assert LocalOk(s, me);
  }

  /** With nobody in between and no failing call, a finished scan has fetched
      exactly the tokens the dispatch was meant for when it began, and all of them
      have gone to the task queue. */
  lemma UndisturbedReachesAll(origin: Sys, m: Moment, m': Moment, me: nat)
    requires Reaches(origin, m.trace, m.s) && m.schedule == [] && Follows(m, m', me)
    requires Running(m.s, me) && RunOf(m.s, me) == NewRun(Row(m.s, me).action)
    requires Running(m'.s, me) && RunOf(m'.s, me).pc.Finished? && RunOf(m'.s, me).scan.done
    ensures Increasing(RunOf(m'.s, me).scan.fetched)
    ensures forall x :: x in RunOf(m'.s, me).scan.fetched <==> Meant(m.s, me, x)
    ensures forall x :: x in m'.s.procs[me].flights <==> x in RunOf(m'.s, me).scan.fetched
    ensures forall x :: x in m'.s.procs[me].flights ==> m'.s.procs[me].flights[x].stage == Tasked
  {
    ReachesInv(origin, m.trace, m.s);
    NewIsSmooth(m.s, me);
    SmoothRun(m.s, m, m', me);
    SmoothReachesAll(m.s, m'.s, me);
  }

  lemma SmoothReachesAll(s0: Sys, s: Sys, me: nat)
    requires Smooth(s0, s, me) && RunOf(s, me).pc.Finished? && RunOf(s, me).scan.done
    ensures Increasing(RunOf(s, me).scan.fetched)
    ensures forall x :: x in RunOf(s, me).scan.fetched <==> Meant(s0, me, x)
    ensures forall x :: x in s.procs[me].flights <==> x in RunOf(s, me).scan.fetched
    ensures forall x :: x in s.procs[me].flights ==> s.procs[me].flights[x].stage == Tasked
  {
    assert LocalOk(s, me);
    AllTasked(Row(s, me), s.procs[me], RunOf(s, me), me, JobOf(s, me).activity);
    forall x ensures x in RunOf(s, me).scan.fetched <==> Meant(s0, me, x) {
      if x >= 1 {
        FixedAudience(RunOf(s, me).scan, Audience(s0, me), x);
        MeantIsAudience(s0, me, x);
      }
    }
  }

  lemma AllTasked(row: Dispatch, p: Proc, run: Run, d: nat, activity: nat)
    requires StockOk(row, p, run, d, activity) && run.pc.Finished? && Unsettled(p.flights)
    ensures forall x :: x in p.flights <==> x in run.scan.fetched
    ensures forall x :: x in p.flights ==> p.flights[x].stage == Tasked
  {
  }

  lemma FixedAudience(scan: Scan, audience: set<nat>, x: nat)
    requires ScanOk(scan) && scan.done && x >= 1
    requires forall k :: 0 <= k < |scan.seen| ==> scan.seen[k] == audience
    ensures x in scan.fetched <==> x in audience
  {
    assert scan.seen[0] == audience;
    assert x in audience ==> InEvery(scan.seen, x);
  }
}
