/** What a Live Activity fan-out reaches while tokens, links, subscriptions and
    even its own query change from page to page. */
module LAScans {
  import opened Options
  import opened LATables
  import opened LAProtocol
  import opened LALocal
  import opened LAForward
  import opened LAFrame
  import opened LASafety
  import opened LATheorems
  import opened Keyset
  import opened Sequences

  // ---- what one page read selects -------------------------------------------------------

  /** A token that dispatch `d` is for, with the columns written out: a start goes
      to APNS start tokens and FCM update tokens, everything else to update tokens,
      of the job's user or of the subscribers of its topic. */
  ghost predicate Usable(s: Sys, d: nat, x: nat) {
    && Known(s, d) && x >= 1 && x in s.tables.tokens
    && var token, job := s.tables.tokens[x], JobOf(s, d);
    && !token.invalidated
    && (token.expiresAt == None || token.expiresAt.value > s.now)
    && (match job.scope
        case UserScope(user) => token.user == user
        case TopicScope(topic) => (token.user, topic) in s.tables.subs)
    && (if Row(s, d).action == Start
        then (token.platform == Apns && token.kind == StartToken) || (token.platform == Fcm && token.kind == UpdateToken)
        else token.kind == UpdateToken)
  }

  ghost predicate Linked(s: Sys, d: nat, x: nat)
    requires Known(s, d)
  {
    (JobOf(s, d).activity, x) in s.tables.links
  }

  /** Whichever of the four queries a dispatch runs, it selects exactly the usable
      tokens, and for an update or end with the flag clear only the linked ones. */
  lemma QueriesBracket(s: Sys, d: nat, startPending: bool, x: nat)
    requires Known(s, d) && x >= 1
    ensures x in TokenSet(s, d, startPending) <==>
            Usable(s, d, x) && (Row(s, d).action == Start || startPending || Linked(s, d, x))
  {
  }

  /** Some start of the job of `d` has been written and has not come to its end. */
  ghost predicate StartUnderway(s: Sys, d: nat)
    requires Known(s, d)
  {
    exists e :: e in s.tables.dispatches && s.tables.dispatches[e].job == Row(s, d).job && s.tables.dispatches[e].action == Start
      && (s.tables.dispatches[e].status == EnqueuePending || s.tables.dispatches[e].status == Queued
          || s.tables.dispatches[e].status == InProgress || s.tables.dispatches[e].status == Dispatched)
  }

  lemma PendingIsUnderway(s: Sys, d: nat)
    requires Known(s, d)
    ensures StartPending(s.tables, Row(s, d).job) <==> StartUnderway(s, d)
  {
  }

  // ---- one step seen from a run --------------------------------------------------------

  ghost predicate Reading(s: Sys, step: Step, d: nat) {
    Running(s, d) && step == Work(d, true) && RunOf(s, d).pc.AtTokens? && s.pageSize >= 1
  }

  /** A run's scan changes only by reading a page, and a page is read with the
      flag the last scope read saw. */
  ghost predicate RunMoves(s: Sys, step: Step, d: nat, s': Sys)
    requires Running(s, d)
  {
    && Running(s', d)
    && (if Reading(s, step, d)
        then RunOf(s', d).scan == ReadPage(RunOf(s, d).scan, TokenSet(s, d, RunOf(s, d).pc.startPending), s.pageSize)
        else RunOf(s', d).scan == RunOf(s, d).scan)
    && (RunOf(s', d).pc.AtTokens? ==>
          RunOf(s', d).pc == RunOf(s, d).pc || RunOf(s', d).pc.startPending == StartPending(s.tables, Row(s, d).job))
  }

  lemma PageRun(s: Sys, d: nat, ok: bool)
    requires CanWork(s, d) && Known(DoWork(s, d, ok), d)
    requires RunOf(s, d).pc.AtScope? || RunOf(s, d).pc.AtTokens?
    ensures RunMoves(s, Work(d, ok), d, DoWork(s, d, ok))
  {
  }

  lemma LoopRun(s: Sys, d: nat, ok: bool)
    requires CanWork(s, d) && Known(DoWork(s, d, ok), d)
    requires var pc := RunOf(s, d).pc; pc.AtFirstCheck? || pc.AtMark? || pc.AtCheck? || pc.AtEmit?
    ensures RunMoves(s, Work(d, ok), d, DoWork(s, d, ok))
  {
  }

  lemma ExitRun(s: Sys, d: nat, ok: bool)
    requires CanWork(s, d) && Known(DoWork(s, d, ok), d)
    requires RunOf(s, d).pc.AtFollowUp? || RunOf(s, d).pc.AtFailStart?
    ensures RunMoves(s, Work(d, ok), d, DoWork(s, d, ok))
  {
  }

  lemma FailRun(s: Sys, d: nat, ok: bool)
    requires CanWork(s, d) && Known(DoWork(s, d, ok), d) && RunOf(s, d).pc.AtFail?
    ensures RunMoves(s, Work(d, ok), d, DoWork(s, d, ok))
  {
  }

  lemma CompleteRun(s: Sys, d: nat, ok: bool)
    requires CanWork(s, d) && Known(DoWork(s, d, ok), d) && RunOf(s, d).pc.AtComplete?
    ensures RunMoves(s, Work(d, ok), d, DoWork(s, d, ok))
  {
  }

  lemma ApplyRun(s: Sys, d: nat, ok: bool)
    requires CanWork(s, d) && Known(DoWork(s, d, ok), d)
    requires RunOf(s, d).pc.AtApply? || RunOf(s, d).pc.AtFailApply?
    ensures RunMoves(s, Work(d, ok), d, DoWork(s, d, ok))
  {
    var next := if RunOf(s, d).pc.AtApply? then Finished else AtFailStart;
    assert DoWork(s, d, ok) == WorkApply(s, d, ok, next);
    ApplyScan(s, d, ok, next);
  }

  lemma ApplyScan(s: Sys, d: nat, ok: bool, next: Pc)
    requires Running(s, d)
    ensures var p' := WorkApply(s, d, ok, next).procs[d];
      p'.run.Some? && p'.run.value.scan == RunOf(s, d).scan && p'.run.value.pc == next
  {
  }

  lemma WorkRun(s: Sys, d: nat, ok: bool)
    requires CanWork(s, d) && Known(DoWork(s, d, ok), d)
    ensures RunMoves(s, Work(d, ok), d, DoWork(s, d, ok))
  {
    match RunOf(s, d).pc
    case AtScope => PageRun(s, d, ok);
    case AtTokens(_) => PageRun(s, d, ok);
    case AtFirstCheck => LoopRun(s, d, ok);
    case AtMark => LoopRun(s, d, ok);
    case AtCheck => LoopRun(s, d, ok);
    case AtEmit(_, _) => LoopRun(s, d, ok);
    case AtApply => ApplyRun(s, d, ok);
    case AtFailApply => ApplyRun(s, d, ok);
    case AtComplete => CompleteRun(s, d, ok);
    case AtFail => FailRun(s, d, ok);
    case _ => ExitRun(s, d, ok);
  }

  lemma HandlerRun(s: Sys, step: Step)
    requires Enabled(s, step)
    requires step.Submit? || step.Mark? || step.Refuse? || step.RefuseJob?
    requires Running(s, step.d)
    ensures Do(s, step).procs[step.d].run == s.procs[step.d].run
  {
  }

  lemma StageRun(s: Sys, step: Step)
    requires Enabled(s, step)
    requires step.StartSend? || step.EndSend? || step.Collect?
    ensures Do(s, step).procs[step.d].run == s.procs[step.d].run
  {
  }

  lemma ActorRun(s: Sys, step: Step, d: nat)
    requires Enabled(s, step) && Running(s, d) && Actor(step) == Some(d) && Known(Do(s, step), d)
    ensures RunMoves(s, step, d, Do(s, step))
  {
    match step
    case Work(_, ok) => WorkRun(s, d, ok);
    case StartSend(_, _) => StageRun(s, step);
    case EndSend(_, _, _, _) => StageRun(s, step);
    case Collect(_, _) => StageRun(s, step);
    case _ => HandlerRun(s, step);
  }

  lemma SameRun(s: Sys, step: Step, d: nat, s': Sys)
    requires Running(s, d) && Known(s', d) && s'.procs[d].run == s.procs[d].run && !Reading(s, step, d)
    ensures RunMoves(s, step, d, s')
  {
  }

  lemma FlushRun(s: Sys, ok: bool, d: nat)
    requires Running(s, d)
    ensures Known(DoFlush(s, ok), d) && DoFlush(s, ok).procs[d].run == s.procs[d].run
  {
    if ok {
      FlushStays(s, d);
    }
  }

  lemma StepRun(s: Sys, step: Step, d: nat)
    requires Inv(s) && Enabled(s, step) && Running(s, d)
    ensures RunMoves(s, step, d, Do(s, step))
  {
    StepFacts(s, step);
    assert Stays(s, Do(s, step), d);
    if Actor(step) == Some(d) {
      ActorRun(s, step, d);
    } else {
      if step.Flush? {
        FlushRun(s, step.ok, d);
      }
      SameRun(s, step, d, Do(s, step));
    }
  }

  /** A delivered start stays delivered. */
  ghost predicate KeepsSent(f: map<nat, Flight>, g: map<nat, Flight>) {
    forall x :: x in f && f[x].stage.Resolved? && f[x].stage.verdict.Sent? ==>
      x in g && g[x].platform == f[x].platform && g[x].stage.Resolved? && g[x].stage.verdict.Sent?
  }

  lemma TokensKeepsSent(s: Sys, d: nat, ok: bool)
    requires LocalOk(s, d) && CanWork(s, d) && RunOf(s, d).pc.AtTokens?
    ensures KeepsSent(s.procs[d].flights, WorkTokens(s, d, ok).procs[d].flights)
  {
    if ok {
      var run, p := RunOf(s, d), s.procs[d];
      var matching := TokenSet(s, d, run.pc.startPending);
      PageContents(matching, run.cursor, s.pageSize);
      FetchKeepsSent(p, s.tables.tokens, PageOf(matching, run.cursor, s.pageSize));
    }
  }

  lemma EmitKeepsSent(s: Sys, d: nat, ok: bool)
    requires LocalOk(s, d) && CanWork(s, d) && RunOf(s, d).pc.AtEmit?
    ensures KeepsSent(s.procs[d].flights, WorkEmit(s, d, ok).procs[d].flights)
  {
    var page, sent := RunOf(s, d).pc.page, RunOf(s, d).pc.sent;
    if sent < |page.ids| {
      assert page.ids[sent] in page.ids[sent..];
      assert Pending(RunOf(s, d), page.ids[sent]);
    }
  }

  lemma ApplyFlights(s: Sys, d: nat, ok: bool, next: Pc)
    requires Running(s, d)
    ensures var f, g := s.procs[d].flights, WorkApply(s, d, ok, next).procs[d].flights;
      g == f || g == Move(f, AtWorker, if ok then Recorded else Dropped)
  {
    if RunOf(s, d).failed != [] && ok {
      assert WorkApply(s, d, true, next).procs[d].flights == Move(s.procs[d].flights, AtWorker, Recorded);
    }
  }

  lemma ApplyKeepsSent(s: Sys, d: nat, ok: bool, next: Pc)
    requires Running(s, d)
    ensures KeepsSent(s.procs[d].flights, WorkApply(s, d, ok, next).procs[d].flights)
  {
    ApplyFlights(s, d, ok, next);
    MoveKeepsSent(s.procs[d].flights, if ok then Recorded else Dropped);
  }

  lemma MoveKeepsSent(f: map<nat, Flight>, to: Place)
    ensures KeepsSent(f, Move(f, AtWorker, to))
  {
  }

  lemma WorkKeepsSent(s: Sys, d: nat, ok: bool)
    requires LocalOk(s, d) && CanWork(s, d)
    ensures KeepsSent(s.procs[d].flights, DoWork(s, d, ok).procs[d].flights)
  {
    match RunOf(s, d).pc
    case AtTokens(_) => TokensKeepsSent(s, d, ok);
    case AtEmit(_, _) => EmitKeepsSent(s, d, ok);
    case AtApply => ApplyKeepsSent(s, d, ok, Finished);
    case AtFailApply => ApplyKeepsSent(s, d, ok, AtFailStart);
    case _ => WorkKeepsFlights(s, d, ok);
  }

  lemma FetchKeepsSent(p: Proc, tokens: map<nat, Token>, page: Page)
    requires forall x :: x in page.ids ==> x !in p.flights
    ensures KeepsSent(p.flights, FetchFlights(p, tokens, page))
  {
  }

  lemma StageKeepsSent(s: Sys, step: Step)
    requires Enabled(s, step)
    requires step.StartSend? || step.EndSend? || step.Collect?
    ensures KeepsSent(s.procs[step.d].flights, Do(s, step).procs[step.d].flights)
  {
  }

  lemma FlushKeepsSent(s: Sys, d: nat)
    requires d in s.procs
    ensures KeepsSent(s.procs[d].flights, DoFlush(s, true).procs[d].flights)
  {
  }

  lemma StepKeepsSent(s: Sys, step: Step, d: nat)
    requires Enabled(s, step) && LocalOk(s, d)
    requires step.Work? ==> OwnFailures(s, step.d)
    ensures KeepsSent(s.procs[d].flights, Do(s, step).procs[d].flights)
  {
    if step.Flush? {
      if step.ok {
        FlushKeepsSent(s, d);
      }
    } else if Actor(step) != Some(d) {
      StepUntouched(s, step, d);
    } else {
      match step
      case Work(_, ok) => WorkKeepsSent(s, d, ok);
      case StartSend(_, _) => StageKeepsSent(s, step);
      case EndSend(_, _, _, _) => StageKeepsSent(s, step);
      case Collect(_, _) => StageKeepsSent(s, step);
      case _ => HandlerBatched(s, step);
    }
  }

  // ---- theorems over runs ----------------------------------------------------------------

  /** `x` is usable, and linked if so asked, whenever the run of `d` reads a page. */
  ghost predicate UsableAtReads(s: Sys, steps: seq<Step>, d: nat, x: nat, linked: bool) {
    steps == [] ||
    var init, last := steps[..|steps| - 1], steps[|steps| - 1];
    && UsableAtReads(s, init, d, x, linked)
    && Exec(s, init).Some?
    && (Reading(Exec(s, init).value, last, d) ==>
          Usable(Exec(s, init).value, d, x) && (linked ==> Linked(Exec(s, init).value, d, x)))
  }

  /** A run that has read no page yet. */
  ghost predicate Unread(s: Sys, d: nat) {
    Running(s, d) && RunOf(s, d).scan.seen == [] && !RunOf(s, d).pc.AtTokens?
  }

  lemma DoneScanHolds(s: Sys, d: nat, x: nat)
    requires Inv(s) && Running(s, d) && RunOf(s, d).scan.done && InEvery(RunOf(s, d).scan.seen, x) && x >= 1
    ensures ExactlyOnce(RunOf(s, d).scan.fetched, x)
  {
    assert LocalOk(s, d);
    OnceInIncreasing(RunOf(s, d).scan.fetched, x);
  }

  /** In every interleaving the tokens a fan-out fetches are strictly
      increasing, so none is sent to twice, and each was one the dispatch is for
      when its page was read. */
  lemma FetchesOnlyUsable(s: Sys, step: Step, d: nat)
    requires Reachable(s) && Enabled(s, step) && Running(s, d)
    ensures Running(Do(s, step), d) && Increasing(RunOf(Do(s, step), d).scan.fetched)
    ensures RunOf(s, d).scan.fetched <= RunOf(Do(s, step), d).scan.fetched
    ensures forall x :: x in RunOf(Do(s, step), d).scan.fetched && x !in RunOf(s, d).scan.fetched ==> Usable(s, d, x)
  {
    ReachableInv(s);
    StepRun(s, step, d);
    InvStep(s, step);
    assert LocalOk(Do(s, step), d) && LocalOk(s, d);
    if Reading(s, step, d) {
      var run := RunOf(s, d);
      PageContents(TokenSet(s, d, run.pc.startPending), run.cursor, s.pageSize);
      forall x | x in RunOf(Do(s, step), d).scan.fetched && x !in run.scan.fetched ensures Usable(s, d, x) {
        QueriesBracket(s, d, run.pc.startPending, x);
      }
    }
  }

  lemma LinkedSeenStep(s: Sys, step: Step, d: nat, x: nat)
    requires Inv(s) && Enabled(s, step) && Running(s, d) && x >= 1
    requires InEvery(RunOf(s, d).scan.seen, x)
    requires Reading(s, step, d) ==> Usable(s, d, x) && (Row(s, d).action == Start || Linked(s, d, x))
    ensures var s' := Do(s, step);
      Running(s', d) && Row(s', d).action == Row(s, d).action && InEvery(RunOf(s', d).scan.seen, x)
  {
    StepRun(s, step, d);
    StepFacts(s, step);
    assert Stays(s, Do(s, step), d);
    if Reading(s, step, d) {
      QueriesBracket(s, d, RunOf(s, d).pc.startPending, x);
    }
  }

  lemma {:induction false} LinkedSeen(s: Sys, steps: seq<Step>, d: nat, x: nat)
    requires Inv(s) && Unread(s, d) && Exec(s, steps).Some? && x >= 1
    requires UsableAtReads(s, steps, d, x, Row(s, d).action != Start)
    ensures var s' := Exec(s, steps).value;
      Running(s', d) && Row(s', d).action == Row(s, d).action && InEvery(RunOf(s', d).scan.seen, x)
  {
    if steps == [] {
    } else {
      var init := steps[..|steps| - 1];
      RunInv(s, init);
      LinkedSeen(s, init, d, x);
      LinkedSeenStep(Exec(s, init).value, steps[|steps| - 1], d, x);
    }
  }

  /** Query switching is safe: however the start-pending flag flips between
      pages, a linked token that is usable at every page read is fetched exactly
      once by a run that reads its last page. */
  lemma LinkedTokenOnce(s: Sys, steps: seq<Step>, d: nat, x: nat)
    requires Reachable(s) && Unread(s, d) && Row(s, d).action != Start && x >= 1
    requires Exec(s, steps).Some? && UsableAtReads(s, steps, d, x, true)
    ensures var s' := Exec(s, steps).value;
      Running(s', d) && (RunOf(s', d).scan.done ==> ExactlyOnce(RunOf(s', d).scan.fetched, x))
  {
    ReachableInv(s);
    LinkedSeen(s, steps, d, x);
    RunInv(s, steps);
    var s' := Exec(s, steps).value;
    if RunOf(s', d).scan.done {
      DoneScanHolds(s', d, x);
    }
  }

  /** A start run fetches every token it is for exactly once: APNS start tokens and
      FCM update tokens that are usable at each of its page reads. */
  lemma StartTokenOnce(s: Sys, steps: seq<Step>, d: nat, x: nat)
    requires Reachable(s) && Unread(s, d) && Row(s, d).action == Start && x >= 1
    requires Exec(s, steps).Some? && UsableAtReads(s, steps, d, x, false)
    ensures var s' := Exec(s, steps).value;
      Running(s', d) && (RunOf(s', d).scan.done ==> ExactlyOnce(RunOf(s', d).scan.fetched, x))
  {
    ReachableInv(s);
    LinkedSeen(s, steps, d, x);
    RunInv(s, steps);
    var s' := Exec(s, steps).value;
    if RunOf(s', d).scan.done {
      DoneScanHolds(s', d, x);
    }
  }

  /** When a start dispatch is COMPLETED, every FCM token its send reached is
      linked to the activity. */
  lemma CompletedStartIsLinked(s: Sys, sd: nat, x: nat)
    requires Reachable(s) && StartDelivered(s, sd, x) && Row(s, sd).status.Completed?
    ensures Linked(s, sd, x)
  {
    ReachableInv(s);
    CompletedLinks(s, sd, x);
  }

  lemma CompletedLinks(s: Sys, sd: nat, x: nat)
    requires Inv(s) && StartDelivered(s, sd, x) && Row(s, sd).status.Completed?
    ensures Linked(s, sd, x)
  {
    assert LocalOk(s, sd);
    KeysCount(s.procs[sd], RunOf(s, sd));
    CountsBounded(Row(s, sd), s.procs[sd].flights);
    assert RecordedStart(s, sd, x);
  }

  /** A delivered start that has not failed is pending or linked. */
  lemma PendingOrLinked(s: Sys, sd: nat, x: nat)
    requires Inv(s) && StartDelivered(s, sd, x) && !Row(s, sd).status.Failed?
    ensures StartPending(s.tables, Row(s, sd).job) || Linked(s, sd, x)
  {
    assert LocalOk(s, sd);
    if Row(s, sd).status.Completed? {
      CompletedLinks(s, sd, x);
    } else {
      assert s.tables.dispatches[sd].status in {EnqueuePending, Queued, InProgress, Dispatched};
    }
  }

  /** What a run keeps once the start has been delivered to `x`. */
  ghost predicate HandoverOk(s: Sys, sd: nat, d: nat, x: nat) {
    && Running(s, d) && !Row(s, d).action.Start?
    && StartDelivered(s, sd, x) && Row(s, sd).job == Row(s, d).job
    && InEvery(RunOf(s, d).scan.seen, x)
    && (RunOf(s, d).pc.AtTokens? ==> RunOf(s, d).pc.startPending || Linked(s, d, x))
  }

  lemma DeliveredStays(s: Sys, s': Sys, sd: nat, x: nat)
    requires StartDelivered(s, sd, x) && Stays(s, s', sd) && KeepsSent(s.procs[sd].flights, s'.procs[sd].flights)
    ensures StartDelivered(s', sd, x)
  {
  }

  lemma ReadHolds(s: Sys, step: Step, s': Sys, d: nat, x: nat)
    requires Running(s, d) && RunMoves(s, step, d, s') && !Row(s, d).action.Start?
    requires InEvery(RunOf(s, d).scan.seen, x) && x >= 1
    requires RunOf(s, d).pc.AtTokens? ==> RunOf(s, d).pc.startPending || Linked(s, d, x)
    requires Reading(s, step, d) ==> Usable(s, d, x)
    ensures InEvery(RunOf(s', d).scan.seen, x)
  {
    if Reading(s, step, d) {
      QueriesBracket(s, d, RunOf(s, d).pc.startPending, x);
    }
  }

  lemma HandoverStep(s: Sys, step: Step, sd: nat, d: nat, x: nat)
    requires Inv(s) && Enabled(s, step) && HandoverOk(s, sd, d, x) && !Row(s, sd).status.Failed? && x >= 1
    requires Reading(s, step, d) ==> Usable(s, d, x)
    ensures HandoverOk(Do(s, step), sd, d, x)
  {
    var s' := Do(s, step);
    StepRun(s, step, d);
    StepFacts(s, step);
    KeysStep(s, step);
    assert Stays(s, s', d) && Stays(s, s', sd) && LocalOk(s, sd);
    StepKeepsSent(s, step, sd);
    DeliveredStays(s, s', sd, x);
    PendingOrLinked(s, sd, x);
    ReadHolds(s, step, s', d, x);
  }

  /** A row that has not failed had not failed one step earlier. */
  lemma NotFailedBefore(a: Dispatch, b: Dispatch)
    requires Forward(a, b) && !b.status.Failed?
    ensures !a.status.Failed?
  {
  }

  lemma {:induction false} HandoverSeen(s: Sys, steps: seq<Step>, sd: nat, d: nat, x: nat)
    requires Inv(s) && HandoverOk(s, sd, d, x) && Exec(s, steps).Some? && UsableAtReads(s, steps, d, x, false) && x >= 1
    requires sd in Exec(s, steps).value.tables.dispatches && !Exec(s, steps).value.tables.dispatches[sd].status.Failed?
    ensures HandoverOk(Exec(s, steps).value, sd, d, x)
  {
    if steps == [] {
    } else {
      var init, last := steps[..|steps| - 1], steps[|steps| - 1];
      var mid := Exec(s, init).value;
      RunInv(s, init);
      RunLeads(s, init, sd);
      ForwardStep(mid, last, sd);
      NotFailedBefore(Row(mid, sd), Row(Do(mid, last), sd));
      HandoverSeen(s, init, sd, d, x);
      HandoverStep(mid, last, sd, d, x);
    }
  }

  // ---- exactly who is fetched ---------------------------------------------------------------

  /** `x` lies in the window of the page the run of `d` is about to read. */
  ghost predicate InWindow(s: Sys, d: nat, x: nat)
    requires Running(s, d) && RunOf(s, d).pc.AtTokens? && s.pageSize >= 1
  {
    var run := RunOf(s, d);
    var page := PageOf(TokenSet(s, d, run.pc.startPending), run.scan.cursor, s.pageSize);
    x > run.scan.cursor && (page.more ==> x <= page.next)
  }

  /** `p` held when the run of `d` read the page whose window holds `x`. */
  ghost predicate AtWindow(s: Sys, steps: seq<Step>, d: nat, x: nat, p: Sys -> bool) {
    steps != [] &&
    var init, last := steps[..|steps| - 1], steps[|steps| - 1];
    || AtWindow(s, init, d, x, p)
    || (Exec(s, init).Some? && Reading(Exec(s, init).value, last, d) && InWindow(Exec(s, init).value, d, x)
        && p(Exec(s, init).value))
  }

  /** The run of `d` would select `x` now. */
  ghost predicate Chosen(s: Sys, d: nat, x: nat) {
    && Running(s, d) && RunOf(s, d).pc.AtTokens?
    && Usable(s, d, x) && (Row(s, d).action == Start || RunOf(s, d).pc.startPending || Linked(s, d, x))
  }

  ghost predicate HasLink(s: Sys, d: nat, x: nat) {
    Known(s, d) && Linked(s, d, x)
  }

  lemma ReadAdds(s: Sys, d: nat, x: nat)
    requires Inv(s) && Running(s, d) && RunOf(s, d).pc.AtTokens? && s.pageSize >= 1 && x >= 1
    ensures var run := RunOf(s, d);
      x in ReadPage(run.scan, TokenSet(s, d, run.pc.startPending), s.pageSize).fetched <==>
      x in run.scan.fetched || (InWindow(s, d, x) && Chosen(s, d, x))
  {
    var run := RunOf(s, d);
    PageContents(TokenSet(s, d, run.pc.startPending), run.scan.cursor, s.pageSize);
    QueriesBracket(s, d, run.pc.startPending, x);
  }

  /** Exactly who a run fetches, in every interleaving: `x` is fetched if and only
      if, when the page whose window holds it was read, it was usable and, for an
      update or end, either linked or the scope had been read as start pending. */
  lemma {:induction false} FetchedExactlyWhen(s: Sys, steps: seq<Step>, d: nat, x: nat)
    requires Inv(s) && Unread(s, d) && Exec(s, steps).Some? && x >= 1
    ensures var s' := Exec(s, steps).value;
      && Running(s', d) && Row(s', d).action == Row(s, d).action && Row(s', d).job == Row(s, d).job
      && (x in RunOf(s', d).scan.fetched <==> AtWindow(s, steps, d, x, m => Chosen(m, d, x)))
  {
    if steps == [] {
      assert LocalOk(s, d);
    } else {
      var init, last := steps[..|steps| - 1], steps[|steps| - 1];
      var mid := Exec(s, init).value;
      FetchedExactlyWhen(s, init, d, x);
      RunInv(s, init);
      StepRun(mid, last, d);
      StepFacts(mid, last);
      assert Stays(mid, Do(mid, last), d);
      if Reading(mid, last, d) {
        ReadAdds(mid, d, x);
      }
    }
  }

  /** No start of the job of `d` is under way in any state of the run. */
  ghost predicate NeverPending(s: Sys, steps: seq<Step>, d: nat) {
    && Exec(s, steps).Some?
    && (Known(Exec(s, steps).value, d) ==> !StartUnderway(Exec(s, steps).value, d))
    && (steps != [] ==> NeverPending(s, steps[..|steps| - 1], d))
  }

  /** Then no page of the run is read with the flag set. */
  lemma {:induction false} FlagStaysClear(s: Sys, steps: seq<Step>, d: nat)
    requires Inv(s) && Unread(s, d) && NeverPending(s, steps, d)
    ensures var s' := Exec(s, steps).value;
      Running(s', d) && (RunOf(s', d).pc.AtTokens? ==> !RunOf(s', d).pc.startPending)
  {
    if steps == [] {
    } else {
      var init, last := steps[..|steps| - 1], steps[|steps| - 1];
      FlagStaysClear(s, init, d);
      RunInv(s, init);
      StepRun(Exec(s, init).value, last, d);
      PendingIsUnderway(Exec(s, init).value, d);
    }
  }

  lemma {:induction false} KeepsIdentity(s: Sys, steps: seq<Step>, d: nat)
    requires Inv(s) && Known(s, d) && Exec(s, steps).Some?
    ensures var s' := Exec(s, steps).value;
      Known(s', d) && Row(s', d).action == Row(s, d).action && Row(s', d).job == Row(s, d).job
  {
    if steps == [] {
    } else {
      var init, last := steps[..|steps| - 1], steps[|steps| - 1];
      KeepsIdentity(s, init, d);
      RunInv(s, init);
      StepFacts(Exec(s, init).value, last);
      assert Stays(Exec(s, init).value, Do(Exec(s, init).value, last), d);
    }
  }

  lemma {:induction false} ChosenMeansLinked(s: Sys, steps: seq<Step>, d: nat, x: nat)
    requires Inv(s) && Unread(s, d) && Row(s, d).action != Start && NeverPending(s, steps, d)
    ensures AtWindow(s, steps, d, x, m => Chosen(m, d, x)) <==>
            AtWindow(s, steps, d, x, m => Usable(m, d, x) && HasLink(m, d, x))
  {
    if steps == [] {
    } else {
      ChosenMeansLinked(s, steps[..|steps| - 1], d, x);
      FlagStaysClear(s, steps[..|steps| - 1], d);
      KeepsIdentity(s, steps[..|steps| - 1], d);
    }
  }

  lemma {:induction false} UsableAtWindow(s: Sys, steps: seq<Step>, d: nat, x: nat)
    requires UsableAtReads(s, steps, d, x, false)
    ensures AtWindow(s, steps, d, x, m => HasLink(m, d, x)) ==>
            AtWindow(s, steps, d, x, m => Usable(m, d, x) && HasLink(m, d, x))
  {
    if steps == [] {
    } else {
      UsableAtWindow(s, steps[..|steps| - 1], d, x);
    }
  }

  lemma {:induction false} LinkedAtWindow(s: Sys, steps: seq<Step>, d: nat, x: nat)
    ensures AtWindow(s, steps, d, x, m => Usable(m, d, x) && HasLink(m, d, x)) ==>
            AtWindow(s, steps, d, x, m => HasLink(m, d, x))
  {
    if steps == [] {
    } else {
      LinkedAtWindow(s, steps[..|steps| - 1], d, x);
    }
  }

  /** With no start of the job under way, an update or end run fetches exactly the
      tokens that were usable and linked when the page whose window holds them was
      read. */
  lemma OnlyLinkedAreFetched(s: Sys, steps: seq<Step>, d: nat, x: nat)
    requires Reachable(s) && Unread(s, d) && Row(s, d).action != Start && x >= 1 && NeverPending(s, steps, d)
    ensures var s' := Exec(s, steps).value;
      && Running(s', d)
      && (x in RunOf(s', d).scan.fetched <==> AtWindow(s, steps, d, x, m => Usable(m, d, x) && HasLink(m, d, x)))
  {
    ReachableInv(s);
    FetchedExactlyWhen(s, steps, d, x);
    ChosenMeansLinked(s, steps, d, x);
  }

  /** After a failed start: with no start of the job under way, a token that stays
      usable is fetched by a finished run exactly once if and only if its link was
      there when the page whose window holds it was read. */
  lemma FetchedIfAndOnlyIfLinked(s: Sys, steps: seq<Step>, d: nat, x: nat)
    requires Reachable(s) && Unread(s, d) && Row(s, d).action != Start && x >= 1
    requires NeverPending(s, steps, d) && UsableAtReads(s, steps, d, x, false)
    ensures var s' := Exec(s, steps).value;
      && Running(s', d)
      && (RunOf(s', d).scan.done ==>
            (ExactlyOnce(RunOf(s', d).scan.fetched, x) <==> AtWindow(s, steps, d, x, m => HasLink(m, d, x))))
  {
    OnlyLinkedAreFetched(s, steps, d, x);
    UsableAtWindow(s, steps, d, x);
    LinkedAtWindow(s, steps, d, x);
    OnceIfFetched(s, steps, d, x);
  }

  lemma OnceIfFetched(s: Sys, steps: seq<Step>, d: nat, x: nat)
    requires Reachable(s) && Exec(s, steps).Some? && Running(Exec(s, steps).value, d)
    ensures var run := RunOf(Exec(s, steps).value, d); x in run.scan.fetched <==> ExactlyOnce(run.scan.fetched, x)
  {
    ReachableInv(s);
    RunInv(s, steps);
    var s' := Exec(s, steps).value;
    assert LocalOk(s', d);
    if x in RunOf(s', d).scan.fetched {
      OnceInIncreasing(RunOf(s', d).scan.fetched, x);
    }
  }

  lemma LinkStays(s: Sys, step: Step, d: nat, x: nat)
    requires Inv(s) && Enabled(s, step) && HasLink(s, d, x)
    ensures HasLink(Do(s, step), d, x)
  {
    StepFacts(s, step);
    KeysStep(s, step);
    assert Stays(s, Do(s, step), d);
  }

  lemma {:induction false} LinkedByTheEnd(s: Sys, steps: seq<Step>, d: nat, x: nat)
    requires Inv(s) && Exec(s, steps).Some? && AtWindow(s, steps, d, x, m => HasLink(m, d, x))
    ensures HasLink(Exec(s, steps).value, d, x)
  {
    var init, last := steps[..|steps| - 1], steps[|steps| - 1];
    if AtWindow(s, init, d, x, m => HasLink(m, d, x)) {
      LinkedByTheEnd(s, init, d, x);
    }
    RunInv(s, init);
    LinkStays(Exec(s, init).value, last, d, x);
  }

  /** So a token that no outcome has linked by the end of such a run is missed by
      it under every schedule: this is what a failed start costs. */
  lemma UnlinkedIsMissed(s: Sys, steps: seq<Step>, d: nat, x: nat)
    requires Reachable(s) && Unread(s, d) && Row(s, d).action != Start && x >= 1
    requires NeverPending(s, steps, d) && !HasLink(Exec(s, steps).value, d, x)
    ensures Running(Exec(s, steps).value, d) && x !in RunOf(Exec(s, steps).value, d).scan.fetched
  {
    ReachableInv(s);
    OnlyLinkedAreFetched(s, steps, d, x);
    if x in RunOf(Exec(s, steps).value, d).scan.fetched {
      LinkedAtWindow(s, steps, d, x);
      LinkedByTheEnd(s, steps, d, x);
    }
  }

  // ---- the job's start ----------------------------------------------------------------------

  /** A job has one start at most: the request that makes the job writes it. */
  ghost predicate OneStart(s: Sys) {
    forall d, e ::
      && d in s.tables.dispatches && e in s.tables.dispatches
      && s.tables.dispatches[d].action == Start && s.tables.dispatches[e].action == Start
      && s.tables.dispatches[d].job == s.tables.dispatches[e].job
      ==> d == e
  }

  lemma OneStartStep(s: Sys, step: Step)
    requires Inv(s) && OneStart(s) && Enabled(s, step)
    ensures OneStart(Do(s, step))
  {
    var s' := Do(s, step);
    StepFacts(s, step);
    KeysStep(s, step);
    forall d, e | d in s'.procs && e in s'.procs && s'.tables.dispatches[d].job == s'.tables.dispatches[e].job
      && s'.tables.dispatches[d].action == Start && s'.tables.dispatches[e].action == Start
      ensures d == e
    {
      if d in s.procs && e in s.procs {
        assert Stays(s, s', d) && Stays(s, s', e);
      } else if d in s.procs {
        NewIsOnly(s, step, e, d);
      } else if e in s.procs {
        NewIsOnly(s, step, d, e);
      } else {
        assert Actor(step) == Some(d) && Actor(step) == Some(e);
      }
    }
  }

  lemma NewIsOnly(s: Sys, step: Step, d: nat, e: nat)
    requires Inv(s) && Enabled(s, step) && d in Do(s, step).procs && d !in s.procs && e in s.procs
    ensures var s' := Do(s, step);
      && d in s'.tables.dispatches && e in s'.tables.dispatches
      && !(s'.tables.dispatches[d].job == s'.tables.dispatches[e].job
           && s'.tables.dispatches[d].action == Start && s'.tables.dispatches[e].action == Start)
  {
    StepFacts(s, step);
    KeysStep(s, step);
    assert Stays(s, Do(s, step), e);
    NewRow(s, step, d);
    assert Row(s, e).action == Start ==> HasStart(s.tables, Row(s, e).job);
  }

  lemma {:induction false} RunOneStart(s: Sys, steps: seq<Step>)
    requires Inv(s) && OneStart(s) && Exec(s, steps).Some?
    ensures Inv(Exec(s, steps).value) && OneStart(Exec(s, steps).value)
  {
    RunInv(s, steps);
    if steps == [] {
    } else {
      RunOneStart(s, steps[..|steps| - 1]);
      OneStartStep(Exec(s, steps[..|steps| - 1]).value, steps[|steps| - 1]);
    }
  }

  lemma StartsAreUnique(s: Sys)
    requires Reachable(s)
    ensures OneStart(s)
  {
    var pageSize: nat, steps :| pageSize >= 1 && Exec(Init(pageSize), steps) == Some(s);
    InitInv(pageSize);
    RunOneStart(Init(pageSize), steps);
  }

  lemma FinishedIsNotUnderway(s: Sys, sd: nat, d: nat)
    requires OneStart(s) && Known(s, d) && Known(s, sd) && Row(s, sd).action == Start && Row(s, sd).job == Row(s, d).job
    requires Row(s, sd).status == Completed || Row(s, sd).status == Failed
    ensures !StartUnderway(s, d)
  {
  }

  lemma {:induction false} StartStaysFinished(s: Sys, steps: seq<Step>, sd: nat, d: nat)
    requires Inv(s) && OneStart(s) && Exec(s, steps).Some? && Running(s, d)
    requires Known(s, sd) && Row(s, sd).action == Start && Row(s, sd).job == Row(s, d).job
    requires Row(s, sd).status == Completed || Row(s, sd).status == Failed
    ensures NeverPending(s, steps, d)
  {
    RunOneStart(s, steps);
    RunLeads(s, steps, sd);
    KeepsIdentity(s, steps, d);
    KeepsIdentity(s, steps, sd);
    FinishedIsNotUnderway(Exec(s, steps).value, sd, d);
    if steps == [] {
    } else {
      StartStaysFinished(s, steps[..|steps| - 1], sd, d);
    }
  }

  /** The ordinary update: once the start of its job has finished, an update or end
      run fetches exactly the tokens that were usable and linked when the page
      whose window holds them was read, whatever else happens. */
  lemma FetchedAfterStart(s: Sys, steps: seq<Step>, sd: nat, d: nat, x: nat)
    requires Reachable(s) && Unread(s, d) && Row(s, d).action != Start && x >= 1 && Exec(s, steps).Some?
    requires Known(s, sd) && Row(s, sd).action == Start && Row(s, sd).job == Row(s, d).job
    requires Row(s, sd).status == Completed || Row(s, sd).status == Failed
    ensures var s' := Exec(s, steps).value;
      && Running(s', d)
      && (x in RunOf(s', d).scan.fetched <==> AtWindow(s, steps, d, x, m => Usable(m, d, x) && HasLink(m, d, x)))
  {
    ReachableInv(s);
    StartsAreUnique(s);
    StartStaysFinished(s, steps, sd, d);
    OnlyLinkedAreFetched(s, steps, d, x);
  }

  /** The handover from start to update misses nobody: a token whose FCM start
      was delivered before an update or end run read its first page, and that
      stays usable, is fetched by that run exactly once, whether its link came
      before, between or after the page reads.  The one condition is that the
      start dispatch does not end FAILED; `FetchedIfAndOnlyIfLinked` is exact for
      the runs in which it does. */
  lemma HandoverIsComplete(s: Sys, steps: seq<Step>, sd: nat, d: nat, x: nat)
    requires Reachable(s) && Unread(s, d) && Row(s, d).action != Start && x >= 1
    requires StartDelivered(s, sd, x) && Row(s, sd).job == Row(s, d).job
    requires Exec(s, steps).Some? && UsableAtReads(s, steps, d, x, false)
    requires var s' := Exec(s, steps).value; sd in s'.tables.dispatches && !s'.tables.dispatches[sd].status.Failed?
    ensures var s' := Exec(s, steps).value;
      Running(s', d) && (RunOf(s', d).scan.done ==> ExactlyOnce(RunOf(s', d).scan.fetched, x))
  {
    ReachableInv(s);
    HandoverSeen(s, steps, sd, d, x);
    RunInv(s, steps);
    var s' := Exec(s, steps).value;
    if RunOf(s', d).scan.done {
      DoneScanHolds(s', d, x);
    }
  }

  lemma {:induction false} LinkedAtReads(s: Sys, steps: seq<Step>, d: nat, x: nat)
    requires Inv(s) && Exec(s, steps).Some? && HasLink(s, d, x) && UsableAtReads(s, steps, d, x, false)
    ensures UsableAtReads(s, steps, d, x, true) && HasLink(Exec(s, steps).value, d, x)
  {
    if steps == [] {
    } else {
      var init, last := steps[..|steps| - 1], steps[|steps| - 1];
      LinkedAtReads(s, init, d, x);
      RunInv(s, init);
      LinkStays(Exec(s, init).value, last, d, x);
    }
  }

  /** A condition to check before the run: once the token is linked, or the start
      has been dispatched, no schedule can make the run miss it. */
  lemma HandoverFromHere(s: Sys, steps: seq<Step>, sd: nat, d: nat, x: nat)
    requires Reachable(s) && Unread(s, d) && Row(s, d).action != Start && x >= 1
    requires StartDelivered(s, sd, x) && Row(s, sd).job == Row(s, d).job
    requires Linked(s, d, x) || Row(s, sd).status in {Dispatched, Completed}
    requires Exec(s, steps).Some? && UsableAtReads(s, steps, d, x, false)
    ensures var s' := Exec(s, steps).value;
      Running(s', d) && (RunOf(s', d).scan.done ==> ExactlyOnce(RunOf(s', d).scan.fetched, x))
  {
    ReachableInv(s);
    if Linked(s, d, x) {
      LinkedAtReads(s, steps, d, x);
      LinkedTokenOnce(s, steps, d, x);
    } else {
      RunLeads(s, steps, sd);
      HandoverIsComplete(s, steps, sd, d, x);
    }
  }
}
