/** The request side: what a start, update or end request writes before it is
    queued, and the queueing itself while the rest of the system moves. */
module LAHandler {
  import opened Options
  import opened LATables
  import opened LAProtocol
  import opened LAFrame
  import opened LASafety
  import opened LATheorems
  import opened LAStore
  import opened LASchedule

  /** 0 stands for a missing id.  A payload is known by whether there is one,
      options by whether they parse, an expiry by how it reads now. */
  datatype Expiry = NoExpiry | BadExpiry | Past | Future
  datatype Request = Request(action: Action, activity: nat, kind: nat, user: nat, topic: nat,
                             hasPayload: bool, optionsOk: bool, expiry: Expiry)

  datatype Reply =
    | Started(job: nat)
    | AlreadyStarted(job: nat)
    | Updated(job: nat)
    | Ended(job: nat)
    | AlreadyClosed(job: nat)
    | NotFound
    | Invalid
    | StoreError

  /** Which users and topics exist, which jobs have expired. */
  datatype World = World(users: set<nat>, topics: set<nat>, expired: set<nat>)

  predicate OneScope(req: Request) {
    (req.user != 0) != (req.topic != 0)
  }

  function ScopeOf(req: Request): Scope {
    if req.user != 0 then UserScope(req.user) else TopicScope(req.topic)
  }

  predicate StartIsValid(req: Request, w: World) {
    && req.activity != 0 && req.kind != 0 && OneScope(req)
    && (req.user != 0 ==> req.user in w.users) && (req.topic != 0 ==> req.topic in w.topics)
    && req.optionsOk && !req.expiry.BadExpiry? && !req.expiry.Past?
  }

  /** The job a request names: by its activity, or as the open one of a type and scope. */
  predicate Names(req: Request, w: World, j: nat, job: Job) {
    if req.activity != 0 then job.activity == req.activity
    else job.kind == req.kind && job.scope == ScopeOf(req) && job.status.Active? && !job.closedAtSet && j !in w.expired
  }

  /** A request names at most one job, so the `ORDER BY updated_at LIMIT 1` of
      the scope lookups never has a choice to make. */
  lemma NamesOne(jobs: map<nat, Job>, req: Request, w: World, i: nat, j: nat)
    requires JobsOk(jobs) && i in jobs && j in jobs && Names(req, w, i, jobs[i]) && Names(req, w, j, jobs[j])
    ensures i == j
  {
    if req.activity == 0 {
      assert SameActiveScope(jobs[i], jobs[j]);
    }
  }

  /** `getLAJob`. */
  method GetLAJob(store: LiveActivityStore, req: Request, w: World) returns (job: Option<nat>)
    ensures job.Some? ==> job.value in store.jobs && Names(req, w, job.value, store.jobs[job.value])
    ensures job.None? ==> forall j :: j in store.jobs ==> !Names(req, w, j, store.jobs[j])
    ensures job.Some? && req.activity != 0 ==> store.jobs[job.value].activity == req.activity
    ensures job.None? && req.activity != 0 ==> forall j :: j in store.jobs ==> store.jobs[j].activity != req.activity
    ensures req.activity == 0 ==>
      var scope := if req.user != 0 then UserScope(req.user) else TopicScope(req.topic);
      && (job.Some? ==>
            var found := store.jobs[job.value];
            found.kind == req.kind && found.scope == scope && found.status == Active && !found.closedAtSet && job.value !in w.expired)
      && (job.None? ==> forall j :: j in store.jobs && store.jobs[j].kind == req.kind && store.jobs[j].scope == scope ==>
            store.jobs[j].status != Active || store.jobs[j].closedAtSet || j in w.expired)
  {
    var left := store.jobs.Keys;
    while left != {}
      invariant left <= store.jobs.Keys
      invariant forall j :: j in store.jobs && j !in left ==> !Names(req, w, j, store.jobs[j])
      decreases left
    {
      var j :| j in left;
      if Names(req, w, j, store.jobs[j]) {
        return Some(j);
      }
      left := left - {j};
    }
    return None;
  }

  // ---- rolling back a start ----------------------------------------------------------------

  /** A start that fails and is rolled back at once leaves no trace exactly when it
      had displaced no active job of its type and scope: those it displaced stay
      closed. */
  lemma RollbackUndoesExactlyWhen(t: Tables, id: nat, activity: nat, kind: nat, scope: Scope)
    requires JobsOk(t.jobs) && id !in t.jobs && !HasDispatch(t, id) && !KnownActivity(t.jobs, activity)
    ensures var t' := RollbackStartJob(t.(jobs := CreateOrGetStartJob(t.jobs, id, activity, kind, scope)), id);
      && t' == t.(jobs := CloseScope(t.jobs, kind, scope))
      && (t' == t <==> !exists j :: j in t.jobs && ActiveInScope(t.jobs[j], kind, scope))
  {
    var closed := CloseScope(t.jobs, kind, scope);
    var started := t.(jobs := closed[id := Job(activity, kind, scope, Active, false)]);
    assert !HasDispatch(started, id);
    assert started.jobs - {id} == closed;
    if j :| j in t.jobs && ActiveInScope(t.jobs[j], kind, scope) {
      assert closed[j] != t.jobs[j];
    } else {
      assert closed == t.jobs;
    }
  }

  lemma {:induction false} JobRemains(s: Sys, steps: seq<Step>, id: nat)
    requires Inv(s) && id in s.tables.jobs && Exec(s, steps).Some? && RollbackJob(id) !in steps
    ensures Inv(Exec(s, steps).value) && id in Exec(s, steps).value.tables.jobs
  {
    if steps == [] {
    } else {
      var init, last := steps[..|steps| - 1], steps[|steps| - 1];
      assert forall step :: step in init ==> step in steps;
      assert last in steps;
      JobRemains(s, init, id);
      JobStep(Exec(s, init).value, last, id);
      InvStep(Exec(s, init).value, last);
    }
  }

  /** With anything at all between the start and its rollback: the rollback deletes
      the job exactly when it is then still active and without a dispatch, and
      otherwise changes nothing. */
  lemma RollbackDeletesExactlyWhen(s: Sys, steps: seq<Step>, id: nat)
    requires Reachable(s) && id in s.tables.jobs && Exec(s, steps).Some? && RollbackJob(id) !in steps
    ensures var t := Exec(s, steps).value.tables;
      && id in t.jobs
      && (id !in RollbackStartJob(t, id).jobs <==> t.jobs[id].status.Active? && !HasDispatch(t, id))
      && (id in RollbackStartJob(t, id).jobs ==> RollbackStartJob(t, id) == t)
  {
    ReachableInv(s);
    JobRemains(s, steps, id);
  }

  /** So a start of the same type and scope in between keeps the rolled-back job:
      it closes it, and the rollback finds nothing to delete. */
  lemma OverlappingStartKeepsJob(s: Sys, id: nat, j: nat, activity: nat)
    requires Reachable(s) && id in s.tables.jobs && s.tables.jobs[id].status.Active?
    requires var step := StartJob(j, activity, s.tables.jobs[id].kind, s.tables.jobs[id].scope); Enabled(s, step)
    requires !KnownActivity(s.tables.jobs, activity)
    ensures var t := Do(s, StartJob(j, activity, s.tables.jobs[id].kind, s.tables.jobs[id].scope)).tables;
      id in t.jobs && t.jobs[id].status.Closed? && RollbackStartJob(t, id) == t
  {
    assert JobsOk(s.tables.jobs) by {
      ReachableInv(s);
    }
    StartJobOk(s.tables.jobs, j, activity, s.tables.jobs[id].kind, s.tables.jobs[id].scope);
  }

  // ---- looking a job up ------------------------------------------------------------------------

  predicate LookupIsValid(req: Request) {
    req.activity != 0 || (req.kind != 0 && OneScope(req))
  }

  predicate RequestIsValid(req: Request) {
    && (req.action.Start? || req.activity == 0 || (req.user == 0 && req.topic == 0))
    && (req.action.End? || req.hasPayload)
  }

  predicate Open(jobs: map<nat, Job>, w: World, j: nat) {
    j in jobs && jobs[j].status.Active? && !jobs[j].closedAtSet && j !in w.expired
  }

  lemma NamesOnly(jobs: map<nat, Job>, req: Request, w: World, i: nat)
    requires JobsOk(jobs) && i in jobs && Names(req, w, i, jobs[i])
    ensures forall j :: j in jobs && Names(req, w, j, jobs[j]) ==> j == i
  {
    forall j | j in jobs && Names(req, w, j, jobs[j]) ensures j == i {
      NamesOne(jobs, req, w, i, j);
    }
  }

  // ---- queueing, while the worker may already be running -----------------------------------

  /** The steps only the handler of `d` takes. */
  predicate HandlerStep(step: Step, d: nat) {
    (step.Submit? || step.Mark? || step.Refuse? || step.RefuseJob?) && step.d == d
  }

  /** Everybody else, the worker of `d` included, leaves the handler where it is. */
  lemma OthersKeepHandler(s: Sys, step: Step, d: nat)
    requires Inv(s) && Enabled(s, step) && Known(s, d) && !HandlerStep(step, d)
    ensures Known(Do(s, step), d) && Do(s, step).procs[d].handler == s.procs[d].handler
    ensures Row(Do(s, step), d).action == Row(s, d).action && Row(Do(s, step), d).job == Row(s, d).job
    ensures s.procs[d].accepted ==> Do(s, step).procs[d].accepted
  {
    StepFacts(s, step);
    KeysStep(s, step);
    assert Stays(s, Do(s, step), d);
    if step.Flush? {
    } else if Actor(step) == Some(d) {
      ActorKeepsHandler(s, step, d);
    }
  }

  lemma ActorKeepsHandler(s: Sys, step: Step, d: nat)
    requires Enabled(s, step) && Known(s, d) && Actor(step) == Some(d) && !HandlerStep(step, d)
    ensures d in Do(s, step).procs && Do(s, step).procs[d].handler == s.procs[d].handler
  {
    if step.Work? {
      WorkKeepsHandler(s, d, step.ok);
    }
  }

  lemma PagesKeepHandler(s: Sys, d: nat, ok: bool)
    requires CanWork(s, d)
    requires var pc := RunOf(s, d).pc; pc.AtFirstCheck? || pc.AtMark? || pc.AtCheck? || pc.AtScope? || pc.AtTokens? || pc.AtEmit?
    ensures d in DoWork(s, d, ok).procs && DoWork(s, d, ok).procs[d].handler == s.procs[d].handler
  {
  }

  lemma EndsKeepHandler(s: Sys, d: nat, ok: bool)
    requires CanWork(s, d)
    requires var pc := RunOf(s, d).pc; pc.AtComplete? || pc.AtFollowUp? || pc.AtFail? || pc.AtFailStart?
    ensures d in DoWork(s, d, ok).procs && DoWork(s, d, ok).procs[d].handler == s.procs[d].handler
  {
  }

  lemma ApplyKeepsHandler(s: Sys, d: nat, ok: bool)
    requires CanWork(s, d) && (RunOf(s, d).pc.AtApply? || RunOf(s, d).pc.AtFailApply?)
    ensures d in DoWork(s, d, ok).procs && DoWork(s, d, ok).procs[d].handler == s.procs[d].handler
  {
  }

  lemma WorkKeepsHandler(s: Sys, d: nat, ok: bool)
    requires CanWork(s, d)
    ensures d in DoWork(s, d, ok).procs && DoWork(s, d, ok).procs[d].handler == s.procs[d].handler
  {
    match RunOf(s, d).pc
    case AtComplete => EndsKeepHandler(s, d, ok);
    case AtFollowUp => EndsKeepHandler(s, d, ok);
    case AtFail => EndsKeepHandler(s, d, ok);
    case AtFailStart => EndsKeepHandler(s, d, ok);
    case AtApply => ApplyKeepsHandler(s, d, ok);
    case AtFailApply => ApplyKeepsHandler(s, d, ok);
    case _ => PagesKeepHandler(s, d, ok);
  }

  predicate Named(jobs: map<nat, Job>, req: Request, w: World, j: nat) {
    j in jobs && Names(req, w, j, jobs[j])
  }

  /** `job` is the one job the request names. */
  ghost predicate Answers(jobs: map<nat, Job>, req: Request, w: World, job: Option<nat>) {
    && JobsOk(jobs)
    && forall j: nat :: Named(jobs, req, w, j) <==> job == Some(j)
  }

  /** `s` was the state at some moment of the run. */
  ghost predicate Passed(origin: Sys, trace: seq<Step>, s: Sys) {
    exists n :: 0 <= n <= |trace| && Exec(origin, trace[..n]) == Some(s)
  }

  lemma PassedNow(origin: Sys, trace: seq<Step>, s: Sys)
    requires Exec(origin, trace) == Some(s)
    ensures Passed(origin, trace, s)
  {
    assert trace[..|trace|] == trace;
  }

  lemma StillPassed(origin: Sys, trace: seq<Step>, trace': seq<Step>, s: Sys)
    requires Passed(origin, trace, s) && trace <= trace'
    ensures Passed(origin, trace', s)
  {
    var n :| 0 <= n <= |trace| && Exec(origin, trace[..n]) == Some(s);
    assert trace'[..n] == trace[..n];
  }

  /** The steps only the request that uses `id` and `d` takes. */
  predicate RequestStep(step: Step, id: nat, d: nat) {
    || (step.StartJob? && step.j == id)
    || (step.RollbackJob? && step.j == id)
    || (step.NewRequest? && (step.d == d || (step.j == id && step.action == Start)))
    || HandlerStep(step, d)
  }

  /** Whose steps the others leave to it: those of a request, or of its handler. */
  datatype Mine = OfRequest(id: nat, d: nat) | OfHandler(d: nat)

  predicate IsMine(step: Step, mine: Mine) {
    match mine
    case OfRequest(id, d) => RequestStep(step, id, d)
    case OfHandler(d) => HandlerStep(step, d)
  }

  /** The others take their enabled steps, in order. */
  function OthersServe(m: Moment, others: seq<Step>, mine: Mine): Moment {
    if others == [] then m
    else
      var mid, step := OthersServe(m, others[..|others| - 1], mine), others[|others| - 1];
      if Enabled(mid.s, step) && !IsMine(step, mine) then Moment(Do(mid.s, step), mid.schedule, mid.trace + [step]) else mid
  }

  function Heard(m: Moment, mine: Mine): Moment {
    OthersServe(Moment(m.s, Rest(m.schedule), m.trace), NextTurn(m.schedule).others, mine)
  }

  function Took(m: Moment, step: Step): Moment {
    if Enabled(m.s, step) then Moment(Do(m.s, step), m.schedule, m.trace + [step]) else m
  }

  /** A write that may fail: others act, and it is made if its turn says so. */
  function AfterWrite(m: Moment, mine: Mine, step: Step): Moment {
    if NextTurn(m.schedule).ok then Took(Heard(m, mine), step) else Heard(m, mine)
  }

  /** The four calls of the handler, each recorded with its answer. */
  datatype Call = CallSubmit | CallMark | CallRefuse | CallRefuseJob

  function StepOf(call: Call, d: nat, ok: bool): Step {
    match call
    case CallSubmit => Submit(d, ok)
    case CallMark => Mark(d, ok)
    case CallRefuse => Refuse(d, ok)
    case CallRefuseJob => RefuseJob(d, ok)
  }

  function AfterCall(m: Moment, d: nat, call: Call): Moment {
    Took(Heard(m, OfHandler(d)), StepOf(call, d, NextTurn(m.schedule).ok))
  }

  lemma OthersStayClear(s: Sys, step: Step, id: nat, d: nat)
    requires Inv(s) && Enabled(s, step) && !RequestStep(step, id, d) && d !in s.procs
    ensures d !in Do(s, step).procs && d !in Do(s, step).tables.dispatches
    ensures id in s.tables.jobs <==> id in Do(s, step).tables.jobs
    ensures id in s.tables.jobs ==> SameJob(s.tables.jobs[id], Do(s, step).tables.jobs[id])
    ensures !HasStart(s.tables, id) ==> !HasStart(Do(s, step).tables, id)
  {
    KeysStep(s, step);
    StepFacts(s, step);
    JobsComeAndGo(s, step, id);
    if !HasStart(s.tables, id) {
      NoStartComes(s, step, id);
    }
  }

  lemma NoStartComes(s: Sys, step: Step, id: nat)
    requires Inv(s) && Enabled(s, step) && !HasStart(s.tables, id) && !(step.NewRequest? && step.j == id && step.action == Start)
    ensures !HasStart(Do(s, step).tables, id)
  {
    var s' := Do(s, step);
    KeysStep(s, step);
    StepFacts(s, step);
    forall e | e in s'.procs ensures !(s'.tables.dispatches[e].job == id && s'.tables.dispatches[e].action.Start?) {
      if e in s.procs {
        assert Stays(s, s', e);
      } else {
        NewRow(s, step, e);
      }
    }
  }

  /** A job keeps its activity, type and scope, whatever becomes of its status. */
  ghost predicate SameJob(a: Job, b: Job) {
    b.activity == a.activity && b.kind == a.kind && b.scope == a.scope
  }

  lemma JobsComeAndGo(s: Sys, step: Step, id: nat)
    requires Enabled(s, step) && !(step.StartJob? && step.j == id) && step != RollbackJob(id)
    ensures id in s.tables.jobs <==> id in Do(s, step).tables.jobs
    ensures id in s.tables.jobs ==> SameJob(s.tables.jobs[id], Do(s, step).tables.jobs[id])
  {
    if id in s.tables.jobs {
      JobStep(s, step, id);
    } else if !step.StartJob? {
      StepSettles(s, step);
    }
  }

  /** The job is for the activity, the type, and the user or topic of the request. */
  ghost predicate StartedFor(job: Job, req: Request) {
    && job.activity == req.activity && job.kind == req.kind
    && job.scope == if req.user != 0 then UserScope(req.user) else TopicScope(req.topic)
  }

  /** A valid start request said as its statements: what `m` became, by which reply. */
  ghost predicate StartReplied(m: Moment, m': Moment, req: Request, id: nat, d: nat, now: nat, reply: Reply) {
    var mine := OfRequest(id, d);
    var made := AfterWrite(m, mine, StartOf(req, id));
    && (!NextTurn(m.schedule).ok ==> reply == StoreError && m' == made)
    && (NextTurn(m.schedule).ok ==>
          if exists j :: j in Heard(m, mine).s.tables.jobs && Heard(m, mine).s.tables.jobs[j].activity == req.activity then
            && m' == made && reply.AlreadyStarted?
            && reply.job in made.s.tables.jobs && made.s.tables.jobs[reply.job].activity == req.activity
          else
            && id in made.s.tables.jobs && StartedFor(made.s.tables.jobs[id], req) && made.s.tables.jobs[id].status == Active
            && reply == (if NextTurn(made.schedule).ok then Started(id) else StoreError)
            && RowOrBack(made, m', mine, NewRequest(d, id, Start, now)))
  }

  function StartOf(req: Request, id: nat): Step {
    StartJob(id, req.activity, req.kind, if req.user != 0 then UserScope(req.user) else TopicScope(req.topic))
  }

  /** The dispatch row is written, or the job is taken back. */
  ghost predicate RowOrBack(m: Moment, m': Moment, mine: Mine, row: Step)
    requires mine.OfRequest?
  {
    var rowed := AfterWrite(m, mine, row);
    m' == if NextTurn(m.schedule).ok then rowed else AfterWrite(rowed, mine, RollbackJob(mine.id))
  }

  /** An update request said as its statements: look the job up, renew its
      payload, write the row. */
  ghost predicate UpdateReplied(m: Moment, m': Moment, req: Request, w: World, id: nat, d: nat, now: nat, reply: Reply) {
    var mine := OfRequest(id, d);
    var looked := Heard(m, mine);
    var paid := Heard(looked, mine);
    if !NextTurn(m.schedule).ok then reply == StoreError && m' == looked
    else if forall j: nat :: Named(looked.s.tables.jobs, req, w, j) ==> !Open(looked.s.tables.jobs, w, j) then
      reply == NotFound && m' == looked
    else
      exists j: nat :: Named(looked.s.tables.jobs, req, w, j) && Open(looked.s.tables.jobs, w, j) &&
        if !NextTurn(looked.schedule).ok then reply == StoreError && m' == paid
        else if !Open(paid.s.tables.jobs, w, j) then reply == NotFound && m' == paid
        else && m' == AfterWrite(paid, mine, NewRequest(d, j, Update, now))
             && reply == if NextTurn(paid.schedule).ok && j in m'.s.tables.jobs then Updated(j) else StoreError
  }

  /** An end request said as its statements: look the job up, write the row. */
  ghost predicate EndReplied(m: Moment, m': Moment, req: Request, w: World, id: nat, d: nat, now: nat, reply: Reply) {
    var mine := OfRequest(id, d);
    var looked := Heard(m, mine);
    var jobs := looked.s.tables.jobs;
    if !NextTurn(m.schedule).ok then reply == StoreError && m' == looked
    else if forall j: nat :: Named(jobs, req, w, j) ==> j in w.expired || jobs[j].status == JobFailed then
      reply == NotFound && m' == looked
    else
      exists j: nat :: Named(jobs, req, w, j) && j !in w.expired && jobs[j].status != JobFailed &&
        if jobs[j].status == Closed then reply == AlreadyClosed(j) && m' == looked
        else && m' == AfterWrite(looked, mine, NewRequest(d, j, End, now))
             && reply == if NextTurn(looked.schedule).ok && j in m'.s.tables.jobs then Ended(j) else StoreError
  }

  class Server {
    const store: LiveActivityStore
    const pageSize: nat
    var around: Sys
    var schedule: seq<Turn>
    ghost const origin: Sys
    ghost var trace: seq<Step>

    /** The tables are the store's; `around` keeps the rest of the system. */
    function State(): Sys
      reads this, store
    {
      around.(tables := store.Snapshot())
    }

    ghost function Now(): Moment
      reads this, store
    {
      Moment(State(), schedule, trace)
    }

    /** Everything that has happened is a run of the step machine. */
    ghost predicate Valid()
      reads this, store
    {
      Reachable(origin) && Exec(origin, trace) == Some(State())
    }

    /** The handler of `d` is at `handler`, for a dispatch of this action and job. */
    ghost predicate At(d: nat, action: Action, job: nat, handler: Handler)
      reads this, store
    {
      HandlerAt(State(), d, handler) && Row(State(), d).action == action && Row(State(), d).job == job
    }

    constructor (s: Sys, schedule: seq<Turn>)
      requires Reachable(s)
      ensures Valid() && State() == s && this.schedule == schedule && trace == [] && fresh(store)
    {
      store := new LiveActivityStore(s.tables);
      pageSize, around, origin, trace := s.pageSize, s, s, [];
      this.schedule := schedule;
      new;
      assert State() == s;
    }

    lemma Known()
      requires Valid()
      ensures Inv(State())
    {
      ReachableInv(origin);
      RunInv(origin, trace);
    }

    /** Record a step whose effect on the tables has been made. */
    method Commit(step: Step, ghost was: Sys, next: Sys)
      requires Reachable(origin) && Exec(origin, trace) == Some(was) && Enabled(was, step) && next == Do(was, step)
      requires store.Snapshot() == next.tables
      modifies this`around, this`trace
      ensures Valid() && State() == next && trace == old(trace) + [step]
    {
      assert (trace + [step])[..|trace|] == trace;
      around := next;
      trace := trace + [step];
      assert State() == next;
    }

    /** Others act, the worker of `d` among them, and the next call is told
        whether it succeeds. */
    method Yield(d: nat, ghost action: Action, ghost job: nat, ghost handler: Handler) returns (ok: bool)
      requires Valid() && At(d, action, job, handler)
      modifies this`around, this`schedule, this`trace, store
      ensures Valid() && At(d, action, job, handler) && old(trace) <= trace
      ensures old(State()).procs[d].accepted ==> State().procs[d].accepted
      ensures Now() == Heard(old(Now()), OfHandler(d)) && ok == NextTurn(old(schedule)).ok
    {
      if schedule == [] {
        return true;
      }
      var turn := schedule[0];
      schedule := schedule[1..];
      Others(turn.others, d, action, job, handler);
      ok := turn.ok;
    }

    method Others(steps: seq<Step>, d: nat, ghost action: Action, ghost job: nat, ghost handler: Handler)
      requires Valid() && At(d, action, job, handler)
      modifies this`around, this`trace, store
      ensures Valid() && At(d, action, job, handler) && old(trace) <= trace
      ensures old(State()).procs[d].accepted ==> State().procs[d].accepted
      ensures Now() == OthersServe(old(Now()), steps, OfHandler(d))
    {
      for i := 0 to |steps|
        invariant Valid() && At(d, action, job, handler) && old(trace) <= trace
        invariant old(State()).procs[d].accepted ==> State().procs[d].accepted
        invariant Now() == OthersServe(old(Now()), steps[..i], OfHandler(d))
      {
        var step := steps[i];
        assert steps[..i + 1][..i] == steps[..i];
        if Enabled(State(), step) && !HandlerStep(step, d) {
          OtherBeside(step, d, action, job, handler);
        }
      }
      assert steps[..|steps|] == steps;
    }

    method OtherBeside(step: Step, d: nat, ghost action: Action, ghost job: nat, ghost handler: Handler)
      requires Valid() && At(d, action, job, handler) && Enabled(State(), step) && !HandlerStep(step, d)
      modifies this`around, this`trace, store
      ensures Valid() && At(d, action, job, handler)
      ensures old(State()).procs[d].accepted ==> State().procs[d].accepted
      ensures State() == Do(old(State()), step) && trace == old(trace) + [step]
    {
      Known();
      OthersKeepHandler(State(), step, d);
      Other(step);
    }

    /** One step of somebody else. */
    method Other(step: Step)
      requires Valid() && Enabled(State(), step)
      modifies this`around, this`trace, store
      ensures Valid() && State() == Do(old(State()), step) && trace == old(trace) + [step]
    {
      ghost var was := State();
      var next := Do(State(), step);
      store.Reload(next.tables);
      Commit(step, was, next);
    }

    // ---- what a request writes ------------------------------------------------------------

    /** `d` is not used yet, `id` names no job unless the request has made it, and
        that job has no start. */
    ghost predicate Unused(id: nat, d: nat, made: bool)
      reads this, store
    {
      && d !in State().procs && d !in State().tables.dispatches
      && (id in State().tables.jobs <==> made)
      && !HasStart(State().tables, id)
    }

    /** Others act between two store calls of a request. */
    method YieldFresh(id: nat, d: nat, ghost made: bool) returns (ok: bool)
      requires Valid() && Unused(id, d, made)
      modifies this`around, this`schedule, this`trace, store
      ensures Valid() && Unused(id, d, made) && old(trace) <= trace
      ensures made ==> SameJob(old(State()).tables.jobs[id], State().tables.jobs[id])
      ensures Now() == Heard(old(Now()), OfRequest(id, d)) && ok == NextTurn(old(schedule)).ok
      ensures AllOk(old(schedule)) ==> ok && AllOk(schedule)
    {
      if schedule == [] {
        return true;
      }
      var turn := schedule[0];
      schedule := schedule[1..];
      OthersFresh(turn.others, id, d, made);
      ok := turn.ok;
    }

    method OthersFresh(steps: seq<Step>, id: nat, d: nat, ghost made: bool)
      requires Valid() && Unused(id, d, made)
      modifies this`around, this`trace, store
      ensures Valid() && Unused(id, d, made) && old(trace) <= trace
      ensures made ==> SameJob(old(State()).tables.jobs[id], State().tables.jobs[id])
      ensures Now() == OthersServe(old(Now()), steps, OfRequest(id, d))
    {
      for i := 0 to |steps|
        invariant Valid() && Unused(id, d, made) && old(trace) <= trace
        invariant made ==> SameJob(old(State()).tables.jobs[id], State().tables.jobs[id])
        invariant Now() == OthersServe(old(Now()), steps[..i], OfRequest(id, d))
      {
        var step := steps[i];
        assert steps[..i + 1][..i] == steps[..i];
        if Enabled(State(), step) && !RequestStep(step, id, d) {
          Known();
          OthersStayClear(State(), step, id, d);
          Other(step);
        }
      }
      assert steps[..|steps|] == steps;
    }

    /** `createLADispatchRow`; a missing job violates the foreign key. */
    method CreateLADispatchRow(id: nat, d: nat, j: nat, action: Action, now: nat, ghost made: bool) returns (err: bool)
      requires Valid() && Unused(id, d, made) && (action == Start ==> j == id)
      modifies this`around, this`schedule, this`trace, store
      ensures Valid() && old(trace) <= trace
      ensures if err then Unused(id, d, made) else At(d, action, j, Submitting)
      ensures !err ==> State().tables.dispatches[d] == Dispatch(j, action, EnqueuePending, 0, 0, 0, now, false)
      ensures made ==> id in State().tables.jobs && SameJob(old(State()).tables.jobs[id], State().tables.jobs[id])
      ensures Now() == AfterWrite(old(Now()), OfRequest(id, d), NewRequest(d, j, action, now))
      ensures err <==> !NextTurn(old(schedule)).ok || j !in State().tables.jobs
      ensures AllOk(old(schedule)) ==> AllOk(schedule)
    {
      var ok := YieldFresh(id, d, made);
      if !ok || j !in store.jobs {
        return true;
      }
      ghost var was := State();
      var next := Do(State(), NewRequest(d, j, action, now));
      store.CreateLADispatch(d, j, action, now);
      Commit(NewRequest(d, j, action, now), was, next);
      return false;
    }

    /** `createLAStart`, statement by statement.  A job that is created is for the
        request's activity, type, and user or topic; a row that cannot be written
        takes the job back, unless the rollback fails or finds it closed. */
    method CreateLAStart(req: Request, w: World, id: nat, d: nat, now: nat) returns (reply: Reply, rolledBack: bool)
      requires Valid() && Unused(id, d, false)
      modifies this`around, this`schedule, this`trace, store
      ensures Valid() && old(trace) <= trace
      ensures !reply.Invalid? <==>
        && req.activity != 0 && req.kind != 0 && req.optionsOk && (req.expiry == NoExpiry || req.expiry == Future)
        && ((req.user != 0 && req.user in w.users && req.topic == 0) || (req.topic != 0 && req.topic in w.topics && req.user == 0))
      ensures if reply.Invalid? then Now() == old(Now()) else StartReplied(old(Now()), Now(), req, id, d, now, reply)
      ensures match reply
              case Started(j) => j == id && At(d, Start, id, Submitting) && id in State().tables.jobs
              case AlreadyStarted(j) => Unused(id, d, false)
              case Invalid => Unused(id, d, false)
              case StoreError =>
                && d !in State().procs && d !in State().tables.dispatches
                && (rolledBack && id in State().tables.jobs ==>
                      !State().tables.jobs[id].status.Active? || HasDispatch(State().tables, id))
              case _ => false
      ensures reply.Started? ==>
        && StartedFor(State().tables.jobs[id], req)
        && State().tables.dispatches[d] == Dispatch(id, Start, EnqueuePending, 0, 0, 0, now, false)
      ensures AllOk(old(schedule)) ==> !reply.StoreError?
    {
      rolledBack := false;
      if !StartIsValid(req, w) {
        return Invalid, false;
      }
      var ok, created := MakeJob(req, id, d);
      if !ok {
        return StoreError, false;
      }
      if !created {
        var j :| j in store.jobs && store.jobs[j].activity == req.activity;
        return AlreadyStarted(j), false;
      }
      var err: bool;
      err, rolledBack := RowOrRollback(id, d, now);
      reply := if err then StoreError else Started(id);
    }

    /** The start transaction, after others have acted. */
    method MakeJob(req: Request, id: nat, d: nat) returns (ok: bool, created: bool)
      requires Valid() && Unused(id, d, false) && req.activity != 0
      modifies this`around, this`schedule, this`trace, store
      ensures Valid() && old(trace) <= trace && Unused(id, d, ok && created)
      ensures ok == NextTurn(old(schedule)).ok
      ensures Now() == AfterWrite(old(Now()), OfRequest(id, d), StartOf(req, id))
      ensures ok ==> (created <==> forall j :: j in Heard(old(Now()), OfRequest(id, d)).s.tables.jobs ==>
        Heard(old(Now()), OfRequest(id, d)).s.tables.jobs[j].activity != req.activity)
      ensures ok && created ==> StartedFor(State().tables.jobs[id], req) && State().tables.jobs[id].status == Active
      ensures ok && !created ==> exists j :: j in State().tables.jobs && State().tables.jobs[j].activity == req.activity
      ensures AllOk(old(schedule)) ==> ok && AllOk(schedule)
    {
      created := false;
      ok := YieldFresh(id, d, false);
      if ok {
        created := StartLAJob(id, d, req.activity, req.kind, ScopeOf(req));
      }
    }

    /** The dispatch row of a start, or the rollback of its job. */
    method RowOrRollback(id: nat, d: nat, now: nat) returns (err: bool, rolledBack: bool)
      requires Valid() && Unused(id, d, true)
      modifies this`around, this`schedule, this`trace, store
      ensures Valid() && old(trace) <= trace && err == !NextTurn(old(schedule)).ok
      ensures RowOrBack(old(Now()), Now(), OfRequest(id, d), NewRequest(d, id, Start, now))
      ensures !err ==> At(d, Start, id, Submitting) && id in State().tables.jobs
      ensures !err ==> SameJob(old(State()).tables.jobs[id], State().tables.jobs[id])
      ensures !err ==> State().tables.dispatches[d] == Dispatch(id, Start, EnqueuePending, 0, 0, 0, now, false)
      ensures err ==> d !in State().procs && d !in State().tables.dispatches
      ensures err && rolledBack && id in State().tables.jobs ==>
        !State().tables.jobs[id].status.Active? || HasDispatch(State().tables, id)
      ensures AllOk(old(schedule)) ==> !err
    {
      rolledBack := false;
      err := CreateLADispatchRow(id, d, id, Start, now, true);
      if err {
        rolledBack := YieldFresh(id, d, true);
        if rolledBack {
          RollbackLAJob(id, d);
        }
      }
    }

    method StartLAJob(id: nat, d: nat, activity: nat, kind: nat, scope: Scope) returns (created: bool)
      requires Valid() && Unused(id, d, false) && activity != 0
      modifies this`around, this`trace, store
      ensures Valid() && old(trace) <= trace && Unused(id, d, created)
      ensures created <==> forall j :: j in old(State()).tables.jobs ==> old(State()).tables.jobs[j].activity != activity
      ensures created ==> State().tables.jobs[id] == Job(activity, kind, scope, Active, false)
      ensures !created ==> store.jobs == old(store.jobs)
      ensures Now() == Took(old(Now()), StartJob(id, activity, kind, scope))
    {
      ghost var was := State();
      var next := Do(State(), StartJob(id, activity, kind, scope));
      created := store.CreateOrGetLAStartJob(id, activity, kind, scope);
      Commit(StartJob(id, activity, kind, scope), was, next);
    }

    method RollbackLAJob(id: nat, d: nat)
      requires Valid() && Unused(id, d, true)
      modifies this`around, this`trace, store
      ensures Valid() && old(trace) <= trace
      ensures d !in State().procs && d !in State().tables.dispatches
      ensures id in State().tables.jobs ==> !State().tables.jobs[id].status.Active? || HasDispatch(State().tables, id)
      ensures Now() == Took(old(Now()), RollbackJob(id))
    {
      Known();
      ghost var was := State();
      var next := Do(State(), RollbackJob(id));
      store.RollbackLAStartJob(id);
      Commit(RollbackJob(id), was, next);
    }

    /** `getLAJob` at one moment; with `found` the job it names. */
    method LookUp(req: Request, w: World, id: nat, d: nat) returns (err: bool, job: Option<nat>, ghost found: Sys)
      requires Valid() && Unused(id, d, false)
      modifies this`around, this`schedule, this`trace, store
      ensures Valid() && Unused(id, d, false) && old(trace) <= trace
      ensures found == State() && Passed(origin, trace, found) && (!err ==> Answers(found.tables.jobs, req, w, job))
      ensures Now() == Heard(old(Now()), OfRequest(id, d)) && err == !NextTurn(old(schedule)).ok
      ensures AllOk(old(schedule)) ==> AllOk(schedule)
    {
      var ok := YieldFresh(id, d, false);
      job, found := None, State();
      PassedNow(origin, trace, found);
      if ok {
        Known();
        job := GetLAJob(store, req, w);
        if job.Some? {
          NamesOnly(store.jobs, req, w, job.value);
        }
      }
      err := !ok;
    }

    /** `UpdateLAJobPayloadIfActive`: it reports whether the job was open. */
    method UpdatePayload(w: World, id: nat, d: nat, j: nat) returns (err: bool, open: bool, ghost paid: Sys)
      requires Valid() && Unused(id, d, false)
      modifies this`around, this`schedule, this`trace, store
      ensures Valid() && Unused(id, d, false) && old(trace) <= trace
      ensures paid == State() && Passed(origin, trace, paid) && open == Open(paid.tables.jobs, w, j)
      ensures open <==>
        j in paid.tables.jobs && paid.tables.jobs[j].status == Active && !paid.tables.jobs[j].closedAtSet && j !in w.expired
      ensures Now() == Heard(old(Now()), OfRequest(id, d)) && err == !NextTurn(old(schedule)).ok
      ensures AllOk(old(schedule)) ==> AllOk(schedule)
    {
      var ok := YieldFresh(id, d, false);
      err, open, paid := !ok, Open(store.jobs, w, j), State();
      PassedNow(origin, trace, paid);
    }

    /** `createLAUpdate`.  The row is written only for a job that was open when it
        was looked up and when its payload was updated; NotFound means that the
        request named no open job, or that the one it named was closed meanwhile. */
    method CreateLAUpdate(req: Request, w: World, id: nat, d: nat, now: nat)
      returns (reply: Reply, ghost found: Sys, ghost paid: Sys)
      requires Valid() && Unused(id, d, false)
      modifies this`around, this`schedule, this`trace, store
      ensures Valid() && old(trace) <= trace
      ensures !reply.Invalid? <==> req.activity != 0 || (req.kind != 0 && ((req.user != 0) != (req.topic != 0)))
      ensures if reply.Invalid? then Now() == old(Now()) else UpdateReplied(old(Now()), Now(), req, w, id, d, now, reply)
      ensures if reply.Updated? then At(d, Update, reply.job, Submitting) else Unused(id, d, false)
      ensures reply.Updated? ==> State().tables.dispatches[d] == Dispatch(reply.job, Update, EnqueuePending, 0, 0, 0, now, false)
      ensures reply.Updated? || reply.NotFound? ==> Passed(origin, trace, found) && Passed(origin, trace, paid)
      ensures reply in {NotFound, Invalid, StoreError} || reply.Updated?
      ensures reply.Updated? ==>
        Named(found.tables.jobs, req, w, reply.job) && Open(found.tables.jobs, w, reply.job) && Open(paid.tables.jobs, w, reply.job)
      ensures reply.NotFound? ==> forall j :: Named(found.tables.jobs, req, w, j) ==>
        !Open(found.tables.jobs, w, j) || !Open(paid.tables.jobs, w, j)
    {
      if !LookupIsValid(req) {
        return Invalid, State(), State();
      }
      var err, job, found' := LookUp(req, w, id, d);
      found, paid := found', found';
      if err {
        return StoreError, found, paid;
      }
      if job.None? || !Open(store.jobs, w, job.value) {
        return NotFound, found, paid;
      }
      ghost var before := trace;
      reply, paid := UpdateRow(w, id, d, job.value, now);
      StillPassed(origin, before, trace, found);
    }

    /** The payload of the job, then the row. */
    method UpdateRow(w: World, id: nat, d: nat, j: nat, now: nat) returns (reply: Reply, ghost paid: Sys)
      requires Valid() && Unused(id, d, false)
      modifies this`around, this`schedule, this`trace, store
      ensures Valid() && old(trace) <= trace && Passed(origin, trace, paid)
      ensures reply == NotFound || reply == StoreError || reply == Updated(j)
      ensures reply == Updated(j) ==> At(d, Update, j, Submitting) && Open(paid.tables.jobs, w, j)
      ensures reply == Updated(j) ==> State().tables.dispatches[d] == Dispatch(j, Update, EnqueuePending, 0, 0, 0, now, false)
      ensures reply != Updated(j) ==> Unused(id, d, false)
      ensures reply == NotFound ==> !Open(paid.tables.jobs, w, j)
      ensures var mine := OfRequest(id, d);
        var met := Heard(old(Now()), mine);
        if !NextTurn(old(schedule)).ok then reply == StoreError && Now() == met
        else if !Open(met.s.tables.jobs, w, j) then reply == NotFound && Now() == met
        else && Now() == AfterWrite(met, mine, NewRequest(d, j, Update, now))
             && reply == if NextTurn(met.schedule).ok && j in State().tables.jobs then Updated(j) else StoreError
    {
      var err, open, paid' := UpdatePayload(w, id, d, j);
      paid := paid';
      if err {
        return StoreError, paid;
      }
      if !open {
        return NotFound, paid;
      }
      ghost var before := trace;
      err := CreateLADispatchRow(id, d, j, Update, now, false);
      StillPassed(origin, before, trace, paid);
      reply := if err then StoreError else Updated(j);
    }

    /** `createLAEnd`.  The row is written only for a job that was active when it
        was looked up; a closed one is answered without a write. */
    method CreateLAEnd(req: Request, w: World, id: nat, d: nat, now: nat) returns (reply: Reply, ghost found: Sys)
      requires Valid() && Unused(id, d, false)
      modifies this`around, this`schedule, this`trace, store
      ensures Valid() && old(trace) <= trace
      ensures !reply.Invalid? <==> req.activity != 0 || (req.kind != 0 && ((req.user != 0) != (req.topic != 0)))
      ensures if reply.Invalid? then Now() == old(Now()) else EndReplied(old(Now()), Now(), req, w, id, d, now, reply)
      ensures if reply.Ended? then At(d, End, reply.job, Submitting) else Unused(id, d, false)
      ensures reply.Ended? ==> State().tables.dispatches[d] == Dispatch(reply.job, End, EnqueuePending, 0, 0, 0, now, false)
      ensures reply.Ended? || reply.AlreadyClosed? || reply.NotFound? ==> Passed(origin, trace, found)
      ensures reply in {NotFound, Invalid, StoreError} || reply.Ended? || reply.AlreadyClosed?
      ensures reply.Ended? ==> Named(found.tables.jobs, req, w, reply.job) && Open(found.tables.jobs, w, reply.job)
      ensures reply.AlreadyClosed? ==>
        Named(found.tables.jobs, req, w, reply.job) && found.tables.jobs[reply.job].status.Closed? && reply.job !in w.expired
      ensures reply.NotFound? ==> forall j :: Named(found.tables.jobs, req, w, j) ==>
        found.tables.jobs[j].status.JobFailed? || j in w.expired
    {
      if !LookupIsValid(req) {
        return Invalid, State();
      }
      var err, job, found' := LookUp(req, w, id, d);
      found := found';
      if err {
        return StoreError, found;
      }
      if job.None? || job.value in w.expired || store.jobs[job.value].status.JobFailed? {
        return NotFound, found;
      }
      var j := job.value;
      if store.jobs[j].status.Closed? {
        return AlreadyClosed(j), found;
      }
      assert Open(found.tables.jobs, w, j) by {
        Known();
      }
      ghost var before := trace;
      err := CreateLADispatchRow(id, d, j, End, now, false);
      StillPassed(origin, before, trace, found);
      reply := if err then StoreError else Ended(j);
    }

    /** `CreateLADispatch`: a row is written exactly when the reply says so, in
        ENQUEUE_PENDING and for the job the reply names, with everybody else at
        work between any two of the calls; a refused request does nothing, and any
        other what its statements and the schedule make of it. */
    method CreateLADispatch(req: Request, w: World, id: nat, d: nat, now: nat) returns (reply: Reply)
      requires Valid() && Unused(id, d, false)
      modifies this`around, this`schedule, this`trace, store
      ensures Valid() && old(trace) <= trace
      ensures reply == Invalid <==>
        || (req.action != Start && req.activity != 0 && (req.user != 0 || req.topic != 0))
        || (req.action != End && !req.hasPayload)
        || (if req.action == Start then !StartIsValid(req, w) else !LookupIsValid(req))
      ensures reply == Invalid ==> Now() == old(Now())
      ensures if reply.Started? || reply.Updated? || reply.Ended?
              then && At(d, req.action, reply.job, Submitting)
                   && State().tables.dispatches[d] == Dispatch(reply.job, req.action, EnqueuePending, 0, 0, 0, now, false)
              else d !in State().procs && d !in State().tables.dispatches
      ensures reply != Invalid ==>
        match req.action
        case Start => StartReplied(old(Now()), Now(), req, id, d, now, reply)
        case Update => UpdateReplied(old(Now()), Now(), req, w, id, d, now, reply)
        case End => EndReplied(old(Now()), Now(), req, w, id, d, now, reply)
    {
      if !RequestIsValid(req) {
        return Invalid;
      }
      match req.action
      case Start =>
        var r, _ := CreateLAStart(req, w, id, d, now);
        reply := r;
      case Update =>
        var r, _, _ := CreateLAUpdate(req, w, id, d, now);
        reply := r;
      case End =>
        var r, _ := CreateLAEnd(req, w, id, d, now);
        reply := r;
    }

    // ---- queueing it --------------------------------------------------------------------------

    /** `laJobPipeline.Submit`. */
    method SubmitJob(d: nat, ghost action: Action, ghost job: nat) returns (err: bool)
      requires Valid() && At(d, action, job, Submitting)
      modifies this`around, this`schedule, this`trace, store
      ensures Valid() && At(d, action, job, if err then Refusing else Marking) && old(trace) <= trace
      ensures !err ==> State().procs[d].accepted
      ensures err == !NextTurn(old(schedule)).ok && Now() == AfterCall(old(Now()), d, CallSubmit)
    {
      var ok := Yield(d, action, job, Submitting);
      ghost var was := State();
      Commit(Submit(d, ok), was, Do(State(), Submit(d, ok)));
      err := !ok;
    }

    method UpdateLADispatchStatus(d: nat, ghost action: Action, ghost job: nat)
      requires Valid() && At(d, action, job, Refusing)
      modifies this`around, this`schedule, this`trace, store
      ensures Valid() && At(d, action, job, if action.Start? then RefusingJob else Answered) && old(trace) <= trace
      ensures Now() == AfterCall(old(Now()), d, CallRefuse)
    {
      var ok := Yield(d, action, job, Refusing);
      ghost var was := State();
      var next := Do(State(), Refuse(d, ok));
      if ok {
        var found := store.UpdateLADispatchStatus(d, Failed);
        assert found;
      }
      Commit(Refuse(d, ok), was, next);
    }

    method FailLAJobIfActive(d: nat, job: nat, ghost action: Action)
      requires Valid() && At(d, action, job, RefusingJob)
      modifies this`around, this`schedule, this`trace, store
      ensures Valid() && At(d, action, job, Answered) && old(trace) <= trace
      ensures Now() == AfterCall(old(Now()), d, CallRefuseJob)
    {
      var ok := Yield(d, action, job, RefusingJob);
      ghost var was := State();
      var next := Do(State(), RefuseJob(d, ok));
      if ok {
        var _ := store.FailLAJobIfActive(job);
      }
      Commit(RefuseJob(d, ok), was, next);
    }

    method MarkLADispatchEnqueued(d: nat, ghost action: Action, ghost job: nat)
      requires Valid() && At(d, action, job, Marking)
      modifies this`around, this`schedule, this`trace, store
      ensures Valid() && At(d, action, job, Answered) && old(trace) <= trace
      ensures old(State()).procs[d].accepted ==> State().procs[d].accepted
      ensures Now() == AfterCall(old(Now()), d, CallMark)
    {
      var ok := Yield(d, action, job, Marking);
      ghost var was := State();
      var next := Do(State(), Mark(d, ok));
      if ok {
        store.MarkLADispatchEnqueued(d);
      }
      Commit(Mark(d, ok), was, next);
    }

    /** `enqueueImmediateLADispatch`: wherever the worker's own steps land
        between these calls, what happens is a run of the step machine; no error
        means the pipeline has the dispatch, whether or not it got marked.  The
        submit's turn alone decides the answer, and the calls that follow it are
        the ones the answer asks for. */
    method EnqueueImmediateLADispatch(d: nat, action: Action, job: nat) returns (err: bool)
      requires Valid() && At(d, action, job, Submitting)
      modifies this`around, this`schedule, this`trace, store
      ensures Valid() && At(d, action, job, Answered) && old(trace) <= trace
      ensures !err ==> State().procs[d].accepted
      ensures err == !NextTurn(old(schedule)).ok
      ensures var submitted := AfterCall(old(Now()), d, CallSubmit);
        Now() == if !err then AfterCall(submitted, d, CallMark)
                 else if action != Start then AfterCall(submitted, d, CallRefuse)
                 else AfterCall(AfterCall(submitted, d, CallRefuse), d, CallRefuseJob)
    {
      err := SubmitJob(d, action, job);
      if err {
        UpdateLADispatchStatus(d, action, job);
        if action.Start? {
          FailLAJobIfActive(d, job, action);
        }
        return;
      }
      MarkLADispatchEnqueued(d, action, job);
    }
  }
}
