/** The Live Activity tables and the SQL statements over them.

    Every statement is one atomic guarded update, so each is a function from
    tables to tables.  Ids are numbers and 0 stands for the empty string.
    Timestamps that only mark a state (`completed_at`, `closed_at`,
    `invalidated_at`) are modelled by whether they are set. */
module LATables {
  import opened Options

  datatype Platform = Apns | Fcm
  datatype TokenKind = StartToken | UpdateToken
  datatype Action = Start | Update | End
  datatype Scope = UserScope(user: nat) | TopicScope(topic: nat)

  datatype JobStatus = Active | Closed | JobFailed
  datatype Job = Job(activity: nat, kind: nat, scope: Scope, status: JobStatus, closedAtSet: bool)

  datatype Status = EnqueuePending | Queued | InProgress | Dispatched | Completed | Failed | Superseded
  datatype Dispatch = Dispatch(job: nat, action: Action, status: Status, total: nat, success: nat, failure: nat,
                               createdAt: nat, completedAtSet: bool)

  datatype Token = Token(user: nat, platform: Platform, kind: TokenKind, expiresAt: Option<nat>, invalidated: bool)

  /** `links` holds (activity id, token id) pairs, `subs` (user, topic) pairs. */
  datatype Tables = Tables(jobs: map<nat, Job>, dispatches: map<nat, Dispatch>, tokens: map<nat, Token>,
                           links: set<(nat, nat)>, subs: set<(nat, nat)>)

  predicate Terminal(status: Status) {
    status in {Completed, Failed, Superseded}
  }

  // ---- job rows -----------------------------------------------------------

  function CloseIfActive(job: Job): Job {
    if job.status.Active? && !job.closedAtSet then job.(status := Closed, closedAtSet := true) else job
  }

  function FailIfActive(job: Job): Job {
    if job.status.Active? && !job.closedAtSet then job.(status := JobFailed, closedAtSet := true) else job
  }

  function CloseJob(t: Tables, j: nat): Tables {
    if j in t.jobs then t.(jobs := t.jobs[j := CloseIfActive(t.jobs[j])]) else t
  }

  function FailJob(t: Tables, j: nat): Tables {
    if j in t.jobs then t.(jobs := t.jobs[j := FailIfActive(t.jobs[j])]) else t
  }

  predicate KnownActivity(jobs: map<nat, Job>, activity: nat) {
    exists j :: j in jobs && jobs[j].activity == activity
  }

  predicate ActiveInScope(job: Job, kind: nat, scope: Scope) {
    job.status.Active? && !job.closedAtSet && job.kind == kind && job.scope == scope
  }

  function CloseScope(jobs: map<nat, Job>, kind: nat, scope: Scope): map<nat, Job> {
    map j | j in jobs :: if ActiveInScope(jobs[j], kind, scope) then CloseIfActive(jobs[j]) else jobs[j]
  }

  /** The start transaction: keep a known activity as it is, otherwise close
      the active jobs of the same type and scope and insert the new one. */
  function CreateOrGetStartJob(jobs: map<nat, Job>, id: nat, activity: nat, kind: nat, scope: Scope): map<nat, Job> {
    if KnownActivity(jobs, activity) then jobs
    else CloseScope(jobs, kind, scope)[id := Job(activity, kind, scope, Active, false)]
  }

  predicate HasDispatch(t: Tables, j: nat) {
    exists d :: d in t.dispatches && t.dispatches[d].job == j
  }

  function RollbackStartJob(t: Tables, j: nat): Tables {
    if j in t.jobs && t.jobs[j].status.Active? && !t.jobs[j].closedAtSet && !HasDispatch(t, j)
    then t.(jobs := t.jobs - {j}) else t
  }

  // ---- dispatch rows ------------------------------------------------------

  function NewDispatch(job: nat, action: Action, createdAt: nat): Dispatch {
    Dispatch(job, action, EnqueuePending, 0, 0, 0, createdAt, false)
  }

  /** The unguarded status write; it stamps `completed_at` for COMPLETED and
      FAILED and leaves it alone otherwise. */
  function SetStatus(row: Dispatch, status: Status): Dispatch {
    row.(status := status, completedAtSet := status in {Completed, Failed} || row.completedAtSet)
  }

  function MarkEnqueued(row: Dispatch): Dispatch {
    if row.status.EnqueuePending? then row.(status := Queued) else row
  }

  function FailEnqueue(row: Dispatch, total: nat): Dispatch {
    if row.status in {EnqueuePending, Queued, InProgress}
    then row.(total := total, status := Failed, completedAtSet := true) else row
  }

  predicate SupersededBy(row: Dispatch, newer: Dispatch) {
    && newer.job == row.job
    && newer.action.Update?
    && newer.createdAt > row.createdAt
    && newer.status in {Queued, InProgress, Dispatched, Completed}
  }

  predicate Stale(t: Tables, d: nat)
    requires d in t.dispatches
  {
    && t.dispatches[d].action.Update?
    && t.dispatches[d].status in {Queued, InProgress}
    && exists n :: n in t.dispatches && SupersededBy(t.dispatches[d], t.dispatches[n])
  }

  function Supersede(row: Dispatch, total: nat): Dispatch {
    row.(status := Superseded, completedAtSet := true, total := total)
  }

  predicate Ready(row: Dispatch) {
    row.status.Dispatched? && row.success + row.failure >= row.total
  }

  function CompleteIfReady(row: Dispatch): Dispatch {
    if Ready(row) then row.(status := Completed, completedAtSet := true) else row
  }

  /** The row half of `CompleteLADispatchEnqueue` for a total above zero. */
  function MarkDispatched(row: Dispatch, total: nat): Dispatch {
    row.(total := total, status := Dispatched)
  }

  /** The first statement of `completeEmptyLADispatch`. */
  function CompleteEmpty(row: Dispatch): Dispatch {
    row.(total := 0, status := Completed, completedAtSet := true)
  }

  /** The second statement of `completeEmptyLADispatch`. */
  function SettleEmpty(t: Tables, row: Dispatch): Tables {
    match row.action
    case Start => FailJob(t, row.job)
    case End => CloseJob(t, row.job)
    case Update => t
  }

  /** `CompleteLADispatchEnqueue` for a total above zero, in one transaction
      with the completion check and the closing of an ended job. */
  function CompleteEnqueue(t: Tables, d: nat, total: nat): Tables
    requires d in t.dispatches
  {
    var row := MarkDispatched(t.dispatches[d], total);
    var t' := t.(dispatches := t.dispatches[d := CompleteIfReady(row)]);
    if Ready(row) && row.action.End? then CloseJob(t', row.job) else t'
  }

  // ---- outcomes -----------------------------------------------------------

  datatype Verdict = Sent | Rejected(reason: string)
  datatype Outcome = Outcome(dispatch: nat, token: nat, platform: Platform, action: Action, activity: nat, verdict: Verdict)

  predicate Contains(s: string, part: string) {
    exists i :: 0 <= i <= |s| && part <= s[i..]
  }

  predicate InvalidToken(reason: string) {
    || Contains(reason, "BadDeviceToken")
    || Contains(reason, "ExpiredToken")
    || Contains(reason, "Unregistered")
    || Contains(reason, "registration-token-not-registered")
  }

  function Successes(os: seq<Outcome>, d: nat): nat {
    if os == [] then 0
    else Successes(os[..|os| - 1], d) + if os[|os| - 1].dispatch == d && os[|os| - 1].verdict.Sent? then 1 else 0
  }

  function Failures(os: seq<Outcome>, d: nat): nat {
    if os == [] then 0
    else Failures(os[..|os| - 1], d) + if os[|os| - 1].dispatch == d && os[|os| - 1].verdict.Rejected? then 1 else 0
  }

  function Touched(os: seq<Outcome>): set<nat> {
    set o | o in os :: o.dispatch
  }

  predicate Invalidates(o: Outcome) {
    o.verdict.Rejected? && InvalidToken(o.verdict.reason)
  }

  function InvalidTokens(os: seq<Outcome>): set<nat> {
    set o | o in os && Invalidates(o) :: o.token
  }

  /** A delivered FCM start ties its token to the activity. */
  predicate Associates(o: Outcome) {
    o.verdict.Sent? && o.action.Start? && o.activity != 0 && o.platform.Fcm? && o.token != 0
  }

  function NewLinks(os: seq<Outcome>): set<(nat, nat)> {
    set o | o in os && Associates(o) :: (o.activity, o.token)
  }

  function AddCounts(row: Dispatch, success: nat, failure: nat): Dispatch {
    row.(success := row.success + success, failure := row.failure + failure)
  }

  function Counted(row: Dispatch, os: seq<Outcome>, d: nat): Dispatch {
    AddCounts(row, Successes(os, d), Failures(os, d))
  }

  function ApplyToDispatch(row: Dispatch, os: seq<Outcome>, d: nat): Dispatch {
    if d in Touched(os) then CompleteIfReady(Counted(row, os, d)) else row
  }

  /** Some end dispatch of job `j` completes when `os` is applied. */
  predicate Ends(dispatches: map<nat, Dispatch>, os: seq<Outcome>, j: nat) {
    exists d :: d in Touched(os) && d in dispatches && dispatches[d].job == j && dispatches[d].action.End?
                && Ready(Counted(dispatches[d], os, d))
  }

  function InvalidateAll(tokens: map<nat, Token>, ids: set<nat>): map<nat, Token> {
    map x | x in tokens :: if x in ids then tokens[x].(invalidated := true) else tokens[x]
  }

  /** `ApplyLAOutcomeBatch`, one transaction. */
  function ApplyOutcomes(t: Tables, os: seq<Outcome>): Tables {
    Tables(
      map j | j in t.jobs :: if Ends(t.dispatches, os, j) then CloseIfActive(t.jobs[j]) else t.jobs[j],
      map d | d in t.dispatches :: ApplyToDispatch(t.dispatches[d], os, d),
      InvalidateAll(t.tokens, InvalidTokens(os)),
      t.links + NewLinks(os),
      t.subs)
  }

  // ---- fan-out queries ----------------------------------------------------

  predicate StartPending(t: Tables, j: nat) {
    exists d :: d in t.dispatches && t.dispatches[d].job == j && t.dispatches[d].action.Start?
                && t.dispatches[d].status in {EnqueuePending, Queued, InProgress, Dispatched}
  }

  predicate NeedsLink(action: Action, startPending: bool) {
    !action.Start? && !startPending
  }

  predicate Live(token: Token, now: nat) {
    !token.invalidated && (token.expiresAt.None? || token.expiresAt.value > now)
  }

  predicate InScope(t: Tables, token: Token, scope: Scope) {
    match scope
    case UserScope(u) => token.user == u
    case TopicScope(p) => (token.user, p) in t.subs
  }

  predicate KindMatches(token: Token, action: Action) {
    || (token.platform.Apns? && token.kind == if action.Start? then StartToken else UpdateToken)
    || (token.platform.Fcm? && token.kind.UpdateToken?)
  }

  /** The four page queries: with or without the activity link, for a user or
      for a topic. */
  predicate Selected(t: Tables, now: nat, job: Job, action: Action, startPending: bool, x: nat)
    requires x in t.tokens
  {
    var token := t.tokens[x];
    && Live(token, now)
    && InScope(t, token, job.scope)
    && if NeedsLink(action, startPending) then (job.activity, x) in t.links && token.kind.UpdateToken?
       else KindMatches(token, action)
  }

  function Eligible(t: Tables, now: nat, job: Job, action: Action, startPending: bool): set<nat> {
    set x | x in t.tokens && Selected(t, now, job, action, startPending, x)
  }
}
