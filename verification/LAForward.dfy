/** Which way a dispatch status can move, step by step. */
module LAForward {
  import opened Options
  import opened LATables
  import opened LAProtocol
  import opened LALocal
  import opened LAFrame

  /** The moves one step can make: the guards of the status writes, and the
      order in which the handler and the worker reach the unguarded ones. */
  predicate Moves(a: Status, b: Status) {
    a == b ||
    match a
    case EnqueuePending => b in {Queued, InProgress, Failed}
    case Queued => b in {InProgress, Superseded, Failed}
    case InProgress => b in {Dispatched, Completed, Superseded, Failed}
    case Dispatched => b == Completed
    case _ => false
  }

  /** What a whole run can make of a status. */
  predicate Leads(a: Status, b: Status) {
    match a
    case EnqueuePending => true
    case Queued => !b.EnqueuePending?
    case InProgress => !b.EnqueuePending? && !b.Queued?
    case Dispatched => b in {Dispatched, Completed}
    case _ => a == b
  }

  /** `Leads` is exactly what the single moves add up to. */
  lemma LeadsIsClosure(a: Status, b: Status, c: Status)
    ensures Leads(a, a)
    ensures Moves(a, b) ==> Leads(a, b)
    ensures Leads(a, b) && Moves(b, c) ==> Leads(a, c)
    ensures Leads(a, c) ==> exists x, y :: Moves(a, x) && Moves(x, y) && Moves(y, c)
  {
    if Leads(a, c) {
      if a.EnqueuePending? && c.Superseded? {
        assert Moves(a, Queued) && Moves(Queued, c) && Moves(c, c);
      } else if Moves(a, InProgress) && Moves(InProgress, c) {
        assert Moves(c, c);
      } else {
        assert Moves(a, c) && Moves(c, c);
      }
    }
  }

  ghost predicate Forward(a: Dispatch, b: Dispatch) {
    Moves(a.status, b.status) && (Terminal(a.status) ==> b.total == a.total)
  }

  lemma EarlyForward(s: Sys, d: nat, ok: bool)
    requires LocalOk(s, d) && CanWork(s, d)
    requires var pc := RunOf(s, d).pc; pc.AtFirstCheck? || pc.AtMark? || pc.AtCheck? || pc.AtScope? || pc.AtTokens? || pc.AtEmit?
    ensures Known(DoWork(s, d, ok), d) && Forward(Row(s, d), Row(DoWork(s, d, ok), d))
  {
  }

  lemma CompleteForward(s: Sys, d: nat, ok: bool)
    requires LocalOk(s, d) && CanWork(s, d) && RunOf(s, d).pc.AtComplete?
    ensures Known(DoWork(s, d, ok), d) && Forward(Row(s, d), Row(DoWork(s, d, ok), d))
  {
  }

  lemma LateForward(s: Sys, d: nat, ok: bool)
    requires LocalOk(s, d) && CanWork(s, d)
    requires var pc := RunOf(s, d).pc; pc.AtFollowUp? || pc.AtFail? || pc.AtFailStart?
    ensures Known(DoWork(s, d, ok), d) && Forward(Row(s, d), Row(DoWork(s, d, ok), d))
  {
  }

  lemma ApplyForward(s: Sys, d: nat, ok: bool)
    requires CanWork(s, d) && (RunOf(s, d).pc.AtApply? || RunOf(s, d).pc.AtFailApply?)
    ensures Known(DoWork(s, d, ok), d) && Forward(Row(s, d), Row(DoWork(s, d, ok), d))
  {
  }

  lemma WorkForward(s: Sys, d: nat, ok: bool)
    requires LocalOk(s, d) && CanWork(s, d)
    ensures Known(DoWork(s, d, ok), d) && Forward(Row(s, d), Row(DoWork(s, d, ok), d))
  {
    match RunOf(s, d).pc
    case AtComplete => CompleteForward(s, d, ok);
    case AtFollowUp => LateForward(s, d, ok);
    case AtFail => LateForward(s, d, ok);
    case AtFailStart => LateForward(s, d, ok);
    case AtApply => ApplyForward(s, d, ok);
    case AtFailApply => ApplyForward(s, d, ok);
    case _ => EarlyForward(s, d, ok);
  }

  lemma HandlerForward(s: Sys, step: Step)
    requires Enabled(s, step)
    requires step.Submit? || step.Mark? || step.Refuse? || step.RefuseJob? || step.Take?
    requires LocalOk(s, step.d)
    ensures Known(Do(s, step), step.d) && Forward(Row(s, step.d), Row(Do(s, step), step.d))
  {
  }

  lemma StageForward(s: Sys, step: Step)
    requires Enabled(s, step)
    requires step.StartSend? || step.EndSend? || step.Collect?
    ensures Known(Do(s, step), step.d) && Row(s, step.d) == Row(Do(s, step), step.d)
  {
  }

  lemma FlushForward(s: Sys, ok: bool, d: nat)
    requires Enabled(s, Flush(ok)) && LocalOk(s, d)
    ensures Known(DoFlush(s, ok), d) && Forward(Row(s, d), Row(DoFlush(s, ok), d))
  {
    if ok {
      FlushStays(s, d);
    }
  }

  lemma StepForward(s: Sys, step: Step, d: nat)
    requires Enabled(s, step) && LocalOk(s, d)
    requires step.Work? ==> OwnFailures(s, step.d)
    ensures Known(Do(s, step), d) && Forward(Row(s, d), Row(Do(s, step), d))
  {
    if step.Flush? {
      FlushForward(s, step.ok, d);
    } else if Actor(step) == Some(d) {
      ActorForward(s, step, d);
    } else {
      StepUntouched(s, step, d);
    }
  }

  lemma ActorForward(s: Sys, step: Step, d: nat)
    requires Enabled(s, step) && LocalOk(s, d) && Actor(step) == Some(d)
    ensures Known(Do(s, step), d) && Forward(Row(s, d), Row(Do(s, step), d))
  {
    if step.Work? {
      WorkForward(s, d, step.ok);
    } else if step.StartSend? || step.EndSend? || step.Collect? {
      StageForward(s, step);
    } else {
      HandlerForward(s, step);
    }
  }
}
