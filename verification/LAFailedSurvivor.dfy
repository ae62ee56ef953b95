/** What the survivor of a superseded update need not be: delivered.

    One job, an older update 10 and a newer update 20.  The pipeline accepts both,
    the older one finds itself stale, and then the newer one fails. */
module LAFailedSurvivor {
  import opened Options
  import opened LATables
  import opened LAProtocol
  import opened LASafety

  const JOB := Job(1, 1, UserScope(1), Active, false)
  const OLDER := NewDispatch(1, Update, 1)
  const NEWER := NewDispatch(1, Update, 2)
  const ACCEPTED := Proc(Marking, true, true, None, map[], false, false)
  const MARKED := ACCEPTED.(handler := Answered)

  /** The state as far as the run changes it. */
  function State(older: Dispatch, newer: Dispatch, op: Proc, np: Proc): Sys {
    Sys(Tables(map[1 := JOB], map[10 := older, 20 := newer], map[], {}, {}), 0, map[10 := op, 20 := np], [], 1)
  }

  /** A dispatch that is being fanned out. */
  function Busy(pc: Pc): Proc {
    MARKED.(queued := false, run := Some(NewRun(Update).(pc := pc)))
  }

  const EMPTY := Init(1)
  const STARTED := Sys(Tables(map[1 := JOB], map[], map[], {}, {}), 0, map[], [], 1)

  lemma Begin()
    ensures Reachable(STARTED)
  {
    assert Exec(Init(1), []) == Some(EMPTY);
    assert CreateOrGetStartJob(map[], 1, 1, 1, UserScope(1)) == map[1 := JOB];
    NextReachable(EMPTY, StartJob(1, 1, 1, UserScope(1)), STARTED);
  }

  lemma Requested()
    ensures Reachable(State(OLDER, NEWER, NEW_PROC, NEW_PROC))
  {
    Begin();
    var s := Do(STARTED, NewRequest(10, 1, Update, 1));
    NextReachable(STARTED, NewRequest(10, 1, Update, 1), s);
    NextReachable(s, NewRequest(20, 1, Update, 2), State(OLDER, NEWER, NEW_PROC, NEW_PROC));
  }

  const OLDER_QUEUED := OLDER.(status := Queued)
  const NEWER_QUEUED := NEWER.(status := Queued)
  const SUPERSEDED := OLDER.(status := Superseded, completedAtSet := true)
  const FAILED := NEWER.(status := Failed, completedAtSet := true)

  lemma OlderMarked()
    ensures Reachable(State(OLDER_QUEUED, NEWER, MARKED, NEW_PROC))
  {
    Requested();
    NextReachable(State(OLDER, NEWER, NEW_PROC, NEW_PROC), Submit(10, true), State(OLDER, NEWER, ACCEPTED, NEW_PROC));
    NextReachable(State(OLDER, NEWER, ACCEPTED, NEW_PROC), Mark(10, true), State(OLDER_QUEUED, NEWER, MARKED, NEW_PROC));
  }

  lemma BothMarked()
    ensures Reachable(State(OLDER_QUEUED, NEWER_QUEUED, MARKED, MARKED))
  {
    OlderMarked();
    NextReachable(State(OLDER_QUEUED, NEWER, MARKED, NEW_PROC), Submit(20, true), State(OLDER_QUEUED, NEWER, MARKED, ACCEPTED));
    NextReachable(State(OLDER_QUEUED, NEWER, MARKED, ACCEPTED), Mark(20, true), State(OLDER_QUEUED, NEWER_QUEUED, MARKED, MARKED));
  }

  lemma OlderStale(s: Sys)
    requires s == State(OLDER_QUEUED, NEWER_QUEUED, Busy(AtFirstCheck), MARKED)
    ensures Steps(s, Work(10, true), State(SUPERSEDED, NEWER_QUEUED, Busy(Finished), MARKED))
  {
    assert SupersededBy(s.tables.dispatches[10], s.tables.dispatches[20]);
    assert Stale(s.tables, 10);
  }

  lemma OlderSuperseded()
    ensures Reachable(State(SUPERSEDED, NEWER_QUEUED, Busy(Finished), MARKED))
  {
    BothMarked();
    var s := State(OLDER_QUEUED, NEWER_QUEUED, Busy(AtFirstCheck), MARKED);
    NextReachable(State(OLDER_QUEUED, NEWER_QUEUED, MARKED, MARKED), Take(10), s);
    OlderStale(s);
    NextReachable(s, Work(10, true), State(SUPERSEDED, NEWER_QUEUED, Busy(Finished), MARKED));
  }

  lemma NewerNotStale(s: Sys)
    requires s == State(SUPERSEDED, NEWER_QUEUED, Busy(Finished), Busy(AtFirstCheck))
    ensures Steps(s, Work(20, true), State(SUPERSEDED, NEWER_QUEUED, Busy(Finished), Busy(AtMark)))
  {
    assert !Stale(s.tables, 20);
  }

  lemma NewerStarted()
    ensures Reachable(State(SUPERSEDED, NEWER_QUEUED, Busy(Finished), Busy(AtMark)))
  {
    OlderSuperseded();
    var s := State(SUPERSEDED, NEWER_QUEUED, Busy(Finished), Busy(AtFirstCheck));
    NextReachable(State(SUPERSEDED, NEWER_QUEUED, Busy(Finished), MARKED), Take(20), s);
    NewerNotStale(s);
    NextReachable(s, Work(20, true), State(SUPERSEDED, NEWER_QUEUED, Busy(Finished), Busy(AtMark)));
  }

  /** The newer update's mark fails, and it is written FAILED. */
  lemma NewerFailed()
    ensures Reachable(State(SUPERSEDED, FAILED, Busy(Finished), Busy(AtFailApply)))
  {
    NewerStarted();
    NextReachable(State(SUPERSEDED, NEWER_QUEUED, Busy(Finished), Busy(AtMark)), Work(20, false),
         State(SUPERSEDED, NEWER_QUEUED, Busy(Finished), Busy(AtFail)));
    NextReachable(State(SUPERSEDED, NEWER_QUEUED, Busy(Finished), Busy(AtFail)), Work(20, true),
         State(SUPERSEDED, FAILED, Busy(Finished), Busy(AtFailApply)));
  }

  /** A reachable state in which an update is superseded and the only update that
      could have superseded it has FAILED without a single token. */
  lemma SurvivorMayFail() returns (s: Sys)
    ensures Reachable(s) && Known(s, 10) && Row(s, 10).status.Superseded?
    ensures NewerAccepted(s, 10, 20) && Row(s, 20).status.Failed? && s.procs[20].flights == map[]
    ensures forall n :: NewerAccepted(s, 10, n) ==> n == 20
  {
    NewerFailed();
    s := State(SUPERSEDED, FAILED, Busy(Finished), Busy(AtFailApply));
  }
}
