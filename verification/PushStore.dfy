/** The publish-job half of the Postgres store, and the scheduler's loop. */
module PushStore {
  import opened Options
  import opened PushTables

  datatype Delta = Delta(success: nat, failure: nat)

  ghost predicate Summarizes(deltas: map<nat, Delta>, rs: seq<Receipt>) {
    && deltas.Keys == Touched(rs)
    && forall j :: j in deltas ==> deltas[j] == Delta(Sent(rs, j), Failures(rs, j))
  }

  lemma SummarizeNext(deltas: map<nat, Delta>, rs: seq<Receipt>, i: nat, delta: Delta)
    requires i < |rs| && Summarizes(deltas, rs[..i])
    requires delta == Delta(Sent(rs[..i + 1], rs[i].job), Failures(rs[..i + 1], rs[i].job))
    ensures Summarizes(deltas[rs[i].job := delta], rs[..i + 1])
  {
    NextReceipt(rs, i);
  }

  /** The loop of `summarizePushReceipts`. */
  method SummarizePushReceipts(receipts: seq<Receipt>) returns (deltas: map<nat, Delta>, failures: seq<Receipt>)
    ensures Summarizes(deltas, receipts)
    ensures failures == FailedOnly(receipts)
  {
    deltas, failures := map[], [];
    for i := 0 to |receipts|
      invariant Summarizes(deltas, receipts[..i])
      invariant failures == FailedOnly(receipts[..i])
    {
      var r := receipts[i];
      NextReceipt(receipts, i);
      var delta := Delta(0, 0);
      if r.job in deltas {
        delta := deltas[r.job];
      } else {
        UntouchedReceipts(receipts[..i], r.job);
      }
      if r.sent {
        delta := delta.(success := delta.success + 1);
      } else {
        delta := delta.(failure := delta.failure + 1);
        failures := failures + [r];
      }
      SummarizeNext(deltas, receipts, i, delta);
      deltas := deltas[r.job := delta];
    }
    assert receipts[..|receipts|] == receipts;
  }

  function RowsAfter(rows: map<nat, PushRow>, rs: seq<Receipt>, done: set<nat>): map<nat, PushRow> {
    map j | j in rows :: if j in done then CompleteIfDone(Counted(rows[j], rs, j)) else rows[j]
  }

  class PublishJobStore {
    var rows: map<nat, PushRow>
    var receipts: seq<Receipt>

    function Snapshot(): Tables
      reads this
    {
      Tables(rows, receipts)
    }

    constructor (t: Tables)
      ensures Snapshot() == t
    {
      rows, receipts := t.rows, t.receipts;
    }

    /** Other processes committed: the tables are now `t`. */
    method Reload(t: Tables)
      modifies this
      ensures Snapshot() == t
    {
      rows, receipts := t.rows, t.receipts;
    }

    method UpdateJobStatus(j: nat, status: JobStatus)
      modifies this`rows
      ensures rows == if j in old(rows) then old(rows)[j := SetStatus(old(rows)[j], status)] else old(rows)
      ensures j in old(rows) ==>
        && j in rows
        && rows[j] == old(rows)[j].(status := status, completedAtSet := old(rows)[j].completedAtSet || status == Completed)
    {
      if j in rows {
        if status == Completed {
          rows := rows[j := rows[j].(status := status, completedAtSet := true)];
        } else {
          rows := rows[j := rows[j].(status := status)];
        }
      }
    }

    method FinalizeJobDispatch(j: nat, total: nat)
      modifies this`rows
      ensures rows == if j in old(rows) then old(rows)[j := Finalize(old(rows)[j], total)] else old(rows)
      ensures j in old(rows) ==>
        && j in rows && rows[j].total == total
        && rows[j].status == (if total == 0 then Completed else Dispatched)
        && rows[j].completedAtSet == (total == 0 || old(rows)[j].completedAtSet)
    {
      if j in rows {
        if total == 0 {
          rows := rows[j := rows[j].(total := total, status := Completed, completedAtSet := true)];
        } else {
          rows := rows[j := rows[j].(total := total, status := Dispatched)];
        }
      }
    }

    method CompleteJobIfDone(j: nat)
      modifies this`rows
      ensures rows == if j in old(rows) then old(rows)[j := CompleteIfDone(old(rows)[j])] else old(rows)
      ensures j in old(rows) && old(rows)[j].status == Dispatched && old(rows)[j].success + old(rows)[j].failure >= old(rows)[j].total ==>
        j in rows && rows[j] == old(rows)[j].(status := Completed, completedAtSet := true)
      ensures j in old(rows) && old(rows)[j].status != Dispatched ==> rows == old(rows)
      ensures j in old(rows) && old(rows)[j].success + old(rows)[j].failure < old(rows)[j].total ==> rows == old(rows)
    {
      if j in rows && rows[j].status.Dispatched? && rows[j].success + rows[j].failure >= rows[j].total {
        rows := rows[j := rows[j].(status := Completed, completedAtSet := true)];
      }
    }

    /** One turn of the delta loop: add to the counters, then complete the job
        if they add up. */
    method ApplyDelta(j: nat, delta: Delta, ghost was: map<nat, PushRow>, ghost batch: seq<Receipt>, ghost done: set<nat>)
      requires rows == RowsAfter(was, batch, done) && j !in done
      requires delta == Delta(Sent(batch, j), Failures(batch, j))
      modifies this`rows
      ensures rows == RowsAfter(was, batch, done + {j})
    {
      if j in rows {
        rows := rows[j := rows[j].(success := rows[j].success + delta.success, failure := rows[j].failure + delta.failure)];
      }
      CompleteJobIfDone(j);
    }

    /** `ApplyPushOutcomeBatch`; the delta map is visited in an arbitrary order. */
    method ApplyPushOutcomeBatch(batch: seq<Receipt>)
      modifies this
      ensures Snapshot() == ApplyReceipts(old(Snapshot()), batch)
    {
      ghost var was := rows;
      if |batch| == 0 {
        assert ApplyReceipts(Snapshot(), batch).rows == rows;
        assert receipts + FailedOnly(batch) == receipts;
        return;
      }
      var deltas, failures := SummarizePushReceipts(batch);
      receipts := receipts + failures;
      var left := deltas.Keys;
      ghost var done := {};
      assert rows == RowsAfter(was, batch, done);
      while left != {}
        invariant done !! left && done + left == Touched(batch)
        invariant rows == RowsAfter(was, batch, done)
        invariant receipts == old(receipts) + failures
        decreases left
      {
        var j :| j in left;
        left := left - {j};
        ApplyDelta(j, deltas[j], was, batch, done);
        done := done + {j};
      }
      assert done == Touched(batch);
      assert rows == ApplyReceipts(old(Snapshot()), batch).rows;
    }

    /** `GetScheduledJobs`: the due jobs, each claimed by moving it to QUEUED. */
    method GetScheduledJobs(now: nat) returns (claimed: set<nat>)
      modifies this`rows
      ensures rows == ClaimDue(old(rows), now)
      ensures forall j :: j in claimed <==>
        && j in old(rows) && old(rows)[j].status == Scheduled
        && old(rows)[j].scheduledAt != None && old(rows)[j].scheduledAt.value <= now
      ensures rows.Keys == old(rows).Keys
      ensures forall j :: j in rows ==> rows[j] == if j in claimed then old(rows)[j].(status := Queued) else old(rows)[j]
    {
      claimed := set j | j in rows && rows[j].status.Scheduled? && rows[j].scheduledAt.Some? && rows[j].scheduledAt.value <= now;
      rows := map j | j in rows :: if j in claimed then rows[j].(status := Queued) else rows[j];
    }
  }

  /** `processScheduledJobs`: claim, then submit each job; a refused submit ends
      the job FAILED when that write succeeds.  `refused` and `writeLost` say
      which submits and which of those writes fail. */
  method ProcessScheduledJobs(store: PublishJobStore, now: nat, refused: set<nat>, writeLost: set<nat>)
    returns (submitted: seq<nat>)
    modifies store`rows
    ensures store.rows.Keys == old(store.rows).Keys
    ensures forall j :: j in submitted <==>
      && j in old(store.rows) && old(store.rows)[j].status == Scheduled
      && old(store.rows)[j].scheduledAt != None && old(store.rows)[j].scheduledAt.value <= now
      && j !in refused
    ensures forall i, k :: 0 <= i < k < |submitted| ==> submitted[i] != submitted[k]
    ensures forall j :: j in old(store.rows) ==>
      var row := old(store.rows)[j];
      store.rows[j] ==
        if row.status != Scheduled || row.scheduledAt == None || row.scheduledAt.value > now then row
        else row.(status := if j in refused && j !in writeLost then Failed else Queued)
  {
    var claimed := store.GetScheduledJobs(now);
    ghost var was, queued := old(store.rows), store.rows;
    submitted := [];
    var left := claimed;
    while left != {}
      invariant left <= claimed && store.rows.Keys == was.Keys
      invariant forall j :: j in submitted <==> j in claimed && j !in left && j !in refused
      invariant forall i, k :: 0 <= i < k < |submitted| ==> submitted[i] != submitted[k]
      invariant forall j :: j in was ==>
        store.rows[j] ==
        if j in claimed && j !in left && j in refused && j !in writeLost then queued[j].(status := Failed) else queued[j]
      decreases left
    {
      var j :| j in left;
      left := left - {j};
      if j !in refused {
        submitted := submitted + [j];
      } else if j !in writeLost {
        store.UpdateJobStatus(j, Failed);
      }
    }
  }
}
