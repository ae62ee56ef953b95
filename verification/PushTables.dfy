/** The publish-job tables and the SQL statements over them, and the proof that
    batching push outcomes is invisible. */
module PushTables {
  import opened Options
  import opened Sequences

  datatype JobStatus = Scheduled | Queued | InProgress | Dispatched | Completed | Failed
  datatype PushRow = PushRow(status: JobStatus, total: nat, success: nat, failure: nat,
                             scheduledAt: Option<nat>, completedAtSet: bool)

  datatype Receipt = Receipt(job: nat, token: nat, sent: bool, reason: string)
  datatype Tables = Tables(rows: map<nat, PushRow>, receipts: seq<Receipt>)

  /** A new job waits for the scheduler exactly when it has a time. */
  function NewJob(scheduledAt: Option<nat>): PushRow {
    PushRow(if scheduledAt.None? then Queued else Scheduled, 0, 0, 0, scheduledAt, false)
  }

  function SetStatus(row: PushRow, status: JobStatus): PushRow {
    row.(status := status, completedAtSet := status.Completed? || row.completedAtSet)
  }

  function Finalize(row: PushRow, total: nat): PushRow {
    if total == 0 then row.(total := 0, status := Completed, completedAtSet := true)
    else row.(total := total, status := Dispatched)
  }

  predicate Done(row: PushRow) {
    row.status.Dispatched? && row.success + row.failure >= row.total
  }

  function CompleteIfDone(row: PushRow): PushRow {
    if Done(row) then row.(status := Completed, completedAtSet := true) else row
  }

  predicate Due(row: PushRow, now: nat) {
    row.status.Scheduled? && row.scheduledAt.Some? && row.scheduledAt.value <= now
  }

  /** `GetScheduledJobs`: claim every due job in one statement. */
  function ClaimDue(rows: map<nat, PushRow>, now: nat): map<nat, PushRow> {
    map j | j in rows :: if Due(rows[j], now) then rows[j].(status := Queued) else rows[j]
  }

  function Sent(rs: seq<Receipt>, j: nat): nat {
    if rs == [] then 0
    else Sent(rs[..|rs| - 1], j) + if rs[|rs| - 1].job == j && rs[|rs| - 1].sent then 1 else 0
  }

  function Failures(rs: seq<Receipt>, j: nat): nat {
    if rs == [] then 0
    else Failures(rs[..|rs| - 1], j) + if rs[|rs| - 1].job == j && !rs[|rs| - 1].sent then 1 else 0
  }

  function FailedOnly(rs: seq<Receipt>): seq<Receipt> {
    if rs == [] then []
    else FailedOnly(rs[..|rs| - 1]) + if rs[|rs| - 1].sent then [] else [rs[|rs| - 1]]
  }

  function Touched(rs: seq<Receipt>): set<nat> {
    set r | r in rs :: r.job
  }

  function Counted(row: PushRow, rs: seq<Receipt>, j: nat): PushRow {
    row.(success := row.success + Sent(rs, j), failure := row.failure + Failures(rs, j))
  }

  function ApplyToRow(row: PushRow, rs: seq<Receipt>, j: nat): PushRow {
    if j in Touched(rs) then CompleteIfDone(Counted(row, rs, j)) else row
  }

  /** `ApplyPushOutcomeBatch`, one transaction: failures get a receipt each. */
  function ApplyReceipts(t: Tables, rs: seq<Receipt>): Tables {
    Tables(map j | j in t.rows :: ApplyToRow(t.rows[j], rs, j), t.receipts + FailedOnly(rs))
  }

  // ---- batching -------------------------------------------------------------------

  lemma NextReceipt(rs: seq<Receipt>, i: nat)
    requires i < |rs|
    ensures forall j :: Sent(rs[..i + 1], j) == Sent(rs[..i], j) + if rs[i].job == j && rs[i].sent then 1 else 0
    ensures forall j :: Failures(rs[..i + 1], j) == Failures(rs[..i], j) + if rs[i].job == j && !rs[i].sent then 1 else 0
    ensures FailedOnly(rs[..i + 1]) == FailedOnly(rs[..i]) + if rs[i].sent then [] else [rs[i]]
    ensures Touched(rs[..i + 1]) == Touched(rs[..i]) + {rs[i].job}
  {
    var a, b := rs[..i], rs[..i + 1];
    assert b[..|b| - 1] == a && b[|b| - 1] == rs[i];
    assert forall r :: r in b <==> r in a || r == rs[i];
  }

  lemma {:induction false} ReceiptsAdd(a: seq<Receipt>, b: seq<Receipt>, j: nat)
    ensures Sent(a + b, j) == Sent(a, j) + Sent(b, j)
    ensures Failures(a + b, j) == Failures(a, j) + Failures(b, j)
    ensures FailedOnly(a + b) == FailedOnly(a) + FailedOnly(b)
    ensures Touched(a + b) == Touched(a) + Touched(b)
  {
    assert forall r :: r in a + b <==> r in a || r in b;
    if b == [] {
      assert a + b == a;
    } else {
      var ab := a + b;
      assert ab[..|ab| - 1] == a + b[..|b| - 1];
      ReceiptsAdd(a, b[..|b| - 1], j);
    }
  }

  /** The receipts kept are those of the failures, as often as they occur;
      `ReceiptsAdd` says that they keep their order. */
  lemma {:induction false} FailuresAreKept(rs: seq<Receipt>, r: Receipt)
    ensures multiset(FailedOnly(rs))[r] == if r.sent then 0 else multiset(rs)[r]
  {
    if rs == [] {
    } else {
      var init, last := rs[..|rs| - 1], rs[|rs| - 1];
      FailuresAreKept(init, r);
      assert rs == init + [last];
    }
  }

  lemma {:induction false} UntouchedReceipts(rs: seq<Receipt>, j: nat)
    requires j !in Touched(rs)
    ensures Sent(rs, j) == 0 && Failures(rs, j) == 0
  {
    if rs == [] {
    } else {
      var init := rs[..|rs| - 1];
      assert rs[|rs| - 1] in rs;
      assert forall r :: r in init ==> r in rs;
      UntouchedReceipts(init, j);
    }
  }

  lemma RowSplits(row: PushRow, a: seq<Receipt>, b: seq<Receipt>, j: nat)
    ensures ApplyToRow(row, a + b, j) == ApplyToRow(ApplyToRow(row, a, j), b, j)
  {
    ReceiptsAdd(a, b, j);
    if j !in Touched(a) { UntouchedReceipts(a, j); }
    if j !in Touched(b) { UntouchedReceipts(b, j); }
  }

  /** Two transactions do what one transaction does, receipts included, for any
      tables and any outcomes. */
  lemma BatchSplits(t: Tables, a: seq<Receipt>, b: seq<Receipt>)
    ensures ApplyReceipts(t, a + b) == ApplyReceipts(ApplyReceipts(t, a), b)
  {
    var once, twice := ApplyReceipts(t, a + b), ApplyReceipts(ApplyReceipts(t, a), b);
    forall j | j in t.rows ensures once.rows[j] == twice.rows[j] {
      RowSplits(t.rows[j], a, b, j);
    }
    assert once.rows == twice.rows;
    ReceiptsAdd(a, b, 0);
    assert once.receipts == twice.receipts;
  }

  function ApplyBatches(t: Tables, batches: seq<seq<Receipt>>): Tables {
    if batches == [] then t else ApplyReceipts(ApplyBatches(t, batches[..|batches| - 1]), batches[|batches| - 1])
  }

  /** Any cut of a push outcome stream into transactions gives the same tables. */
  lemma {:induction false} BatchingIsInvisible(t: Tables, batches: seq<seq<Receipt>>)
    ensures ApplyBatches(t, batches) == ApplyReceipts(t, Flatten(batches))
  {
    if batches == [] {
      assert ApplyReceipts(t, []).rows == t.rows;
    } else {
      var init, last := batches[..|batches| - 1], batches[|batches| - 1];
      BatchingIsInvisible(t, init);
      BatchSplits(t, Flatten(init), last);
    }
  }
}
