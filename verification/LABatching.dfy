/** Batching of Live Activity outcomes is invisible: however an outcome stream
    is cut into transactions, the tables end up the same. */
module LABatching {
  import opened LATables
  import opened Sequences

  lemma {:induction false} CountsAdd(a: seq<Outcome>, b: seq<Outcome>, d: nat)
    ensures Successes(a + b, d) == Successes(a, d) + Successes(b, d)
    ensures Failures(a + b, d) == Failures(a, d) + Failures(b, d)
  {
    if b == [] {
      assert a + b == a;
    } else {
      var ab := a + b;
      assert ab[..|ab| - 1] == a + b[..|b| - 1];
      CountsAdd(a, b[..|b| - 1], d);
    }
  }

  lemma {:induction false} UntouchedCounts(os: seq<Outcome>, d: nat)
    requires d !in Touched(os)
    ensures Successes(os, d) == 0 && Failures(os, d) == 0
  {
    if os == [] {
    } else {
      var init := os[..|os| - 1];
      assert os[|os| - 1] in os;
      assert forall o :: o in init ==> o in os;
      UntouchedCounts(init, d);
    }
  }

  lemma SetsAdd(a: seq<Outcome>, b: seq<Outcome>)
    ensures Touched(a + b) == Touched(a) + Touched(b)
    ensures InvalidTokens(a + b) == InvalidTokens(a) + InvalidTokens(b)
    ensures NewLinks(a + b) == NewLinks(a) + NewLinks(b)
  {
    assert forall o :: o in a + b <==> o in a || o in b;
  }

  /** What one more outcome adds to a prefix of a stream. */
  lemma NextOutcome(os: seq<Outcome>, i: nat)
    requires i < |os|
    ensures forall d :: Successes(os[..i + 1], d) ==
                        Successes(os[..i], d) + if os[i].dispatch == d && os[i].verdict.Sent? then 1 else 0
    ensures forall d :: Failures(os[..i + 1], d) ==
                        Failures(os[..i], d) + if os[i].dispatch == d && os[i].verdict.Rejected? then 1 else 0
    ensures Touched(os[..i + 1]) == Touched(os[..i]) + {os[i].dispatch}
    ensures InvalidTokens(os[..i + 1]) == InvalidTokens(os[..i]) + if Invalidates(os[i]) then {os[i].token} else {}
    ensures NewLinks(os[..i + 1]) == NewLinks(os[..i]) + if Associates(os[i]) then {(os[i].activity, os[i].token)} else {}
  {
    var a, b := os[..i], os[..i + 1];
    assert b[..|b| - 1] == a && b[|b| - 1] == os[i];
    assert forall o :: o in b <==> o in a || o == os[i];
  }

  /** One row: the completion check may run early, but it cannot change where
      the row ends. */
  lemma RowSplits(row: Dispatch, a: seq<Outcome>, b: seq<Outcome>, d: nat)
    ensures ApplyToDispatch(row, a + b, d) == ApplyToDispatch(ApplyToDispatch(row, a, d), b, d)
    ensures d in Touched(a + b) && Ready(Counted(row, a + b, d)) <==>
            (d in Touched(a) && Ready(Counted(row, a, d)))
            || (d in Touched(b) && Ready(Counted(ApplyToDispatch(row, a, d), b, d)))
  {
    CountsAdd(a, b, d);
    SetsAdd(a, b);
    if d !in Touched(a) { UntouchedCounts(a, d); }
    if d !in Touched(b) { UntouchedCounts(b, d); }
  }

  lemma EndsSplits(t: Tables, a: seq<Outcome>, b: seq<Outcome>, j: nat)
    ensures Ends(t.dispatches, a + b, j) <==>
            Ends(t.dispatches, a, j) || Ends(ApplyOutcomes(t, a).dispatches, b, j)
  {
    var after := ApplyOutcomes(t, a).dispatches;
    SetsAdd(a, b);
    if Ends(t.dispatches, a + b, j) {
      var d :| d in Touched(a + b) && d in t.dispatches && t.dispatches[d].job == j && t.dispatches[d].action.End?
               && Ready(Counted(t.dispatches[d], a + b, d));
      RowSplits(t.dispatches[d], a, b, d);
      assert after[d].job == j && after[d].action.End?;
    }
    if Ends(t.dispatches, a, j) {
      var d :| d in Touched(a) && d in t.dispatches && t.dispatches[d].job == j && t.dispatches[d].action.End?
               && Ready(Counted(t.dispatches[d], a, d));
      RowSplits(t.dispatches[d], a, b, d);
    }
    if Ends(after, b, j) {
      var d :| d in Touched(b) && d in after && after[d].job == j && after[d].action.End?
               && Ready(Counted(after[d], b, d));
      RowSplits(t.dispatches[d], a, b, d);
      assert t.dispatches[d].job == j && t.dispatches[d].action.End?;
    }
  }

  lemma DispatchesSplit(t: Tables, a: seq<Outcome>, b: seq<Outcome>)
    ensures ApplyOutcomes(t, a + b).dispatches == ApplyOutcomes(ApplyOutcomes(t, a), b).dispatches
  {
    var once, twice := ApplyOutcomes(t, a + b), ApplyOutcomes(ApplyOutcomes(t, a), b);
    forall d | d in t.dispatches ensures once.dispatches[d] == twice.dispatches[d] {
      RowSplits(t.dispatches[d], a, b, d);
    }
  }

  lemma JobsSplit(t: Tables, a: seq<Outcome>, b: seq<Outcome>)
    ensures ApplyOutcomes(t, a + b).jobs == ApplyOutcomes(ApplyOutcomes(t, a), b).jobs
  {
    var once, twice := ApplyOutcomes(t, a + b), ApplyOutcomes(ApplyOutcomes(t, a), b);
    forall j | j in t.jobs ensures once.jobs[j] == twice.jobs[j] {
      EndsSplits(t, a, b, j);
    }
  }

  /** Two transactions do what one transaction does.  This holds for any
      tables and any outcomes, not only for the ones a run can produce. */
  lemma BatchSplits(t: Tables, a: seq<Outcome>, b: seq<Outcome>)
    ensures ApplyOutcomes(t, a + b) == ApplyOutcomes(ApplyOutcomes(t, a), b)
  {
    var once, first := ApplyOutcomes(t, a + b), ApplyOutcomes(t, a);
    var twice := ApplyOutcomes(first, b);
    SetsAdd(a, b);
    DispatchesSplit(t, a, b);
    JobsSplit(t, a, b);
    assert once.tokens == twice.tokens;
    assert once.links == twice.links;
  }

  lemma EmptyBatch(t: Tables)
    ensures ApplyOutcomes(t, []) == t
  {
    var t' := ApplyOutcomes(t, []);
    assert t'.jobs == t.jobs;
    assert t'.dispatches == t.dispatches;
    assert t'.tokens == t.tokens;
    assert t'.links == t.links;
  }

  function ApplyBatches(t: Tables, batches: seq<seq<Outcome>>): Tables {
    if batches == [] then t else ApplyOutcomes(ApplyBatches(t, batches[..|batches| - 1]), batches[|batches| - 1])
  }

  /** Any cut of an outcome stream into transactions gives the same tables. */
  lemma {:induction false} BatchingIsInvisible(t: Tables, batches: seq<seq<Outcome>>)
    ensures ApplyBatches(t, batches) == ApplyOutcomes(t, Flatten(batches))
  {
    if batches == [] {
      EmptyBatch(t);
    } else {
      var init, last := batches[..|batches| - 1], batches[|batches| - 1];
      BatchingIsInvisible(t, init);
      BatchSplits(t, Flatten(init), last);
    }
  }

  /** Two cuts of one stream agree, in particular one outcome at a time and
      all at once. */
  lemma CutsAgree(t: Tables, cut1: seq<seq<Outcome>>, cut2: seq<seq<Outcome>>)
    requires Flatten(cut1) == Flatten(cut2)
    ensures ApplyBatches(t, cut1) == ApplyBatches(t, cut2)
  {
    BatchingIsInvisible(t, cut1);
    BatchingIsInvisible(t, cut2);
  }

  lemma MoveOut<T>(l: seq<T>, o: T, r: seq<T>)
    ensures multiset(l + [o] + r) == multiset(l + r) + multiset{o}
  {
    assert multiset(l + [o] + r) == multiset(l + [o]) + multiset(r);
    assert multiset(l + r) == multiset(l) + multiset(r);
  }

  lemma RemoveLast<T>(a: seq<T>, b: seq<T>) returns (l: seq<T>, r: seq<T>)
    requires multiset(a) == multiset(b) && a != []
    ensures b == l + [a[|a| - 1]] + r
    ensures multiset(a[..|a| - 1]) == multiset(l + r)
  {
    var o, init := a[|a| - 1], a[..|a| - 1];
    assert o in multiset(a);
    assert o in b;
    var k :| 0 <= k < |b| && b[k] == o;
    l, r := b[..k], b[k + 1..];
    assert a == init + [o] + [] && init == init + [];
    assert b == l + [o] + r;
    MoveOut(init, o, []);
    MoveOut(l, o, r);
    Cancel(multiset(init), multiset(l + r), multiset{o});
  }

  lemma {:induction false} CountsPermute(a: seq<Outcome>, b: seq<Outcome>, d: nat)
    requires multiset(a) == multiset(b)
    ensures Successes(a, d) == Successes(b, d) && Failures(a, d) == Failures(b, d)
  {
    assert |a| == |multiset(a)| && |b| == |multiset(b)|;
    if a == [] {
    } else {
      var o, init := a[|a| - 1], a[..|a| - 1];
      var l, r := RemoveLast(a, b);
      CountsPermute(init, l + r, d);
      CountsAdd(l, r, d);
      CountsAdd(l + [o], r, d);
      CountsAdd(l, [o], d);
      CountsAdd(init, [o], d);
      assert init + [o] == a;
    }
  }

  /** The order of a stream does not matter either: concurrent senders may
      deliver their outcomes in any order. */
  lemma OrderIsInvisible(t: Tables, a: seq<Outcome>, b: seq<Outcome>)
    requires multiset(a) == multiset(b)
    ensures ApplyOutcomes(t, a) == ApplyOutcomes(t, b)
  {
    forall o | true ensures o in a <==> o in b {
      assert o in a <==> o in multiset(a);
      assert o in b <==> o in multiset(b);
    }
    assert Touched(a) == Touched(b) && InvalidTokens(a) == InvalidTokens(b) && NewLinks(a) == NewLinks(b);
    forall d | true ensures Successes(a, d) == Successes(b, d) && Failures(a, d) == Failures(b, d) {
      CountsPermute(a, b, d);
    }
    var x, y := ApplyOutcomes(t, a), ApplyOutcomes(t, b);
    forall j | j in t.jobs ensures Ends(t.dispatches, a, j) == Ends(t.dispatches, b, j) {
      assert forall d :: d in t.dispatches ==> Counted(t.dispatches[d], a, d) == Counted(t.dispatches[d], b, d);
    }
    assert x.jobs == y.jobs;
    assert x.dispatches == y.dispatches;
  }
}
