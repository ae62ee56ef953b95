/** Doing the same thing again and again: what a loop makes of the state it starts
    in, when each of its turns is a function of the state. */
module Iterations {

  ghost function Iterate<M>(turn: M -> M, m: M, n: nat): M {
    if n == 0 then m else turn(Iterate(turn, m, n - 1))
  }

  /** Some number of turns lead from `m` to `m'`. */
  ghost predicate TurnsInto<M>(turn: M -> M, m: M, m': M) {
    exists n: nat :: Iterate(turn, m, n) == m'
  }

  lemma {:induction false} IterateAdds<M>(turn: M -> M, m: M, a: nat, b: nat)
    ensures Iterate(turn, Iterate(turn, m, a), b) == Iterate(turn, m, a + b)
  {
    if b == 0 {
    } else {
      IterateAdds(turn, m, a, b - 1);
    }
  }

  lemma TurnsOn<M>(turn: M -> M, m: M, m': M, m'': M)
    requires TurnsInto(turn, m, m') && TurnsInto(turn, m', m'')
    ensures TurnsInto(turn, m, m'')
  {
    var a: nat :| Iterate(turn, m, a) == m';
    var b: nat :| Iterate(turn, m', b) == m'';
    IterateAdds(turn, m, a, b);
  }

  lemma OneTurn<M>(turn: M -> M, m: M)
    ensures TurnsInto(turn, m, m) && TurnsInto(turn, m, turn(m))
  {
    assert Iterate(turn, m, 0) == m;
    assert Iterate(turn, m, 1) == turn(Iterate(turn, m, 0));
  }

  /** What every turn keeps, any number of them keep. */
  lemma {:induction false} IterateKeeps<M(!new)>(turn: M -> M, m: M, n: nat, p: M -> bool)
    requires p(m) && forall k :: p(k) ==> p(turn(k))
    ensures p(Iterate(turn, m, n))
  {
    if n == 0 {
    } else {
      IterateKeeps(turn, m, n - 1, p);
    }
  }
}
