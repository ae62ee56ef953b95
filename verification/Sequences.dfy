/** Facts about sequences and multisets that several models share. */
module Sequences {

  ghost predicate ExactlyOnce<T(!new)>(s: seq<T>, x: T) {
    exists i :: 0 <= i < |s| && s[i] == x && forall j :: 0 <= j < |s| && s[j] == x ==> j == i
  }

  function Flatten<T>(parts: seq<seq<T>>): seq<T> {
    if parts == [] then [] else Flatten(parts[..|parts| - 1]) + parts[|parts| - 1]
  }

  lemma Cancel<T>(a: multiset<T>, b: multiset<T>, c: multiset<T>)
    requires a + c == b + c
    ensures a == b
  {
    forall x ensures a[x] == b[x] {
      assert (a + c)[x] == a[x] + c[x];
      assert (b + c)[x] == b[x] + c[x];
    }
  }

  lemma SubsetSize<T>(a: set<T>, b: set<T>)
    requires a <= b
    ensures |a| <= |b|
    ensures |a| == |b| <==> a == b
  {
    assert b == a + (b - a);
    assert |b| == |a| + |b - a|;
  }

  // ---- strictly ordered sequences --------------------------------------------------------

  ghost predicate Asymmetric<T(!new)>(less: (T, T) -> bool) {
    forall x, y :: less(x, y) ==> !less(y, x)
  }

  ghost predicate Ordered<T>(s: seq<T>, less: (T, T) -> bool) {
    forall i, j :: 0 <= i < j < |s| ==> less(s[i], s[j])
  }

  lemma OnceInOrdered<T(!new)>(s: seq<T>, less: (T, T) -> bool, x: T)
    requires Asymmetric(less) && Ordered(s, less) && x in s
    ensures ExactlyOnce(s, x)
  {
    var i :| 0 <= i < |s| && s[i] == x;
    forall j | 0 <= j < |s| && j != i ensures s[j] != x {
      assert less(s[i], s[j]) || less(s[j], s[i]);
    }
  }

  lemma HeadIsFirst<T>(s: seq<T>, less: (T, T) -> bool, x: T)
    requires Ordered(s, less) && x in s
    ensures x == s[0] || less(s[0], x)
  {
    var i :| 0 <= i < |s| && s[i] == x;
    assert i == 0 || less(s[0], s[i]);
  }

  lemma TailIn<T(!new)>(a: seq<T>, b: seq<T>, less: (T, T) -> bool, x: T)
    requires Asymmetric(less) && Ordered(a, less) && a != [] && b != [] && a[0] == b[0]
    requires x in b && x in a[1..]
    ensures x in b[1..]
  {
    var i :| 0 <= i < |a[1..]| && a[1..][i] == x;
    assert less(a[0], a[i + 1]);
    var k :| 0 <= k < |b| && b[k] == x;
    assert b[1..][k - 1] == x;
  }

  lemma SomeElement<T(!new)>(s: seq<T>)
    requires s != []
    ensures exists x :: x in s
  {
    assert s[0] in s;
  }

  /** Two strictly ordered sequences with the same elements are the same. */
  lemma {:induction false} OrderedUnique<T(!new)>(a: seq<T>, b: seq<T>, less: (T, T) -> bool)
    requires Asymmetric(less) && Ordered(a, less) && Ordered(b, less)
    requires forall x :: x in a <==> x in b
    ensures a == b
  {
    if a == [] && b == [] {
    } else if a == [] {
      SomeElement(b);
    } else {
      assert a[0] in b;
      HeadIsFirst(b, less, a[0]);
      assert b[0] in a;
      HeadIsFirst(a, less, b[0]);
      forall x ensures x in a[1..] <==> x in b[1..] {
        if x in a[1..] { TailIn(a, b, less, x); }
        if x in b[1..] { TailIn(b, a, less, x); }
      }
      OrderedUnique(a[1..], b[1..], less);
      assert a == [a[0]] + a[1..] && b == [b[0]] + b[1..];
    }
  }

  /** A number above all of a finite set. */
  lemma AboveAll(s: set<nat>) returns (n: nat)
    ensures forall x :: x in s ==> x < n
    decreases |s|
  {
    if s == {} {
      return 0;
    }
    var x :| x in s;
    n := AboveAll(s - {x});
    assert forall y :: y in s ==> y == x || y in s - {x};
    n := if x < n then n else x + 1;
  }
}
