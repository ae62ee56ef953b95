/** Keyset pages: the paging rule shared by every fan-out loop.

    A query returns the rows whose id lies above a cursor, in id order, cut at
    `size + 1` rows; the extra row only says that more remain.  The set of
    matching rows may change between two pages, so a scan is described by the
    sets its pages were read from.

    An id stands for its rank in the database's text order.  Ids are not
    empty, so their rank is at least 1 and rank 0 is the empty first cursor. */
module Keyset {
  import opened Sequences

  ghost predicate Increasing(s: seq<nat>) {
    forall i, j :: 0 <= i < j < |s| ==> s[i] < s[j]
  }

  function Above(s: set<nat>, cursor: nat): set<nat> {
    set x | x in s && x > cursor
  }

  lemma LeastExists(s: set<nat>)
    requires s != {}
    ensures exists m :: m in s && forall x :: x in s ==> m <= x
  {
    var y :| y in s;
    var rest := s - {y};
    if rest == {} {
      assert s == {y};
    } else {
      LeastExists(rest);
      var m :| m in rest && forall x :: x in rest ==> m <= x;
      assert forall x :: x in s ==> x == y || x in rest;
      if y < m {
        assert y in s && forall x :: x in s ==> y <= x;
      } else {
        assert m in s && forall x :: x in s ==> m <= x;
      }
    }
  }

  function Least(s: set<nat>): (m: nat)
    requires s != {}
    ensures m in s && forall x :: x in s ==> m <= x
  {
    LeastExists(s);
    var m :| m in s && forall x :: x in s ==> m <= x;
    m
  }

  /** `ORDER BY id`. */
  function Sorted(s: set<nat>): (r: seq<nat>)
    ensures Increasing(r)
    ensures forall x :: x in r <==> x in s
  {
    if s == {} then []
    else
      var m := Least(s);
      [m] + Sorted(s - {m})
  }

  datatype Page = Page(ids: seq<nat>, more: bool, next: nat)

  /** The rows a page query returns: `id > cursor ORDER BY id LIMIT size + 1`. */
  function Rows(s: set<nat>, cursor: nat, size: nat): seq<nat> {
    var all := Sorted(Above(s, cursor));
    if |all| <= size + 1 then all else all[..size + 1]
  }

  /** The page cut from the rows of one query. */
  function Cut(rows: seq<nat>, size: nat): Page
    requires size >= 1
  {
    if |rows| > size then Page(rows[..size], true, rows[size - 1]) else Page(rows, false, 0)
  }

  function PageOf(s: set<nat>, cursor: nat, size: nat): Page
    requires size >= 1
  {
    Cut(Rows(s, cursor, size), size)
  }

  lemma CutContents(all: seq<nat>, size: nat, x: nat)
    requires size >= 1 && |all| > size && Increasing(all)
    ensures x in all[..size] <==> x in all && x <= all[size - 1]
  {
    if x in all && x <= all[size - 1] {
      var k :| 0 <= k < |all| && all[k] == x;
      assert all[..size][k] == x;
    }
    if x in all[..size] {
      var k :| 0 <= k < |all[..size]| && all[..size][k] == x;
      assert all[k] == x && (k == size - 1 || all[k] < all[size - 1]);
    }
  }

  lemma PageBounds(s: set<nat>, cursor: nat, size: nat)
    requires size >= 1 && PageOf(s, cursor, size).more
    ensures var p := PageOf(s, cursor, size);
      && |p.ids| == size && p.next in s && p.next > cursor && p.ids[size - 1] == p.next
      && exists x :: x in s && x > p.next
  {
    var all := Sorted(Above(s, cursor));
    assert all[size] in all && all[size - 1] in all;
  }

  /** What one page holds, said without sorting or cutting: every id of the set
      in the window `(cursor, next]`, or everything above the cursor on the
      last page. */
  lemma PageContents(s: set<nat>, cursor: nat, size: nat)
    requires size >= 1
    ensures var p := PageOf(s, cursor, size);
      && Increasing(p.ids)
      && (forall x :: x in p.ids <==> x in s && x > cursor && (p.more ==> x <= p.next))
      && (p.more ==> |p.ids| == size && p.next in s && p.next > cursor && p.ids[size - 1] == p.next)
      && (p.more ==> exists x :: x in s && x > p.next)
  {
    var all := Sorted(Above(s, cursor));
    var p := PageOf(s, cursor, size);
    if p.more {
      assert p.ids == all[..size] && p.next == all[size - 1];
      forall x: nat ensures x in p.ids <==> x in s && x > cursor && x <= p.next {
        CutContents(all, size, x);
      }
      PageBounds(s, cursor, size);
    } else {
      assert p.ids == all;
    }
  }

  /** Ids above the cursor strictly decrease from page to page: on a fixed set
      the page loop ends. */
  lemma PagesShrink(s: set<nat>, cursor: nat, size: nat)
    requires size >= 1
    ensures var p := PageOf(s, cursor, size);
      p.more ==> |Above(s, p.next)| < |Above(s, cursor)|
  {
    PageContents(s, cursor, size);
    var p := PageOf(s, cursor, size);
    if p.more {
      assert p.next in Above(s, cursor) && p.next !in Above(s, p.next);
      assert Above(s, p.next) <= Above(s, cursor) - {p.next};
      SubsetSize(Above(s, p.next), Above(s, cursor) - {p.next});
    }
  }

  /** A cursor that moves onto a member leaves fewer members above it. */
  lemma CursorAdvances(ids: set<nat>, cursor: nat, next: nat)
    requires next in ids && next > cursor
    ensures |Above(ids, next)| < |Above(ids, cursor)|
  {
    SubsetSize(Above(ids, next), Above(ids, cursor) - {next});
  }

  function Elements(s: seq<nat>): set<nat> {
    set x | x in s
  }

  lemma {:induction false} IncreasingSize(s: seq<nat>)
    requires Increasing(s)
    ensures |Elements(s)| == |s|
  {
    if s == [] {
      assert Elements(s) == {};
    } else {
      var init, last := s[..|s| - 1], s[|s| - 1];
      IncreasingSize(init);
      assert last !in Elements(init);
      assert Elements(s) == Elements(init) + {last} by {
        assert forall x :: x in s <==> x in init || x == last;
      }
    }
  }

  /** A scan so far: the sets its pages were read from, every id fetched, the
      cursor for the next page and whether the last page has been read. */
  datatype Scan = Scan(seen: seq<set<nat>>, fetched: seq<nat>, cursor: nat, done: bool)

  const NEW_SCAN := Scan([], [], 0, false)

  function ReadPage(scan: Scan, s: set<nat>, size: nat): Scan
    requires size >= 1
  {
    var p := PageOf(s, scan.cursor, size);
    Scan(scan.seen + [s], scan.fetched + p.ids, if p.more then p.next else scan.cursor, !p.more)
  }

  ghost predicate InEvery(seen: seq<set<nat>>, x: nat) {
    forall k :: 0 <= k < |seen| ==> x in seen[k]
  }

  ghost predicate InSome(seen: seq<set<nat>>, x: nat) {
    exists k :: 0 <= k < |seen| && x in seen[k]
  }

  /** What every scan keeps while the sets change under it: no id twice, no id
      out of nowhere, and no id missed that was there at each read. */
  ghost predicate ScanOk(scan: Scan) {
    && Increasing(scan.fetched)
    && (scan.done ==> scan.seen != [])
    && (forall x :: x in scan.fetched ==> x >= 1 && InSome(scan.seen, x))
    && (!scan.done ==> forall x :: x in scan.fetched ==> x <= scan.cursor)
    && (forall x :: x >= 1 && InEvery(scan.seen, x) && (scan.done || x <= scan.cursor) ==> x in scan.fetched)
  }

  lemma ReadPageIncreasing(scan: Scan, s: set<nat>, size: nat)
    requires size >= 1 && ScanOk(scan) && !scan.done
    ensures Increasing(ReadPage(scan, s, size).fetched)
    ensures var scan' := ReadPage(scan, s, size);
      !scan'.done ==> forall x :: x in scan'.fetched ==> x <= scan'.cursor
  {
    var ids := PageOf(s, scan.cursor, size).ids;
    PageContents(s, scan.cursor, size);
    assert forall i :: 0 <= i < |scan.fetched| ==> scan.fetched[i] in scan.fetched;
    assert forall i :: 0 <= i < |ids| ==> ids[i] in ids;
  }

  lemma ReadPageSound(scan: Scan, s: set<nat>, size: nat, x: nat)
    requires size >= 1 && ScanOk(scan) && !scan.done && x in ReadPage(scan, s, size).fetched
    ensures x >= 1 && InSome(ReadPage(scan, s, size).seen, x)
  {
    var seen' := ReadPage(scan, s, size).seen;
    PageContents(s, scan.cursor, size);
    if x in scan.fetched {
      var k :| 0 <= k < |scan.seen| && x in scan.seen[k];
      assert x in seen'[k];
    } else {
      assert seen'[|scan.seen|] == s;
    }
  }

  lemma ReadPageComplete(scan: Scan, s: set<nat>, size: nat, x: nat)
    requires size >= 1 && ScanOk(scan) && !scan.done
    requires var scan' := ReadPage(scan, s, size);
      x >= 1 && InEvery(scan'.seen, x) && (scan'.done || x <= scan'.cursor)
    ensures x in ReadPage(scan, s, size).fetched
  {
    var seen' := ReadPage(scan, s, size).seen;
    PageContents(s, scan.cursor, size);
    assert seen'[|scan.seen|] == s;
    assert forall k :: 0 <= k < |scan.seen| ==> seen'[k] == scan.seen[k];
    assert InEvery(scan.seen, x);
  }

  lemma ReadPageOk(scan: Scan, s: set<nat>, size: nat)
    requires size >= 1 && ScanOk(scan) && !scan.done
    ensures ScanOk(ReadPage(scan, s, size))
  {
    var scan' := ReadPage(scan, s, size);
    ReadPageIncreasing(scan, s, size);
    forall x | x in scan'.fetched ensures x >= 1 && InSome(scan'.seen, x) {
      ReadPageSound(scan, s, size, x);
    }
    forall x | x >= 1 && InEvery(scan'.seen, x) && (scan'.done || x <= scan'.cursor) ensures x in scan'.fetched {
      ReadPageComplete(scan, s, size, x);
    }
  }

  lemma IncreasingUnique(a: seq<nat>, b: seq<nat>)
    requires Increasing(a) && Increasing(b)
    requires forall x :: x in a <==> x in b
    ensures a == b
  {
    OrderedUnique(a, b, (x: nat, y: nat) => x < y);
  }

  lemma OnceInIncreasing(s: seq<nat>, x: nat)
    requires Increasing(s) && x in s
    ensures ExactlyOnce(s, x)
  {
    OnceInOrdered(s, (x: nat, y: nat) => x < y, x);
  }

  /** On a set that stays fixed, a finished scan is exactly its sorted list. */
  lemma FixedSetScan(scan: Scan, s: set<nat>)
    requires ScanOk(scan) && scan.done
    requires 0 !in s
    requires forall k :: 0 <= k < |scan.seen| ==> scan.seen[k] == s
    ensures scan.fetched == Sorted(s)
  {
    assert scan.seen[0] == s;
    forall x | x in s ensures x in scan.fetched {
      assert InEvery(scan.seen, x);
    }
    IncreasingUnique(scan.fetched, Sorted(s));
  }
}
