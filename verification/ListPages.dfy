/** The list endpoints: pages in descending (time, id) order, walked by a
    cursor that the client hands back and that is bound to a route and a
    status.

    A time is the instant's rank, 0 being Go's zero time; an id its rank in text
    order, 0 being the empty string.  A raw cursor is known by what base64 and
    JSON decode it to. */
module ListPages {
  import opened Options
  import opened Sequences

  datatype Result<+T> = Ok(value: T) | Err

  datatype Key = Key(time: nat, id: nat)

  datatype TimeText = NoTime | BadTime | At(time: nat)
  datatype Raw = Absent | Undecodable | Decoded(version: int, route: string, status: string, sortValue: TimeText, id: nat)
  datatype RawLimit = NoLimit | NotANumber | Number(n: int)

  datatype Response<Out> = Response(items: seq<Out>, next: Raw, more: bool)

  const DEFAULT_PAGE_LIMIT: nat := 50
  const MAX_PAGE_LIMIT: nat := 200
  const CURSOR_VERSION := 1

  function ParseLimit(raw: RawLimit): (r: Result<nat>)
    ensures r.Ok? <==> raw.NoLimit? || (raw.Number? && 1 <= raw.n <= MAX_PAGE_LIMIT)
    ensures r.Ok? ==> r.value == if raw.NoLimit? then 50 else raw.n
  {
    match raw
    case NoLimit => Ok(DEFAULT_PAGE_LIMIT)
    case NotANumber => Err
    case Number(n) => if n <= 0 || n > MAX_PAGE_LIMIT then Err else Ok(n)
  }

  function FormatAPITime(time: nat): TimeText {
    if time == 0 then NoTime else At(time)
  }

  function ParseCursor(raw: Raw, route: string, status: string): Result<Key> {
    match raw
    case Absent => Ok(Key(0, 0))
    case Undecodable => Err
    case Decoded(version, r, s, sortValue, id) =>
      if version != CURSOR_VERSION || r != route || s != status || sortValue.NoTime? || id == 0 then Err
      else if sortValue.BadTime? then Err
      else Ok(Key(sortValue.time, id))
  }

  function EncodeCursor(route: string, status: string, key: Key): Raw {
    if key.time == 0 || key.id == 0 then Absent
    else Decoded(CURSOR_VERSION, route, status, FormatAPITime(key.time), key.id)
  }

  // ---- cursors --------------------------------------------------------------------------

  /** Exactly when a cursor survives the trip through the client. */
  lemma CursorRoundTrip(route: string, status: string, key: Key)
    ensures ParseCursor(EncodeCursor(route, status, key), route, status) == Ok(key) <==> (key.time != 0 <==> key.id != 0)
  {
  }

  /** A cursor made for one list is refused by every other. */
  lemma CursorIsBound(route: string, status: string, key: Key, route': string, status': string)
    requires key.time != 0 && key.id != 0 && (route' != route || status' != status)
    ensures ParseCursor(EncodeCursor(route, status, key), route', status').Err?
  {
  }

  /** Whatever a client sends, the same cursor is good for one list at most. */
  lemma OneListPerCursor(raw: Raw, route: string, status: string, route': string, status': string)
    requires ParseCursor(raw, route, status).Ok? && ParseCursor(raw, route', status').Ok? && !raw.Absent?
    ensures route == route' && status == status'
    ensures raw.version == CURSOR_VERSION
  {
  }

  // ---- the queries ------------------------------------------------------------------------

  predicate Less(a: Key, b: Key) {
    a.time < b.time || (a.time == b.time && a.id < b.id)
  }

  /** `cursorTimeArg`: a zero time is no cursor at all. */
  predicate Matches(k: Key, cursor: Key) {
    cursor.time == 0 || Less(k, cursor)
  }

  ghost predicate Descending(s: seq<Key>) {
    forall i, j :: 0 <= i < j < |s| ==> Less(s[j], s[i])
  }

  /** Of two rows the later comes first, and of two of the same time the one with
      the greater id. */
  ghost predicate NewestFirst(s: seq<Key>) {
    forall i, j :: 0 <= i < j < |s| ==> s[i].time > s[j].time || (s[i].time == s[j].time && s[i].id > s[j].id)
  }

  lemma DescendingIsNewestFirst(s: seq<Key>)
    ensures Descending(s) <==> NewestFirst(s)
  {
  }

  function Below(s: set<Key>, cursor: Key): set<Key> {
    set k | k in s && Matches(k, cursor)
  }

  lemma GreatestExists(s: set<Key>)
    requires s != {}
    ensures exists m :: m in s && forall x :: x in s ==> x == m || Less(x, m)
  {
    var y :| y in s;
    var rest := s - {y};
    if rest == {} {
      assert s == {y};
    } else {
      GreatestExists(rest);
      var m :| m in rest && forall x :: x in rest ==> x == m || Less(x, m);
      assert forall x :: x in s ==> x == y || x in rest;
      if Less(m, y) {
        assert y in s && forall x :: x in s ==> x == y || Less(x, y);
      } else {
        assert m in s && forall x :: x in s ==> x == m || Less(x, m);
      }
    }
  }

  function Greatest(s: set<Key>): (m: Key)
    requires s != {}
    ensures m in s && forall x :: x in s ==> x == m || Less(x, m)
  {
    GreatestExists(s);
    var m :| m in s && forall x :: x in s ==> x == m || Less(x, m);
    m
  }

  /** `ORDER BY time DESC, id DESC`. */
  function Ordered(s: set<Key>): (r: seq<Key>)
    ensures Descending(r)
    ensures forall x :: x in r <==> x in s
  {
    if s == {} then []
    else
      var m := Greatest(s);
      [m] + Ordered(s - {m})
  }

  /** The rows of a list query with a limit. */
  function Query(s: set<Key>, cursor: Key, limit: nat): seq<Key> {
    var all := Ordered(Below(s, cursor));
    if |all| <= limit then all else all[..limit]
  }

  function Mapped<In, Out>(items: seq<In>, f: In -> Out): seq<Out> {
    seq(|items|, i requires 0 <= i < |items| => f(items[i]))
  }

  /** What a response shows of the rows its query returned. */
  function Respond<In, Out>(items: seq<In>, limit: nat, route: string, status: string, key: In -> Key, f: In -> Out): Response<Out>
    requires limit >= 1
  {
    if |items| <= limit then Response(Mapped(items, f), Absent, false)
    else Response(Mapped(items[..limit], f), EncodeCursor(route, status, key(items[limit - 1])), true)
  }

  /** `makeMappedListResponse`. */
  method MakeMappedListResponse<In, Out>(items: seq<In>, limit: nat, route: string, status: string, key: In -> Key, f: In -> Out)
    returns (response: Response<Out>)
    requires limit >= 1
    ensures response == Respond(items, limit, route, status, key, f)
    ensures response.more <==> |items| > limit
    ensures |response.items| == if response.more then limit else |items|
    ensures forall i :: 0 <= i < |response.items| ==> response.items[i] == f(items[i])
    ensures response.next == if response.more then EncodeCursor(route, status, key(items[limit - 1])) else Absent
  {
    var mapped: seq<Out> := [];
    if |items| <= limit {
      for i := 0 to |items|
        invariant mapped == Mapped(items[..i], f)
      {
        mapped := mapped + [f(items[i])];
      }
      assert items[..|items|] == items;
      return Response(mapped, Absent, false);
    }
    var visible := items[..limit];
    for i := 0 to |visible|
      invariant mapped == Mapped(visible[..i], f)
    {
      mapped := mapped + [f(visible[i])];
    }
    assert visible[..|visible|] == visible;
    return Response(mapped, EncodeCursor(route, status, key(visible[|visible| - 1])), true);
  }

  /** One request: the query asks for one row more than the page shows. */
  function Serve(s: set<Key>, raw: Raw, limit: nat, route: string, status: string): Result<Response<Key>>
    requires limit >= 1
  {
    match ParseCursor(raw, route, status)
    case Err => Err
    case Ok(cursor) => Ok(Respond(Query(s, cursor, limit + 1), limit, route, status, (k: Key) => k, (k: Key) => k))
  }

  lemma CutContents(all: seq<Key>, limit: nat, x: Key)
    requires limit >= 1 && |all| > limit && Descending(all)
    ensures x in all[..limit] <==> x in all && !Less(x, all[limit - 1])
  {
    if x in all && !Less(x, all[limit - 1]) {
      var k :| 0 <= k < |all| && all[k] == x;
      assert all[..limit][k] == x;
    }
    if x in all[..limit] {
      var k :| 0 <= k < |all[..limit]| && all[..limit][k] == x;
      assert all[k] == x && (k == limit - 1 || Less(all[limit - 1], all[k]));
    }
  }

  /** A page said without sorting or cutting: the matching rows down to its
      last one, which is the key of the next cursor. */
  lemma PageContents(s: set<Key>, cursor: Key, limit: nat, route: string, status: string)
    requires limit >= 1
    ensures var p := Respond(Query(s, cursor, limit + 1), limit, route, status, (k: Key) => k, (k: Key) => k);
      && Descending(p.items) && NewestFirst(p.items)
      && (p.more ==> |p.items| == limit && p.next == EncodeCursor(route, status, p.items[limit - 1]))
      && (p.more ==> exists y :: y in s && Matches(y, cursor) && Less(y, p.items[limit - 1]))
      && (forall x :: x in p.items <==> x in s && Matches(x, cursor) && (p.more ==> !Less(x, p.items[limit - 1])))
  {
    var all := Ordered(Below(s, cursor));
    var p := Respond(Query(s, cursor, limit + 1), limit, route, status, (k: Key) => k, (k: Key) => k);
    if p.more {
      assert p.items == all[..limit];
      assert all[limit] in all;
      forall x ensures x in p.items <==> x in s && Matches(x, cursor) && !Less(x, p.items[limit - 1]) {
        CutContents(all, limit, x);
      }
    } else {
      assert p.items == all;
    }
  }

  // ---- walking by next_cursor ----------------------------------------------------------------

  /** A walk so far: what the table held at each request, the rows listed, the
      cursor to send next, and whether the last response said that was all. */
  datatype Walk = Walk(seen: seq<set<Key>>, listed: seq<Key>, next: Raw, done: bool)

  const NEW_WALK := Walk([], [], Absent, false)

  function NextPage(walk: Walk, s: set<Key>, limit: nat, route: string, status: string): Walk
    requires limit >= 1
  {
    match Serve(s, walk.next, limit, route, status)
    case Err => walk
    case Ok(p) => Walk(walk.seen + [s], walk.listed + p.items, p.next, !p.more)
  }

  /** The walk over a table that holds `tables[i]` at request `i`. */
  function WalkThrough(tables: seq<set<Key>>, limit: nat, route: string, status: string): Walk
    requires limit >= 1
  {
    if tables == [] then NEW_WALK
    else
      var before := WalkThrough(tables[..|tables| - 1], limit, route, status);
      if before.done then before else NextPage(before, tables[|tables| - 1], limit, route, status)
  }

  /** No row has the zero time or the empty id. */
  ghost predicate Proper(s: set<Key>) {
    forall k :: k in s ==> k.time != 0 && k.id != 0
  }

  ghost predicate InEvery(seen: seq<set<Key>>, x: Key) {
    forall i :: 0 <= i < |seen| ==> x in seen[i]
  }

  ghost predicate InSome(seen: seq<set<Key>>, x: Key) {
    exists i :: 0 <= i < |seen| && x in seen[i]
  }

  /** `x` lies in what the walk has been through. */
  ghost predicate Passed(walk: Walk, x: Key) {
    walk.done || (walk.listed != [] && !Less(x, walk.listed[|walk.listed| - 1]))
  }

  ghost predicate WalkOk(walk: Walk, route: string, status: string) {
    && Descending(walk.listed)
    && (walk.done ==> walk.seen != [])
    && (!walk.done ==> if walk.listed == [] then walk.next.Absent? && walk.seen == []
                       else walk.next == EncodeCursor(route, status, walk.listed[|walk.listed| - 1]))
    && (forall x :: x in walk.listed ==> InSome(walk.seen, x) && x.time != 0 && x.id != 0)
    && (forall x :: InEvery(walk.seen, x) && Passed(walk, x) ==> x in walk.listed)
  }

  /** The cursor the server reads from a walk that goes on. */
  function CursorOf(walk: Walk): Key {
    if walk.listed == [] then Key(0, 0) else walk.listed[|walk.listed| - 1]
  }

  lemma WalkCursor(walk: Walk, route: string, status: string)
    requires WalkOk(walk, route, status) && !walk.done
    ensures ParseCursor(walk.next, route, status) == Ok(CursorOf(walk))
    ensures forall x: Key :: Matches(x, CursorOf(walk)) <==> walk.listed == [] || Less(x, CursorOf(walk))
  {
    if walk.listed != [] {
      assert walk.listed[|walk.listed| - 1] in walk.listed;
    }
  }

  lemma NextDescends(walk: Walk, s: set<Key>, limit: nat, route: string, status: string)
    requires limit >= 1 && WalkOk(walk, route, status) && !walk.done
    ensures Descending(NextPage(walk, s, limit, route, status).listed)
  {
    WalkCursor(walk, route, status);
    PageContents(s, CursorOf(walk), limit, route, status);
    var items := Serve(s, walk.next, limit, route, status).value.items;
    DescendingJoin(walk.listed, items);
  }

  lemma DescendingJoin(a: seq<Key>, b: seq<Key>)
    requires Descending(a) && Descending(b)
    requires forall x :: x in b ==> a == [] || Less(x, a[|a| - 1])
    ensures Descending(a + b)
  {
    assert forall i :: 0 <= i < |b| ==> b[i] in b;
  }

  lemma NextSound(walk: Walk, s: set<Key>, limit: nat, route: string, status: string, x: Key)
    requires limit >= 1 && WalkOk(walk, route, status) && !walk.done && Proper(s)
    requires x in NextPage(walk, s, limit, route, status).listed
    ensures InSome(NextPage(walk, s, limit, route, status).seen, x) && x.time != 0 && x.id != 0
  {
    WalkCursor(walk, route, status);
    PageContents(s, CursorOf(walk), limit, route, status);
    var seen' := NextPage(walk, s, limit, route, status).seen;
    if x in walk.listed {
      var i :| 0 <= i < |walk.seen| && x in walk.seen[i];
      assert x in seen'[i];
    } else {
      assert seen'[|walk.seen|] == s;
    }
  }

  lemma NextComplete(walk: Walk, s: set<Key>, limit: nat, route: string, status: string, x: Key)
    requires limit >= 1 && WalkOk(walk, route, status) && !walk.done
    requires InEvery(NextPage(walk, s, limit, route, status).seen, x)
    requires Passed(NextPage(walk, s, limit, route, status), x)
    ensures x in NextPage(walk, s, limit, route, status).listed
  {
    WalkCursor(walk, route, status);
    PageContents(s, CursorOf(walk), limit, route, status);
    var seen' := NextPage(walk, s, limit, route, status).seen;
    assert seen'[|walk.seen|] == s;
    assert forall i :: 0 <= i < |walk.seen| ==> seen'[i] == walk.seen[i];
    assert InEvery(walk.seen, x);
  }

  lemma NextOk(walk: Walk, s: set<Key>, limit: nat, route: string, status: string)
    requires limit >= 1 && WalkOk(walk, route, status) && !walk.done && Proper(s)
    ensures WalkOk(NextPage(walk, s, limit, route, status), route, status)
    ensures NextPage(walk, s, limit, route, status).seen == walk.seen + [s]
  {
    var walk' := NextPage(walk, s, limit, route, status);
    NextDescends(walk, s, limit, route, status);
    WalkCursor(walk, route, status);
    PageContents(s, CursorOf(walk), limit, route, status);
    forall x | x in walk'.listed ensures InSome(walk'.seen, x) && x.time != 0 && x.id != 0 {
      NextSound(walk, s, limit, route, status, x);
    }
    forall x | InEvery(walk'.seen, x) && Passed(walk', x) ensures x in walk'.listed {
      NextComplete(walk, s, limit, route, status, x);
    }
  }

  lemma NewWalkOk(route: string, status: string)
    ensures WalkOk(NEW_WALK, route, status)
  {
  }

  lemma {:induction false} WalksAreOk(tables: seq<set<Key>>, limit: nat, route: string, status: string)
    requires limit >= 1 && forall i :: 0 <= i < |tables| ==> Proper(tables[i])
    ensures var walk := WalkThrough(tables, limit, route, status);
      && WalkOk(walk, route, status)
      && walk.seen <= tables
      && (!walk.done ==> walk.seen == tables)
  {
    if tables == [] {
      NewWalkOk(route, status);
    } else {
      var init, last := tables[..|tables| - 1], tables[|tables| - 1];
      WalksAreOk(init, limit, route, status);
      var before := WalkThrough(init, limit, route, status);
      assert init + [last] == tables;
      if !before.done {
        NextOk(before, last, limit, route, status);
      }
    }
  }

  lemma OnceInDescending(listed: seq<Key>, x: Key)
    requires Descending(listed) && x in listed
    ensures ExactlyOnce(listed, x)
  {
    OnceInOrdered(listed, (x, y) => Less(y, x), x);
  }

  lemma SeenAreHeld(seen: seq<set<Key>>, tables: seq<set<Key>>, x: Key)
    requires seen <= tables
    ensures InSome(seen, x) ==> InSome(tables, x)
    ensures InEvery(tables, x) ==> InEvery(seen, x)
  {
    if InSome(seen, x) {
      var i :| 0 <= i < |seen| && x in seen[i];
      assert x in tables[i];
    }
    if InEvery(tables, x) {
      forall i | 0 <= i < |seen| ensures x in seen[i] {
        assert x in tables[i];
      }
    }
  }

  // ---- the rows there can be ------------------------------------------------------------------

  datatype RawTime = NotGiven | Malformed | Given(time: nat)

  /** `parseScheduledAt`: a time before now is refused. */
  function ParseScheduledAt(raw: RawTime, now: nat): Result<RawTime> {
    match raw
    case NotGiven => Ok(NotGiven)
    case Malformed => Err
    case Given(time) => if time < now then Err else Ok(raw)
  }

  /** `requiredTime`: a missing creation time becomes now. */
  function RequiredTime(time: nat, now: nat): nat {
    if time == 0 then now else time
  }

  /** A listed table and the clock its rows are stamped by. */
  datatype Table = Table(now: nat, rows: set<Key>)

  /** Users and subscriptions are stamped by the clock; a user without an id is
      given a fresh one.  Jobs are listed by their schedule, if they have one. */
  datatype Write =
    | Stamp(id: nat, uuid: nat)
    | AddJob(uuid: nat, createdAt: nat, scheduledAt: RawTime)
    | Remove(key: Key)
    | Tick(now: nat)

  predicate CanWrite(t: Table, w: Write) {
    match w
    case Stamp(_, uuid) => uuid != 0
    case AddJob(uuid, _, _) => uuid != 0
    case Remove(_) => true
    case Tick(now) => now >= t.now
  }

  function Apply(t: Table, w: Write): Table
    requires CanWrite(t, w)
  {
    match w
    case Stamp(id, uuid) => t.(rows := t.rows + {Key(t.now, if id == 0 then uuid else id)})
    case AddJob(uuid, createdAt, scheduledAt) => (
      match ParseScheduledAt(scheduledAt, t.now)
      case Err => t
      case Ok(Given(time)) => t.(rows := t.rows + {Key(time, uuid)})
      case Ok(_) => t.(rows := t.rows + {Key(RequiredTime(createdAt, t.now), uuid)}))
    case Remove(key) => t.(rows := t.rows - {key})
    case Tick(now) => t.(now := now)
  }

  /** An empty table after `writes`, or None when one of them cannot be made. */
  function WriteAll(now: nat, writes: seq<Write>): Option<Table> {
    if writes == [] then Some(Table(now, {}))
    else
      match WriteAll(now, writes[..|writes| - 1])
      case None => None
      case Some(t) => if CanWrite(t, writes[|writes| - 1]) then Some(Apply(t, writes[|writes| - 1])) else None
  }

  /** The repository's own writes lead to these rows, on a clock that never shows
      Go's zero time. */
  ghost predicate Written(s: set<Key>) {
    exists now: nat, writes :: now != 0 && WriteAll(now, writes).Some? && WriteAll(now, writes).value.rows == s
  }

  lemma ApplyProper(t: Table, w: Write)
    requires t.now != 0 && Proper(t.rows) && CanWrite(t, w)
    ensures Apply(t, w).now != 0 && Proper(Apply(t, w).rows)
  {
  }

  lemma {:induction false} WritesAreProper(now: nat, writes: seq<Write>)
    requires now != 0 && WriteAll(now, writes).Some?
    ensures WriteAll(now, writes).value.now != 0 && Proper(WriteAll(now, writes).value.rows)
  {
    if writes == [] {
    } else {
      WritesAreProper(now, writes[..|writes| - 1]);
      ApplyProper(WriteAll(now, writes[..|writes| - 1]).value, writes[|writes| - 1]);
    }
  }

  /** No row the repository writes has the zero time or an empty id. */
  lemma WrittenIsProper(s: set<Key>)
    ensures Written(s) ==> Proper(s)
  {
    if Written(s) {
      var now: nat, writes :| now != 0 && WriteAll(now, writes).Some? && WriteAll(now, writes).value.rows == s;
      WritesAreProper(now, writes);
    }
  }

  /** Walking to the end lists rows in strictly descending order, none of them
      twice and none from nowhere, and each row whose key and filter result do
      not change meanwhile exactly once, whatever other rows come, go and move. */
  lemma WalkListsOnce(tables: seq<set<Key>>, limit: nat, route: string, status: string, x: Key)
    requires limit >= 1 && forall i :: 0 <= i < |tables| ==> Written(tables[i])
    requires WalkThrough(tables, limit, route, status).done
    ensures var listed := WalkThrough(tables, limit, route, status).listed;
      && NewestFirst(listed)
      && (x in listed ==> InSome(tables, x))
      && (InEvery(tables, x) ==> ExactlyOnce(listed, x))
  {
    var walk := WalkThrough(tables, limit, route, status);
    forall i | 0 <= i < |tables| ensures Proper(tables[i]) {
      WrittenIsProper(tables[i]);
    }
    WalksAreOk(tables, limit, route, status);
    DescendingIsNewestFirst(walk.listed);
    SeenAreHeld(walk.seen, tables, x);
    if InEvery(tables, x) {
      OnceInDescending(walk.listed, x);
    }
  }

  // ---- a table that stays fixed -----------------------------------------------------------------

  function Repeat(s: set<Key>, n: nat): seq<set<Key>> {
    seq(n, _ => s)
  }

  lemma DescendingUnique(a: seq<Key>, b: seq<Key>)
    requires Descending(a) && Descending(b)
    requires forall x :: x in a <==> x in b
    ensures a == b
  {
    OrderedUnique(a, b, (x, y) => Less(y, x));
  }

  /** What a walk has still to list of a fixed table. */
  function Remaining(s: set<Key>, walk: Walk): set<Key> {
    set k | k in s && k !in walk.listed
  }

  lemma PageShrinks(walk: Walk, s: set<Key>, limit: nat, route: string, status: string)
    requires limit >= 1 && WalkOk(walk, route, status) && !walk.done && Proper(s)
    requires !NextPage(walk, s, limit, route, status).done
    ensures |Remaining(s, NextPage(walk, s, limit, route, status))| < |Remaining(s, walk)|
  {
    var walk' := NextPage(walk, s, limit, route, status);
    WalkCursor(walk, route, status);
    PageContents(s, CursorOf(walk), limit, route, status);
    var last := walk'.listed[|walk'.listed| - 1];
    var p := Serve(s, walk.next, limit, route, status).value;
    assert last == p.items[limit - 1] && last in p.items && last in walk'.listed;
    assert last !in walk.listed by {
      forall i | 0 <= i < |walk.listed| ensures walk.listed[i] != last {
        assert i == |walk.listed| - 1 || Less(CursorOf(walk), walk.listed[i]);
      }
    }
    assert last in Remaining(s, walk);
    assert Remaining(s, walk') <= Remaining(s, walk) - {last};
    SubsetSize(Remaining(s, walk'), Remaining(s, walk) - {last});
  }

  lemma {:induction false} RequestsShrink(s: set<Key>, n: nat, limit: nat, route: string, status: string)
    requires limit >= 1 && Proper(s) && !WalkThrough(Repeat(s, n), limit, route, status).done
    ensures |Remaining(s, WalkThrough(Repeat(s, n), limit, route, status))| + n <= |s|
  {
    var walk := WalkThrough(Repeat(s, n), limit, route, status);
    if n == 0 {
      assert Remaining(s, walk) == s;
    } else {
      assert Repeat(s, n)[..n - 1] == Repeat(s, n - 1);
      RequestsShrink(s, n - 1, limit, route, status);
      WalksAreOk(Repeat(s, n - 1), limit, route, status);
      PageShrinks(WalkThrough(Repeat(s, n - 1), limit, route, status), s, limit, route, status);
    }
  }

  /** On a fixed table the walk ends, after at most one request more than there
      are rows, and has then listed exactly the table in descending order. */
  lemma FixedTableWalk(s: set<Key>, limit: nat, route: string, status: string)
    requires limit >= 1 && Written(s)
    ensures var walk := WalkThrough(Repeat(s, |s| + 1), limit, route, status);
      && walk.done && walk.listed == Ordered(s)
      && NewestFirst(walk.listed) && (forall x :: x in walk.listed <==> x in s) && |walk.listed| == |s|
  {
    WrittenIsProper(s);
    var tables := Repeat(s, |s| + 1);
    var walk := WalkThrough(tables, limit, route, status);
    if !walk.done {
      RequestsShrink(s, |s| + 1, limit, route, status);
    }
    WalksAreOk(tables, limit, route, status);
    FixedIsListed(walk, s, route, status);
    DescendingUnique(walk.listed, Ordered(s));
    DescendingIsNewestFirst(walk.listed);
    DescendingSize(walk.listed, s);
  }

  lemma FixedIsListed(walk: Walk, s: set<Key>, route: string, status: string)
    requires WalkOk(walk, route, status) && walk.done && forall i :: 0 <= i < |walk.seen| ==> walk.seen[i] == s
    ensures forall x :: x in walk.listed <==> x in s
  {
    forall x | x in s ensures x in walk.listed {
      assert InEvery(walk.seen, x);
    }
  }

  lemma {:induction false} DescendingSize(listed: seq<Key>, s: set<Key>)
    requires Descending(listed) && forall x :: x in listed <==> x in s
    ensures |listed| == |s|
  {
    if listed == [] {
      assert s == {};
    } else {
      var init, last := listed[..|listed| - 1], listed[|listed| - 1];
      assert forall x :: x in listed <==> x in init || x == last;
      assert last !in init by {
        assert forall i :: 0 <= i < |init| ==> Less(last, listed[i]);
      }
      DescendingSize(init, s - {last});
    }
  }

  // ---- the zero time ---------------------------------------------------------------------------

  /** Exactly when a page's cursor resumes below its last row.  A page that ends
      on a row of zero time, or without an id, hands out no cursor although more
      rows remain, and the request that follows is served the first page again. */
  lemma ResumesExactlyWhen(s: set<Key>, raw: Raw, limit: nat, route: string, status: string)
    requires limit >= 1 && Serve(s, raw, limit, route, status).Ok? && Serve(s, raw, limit, route, status).value.more
    ensures var p := Serve(s, raw, limit, route, status).value;
      && |p.items| == limit
      && (var last := p.items[limit - 1];
          if last.time != 0 && last.id != 0 then ParseCursor(p.next, route, status) == Ok(last)
          else p.next == Absent && Serve(s, p.next, limit, route, status) == Serve(s, Absent, limit, route, status))
  {
    PageContents(s, ParseCursor(raw, route, status).value, limit, route, status);
  }

  /** A walk over rows of zero time need not end: two such rows, one a page, are
      served the same first row for ever.  Only rows that the repository did not
      write can be like that. */
  lemma {:induction false} ZeroTimeRestarts(a: nat, b: nat, n: nat, route: string, status: string)
    requires a > b
    ensures var walk := WalkThrough(Repeat({Key(0, a), Key(0, b)}, n), 1, route, status);
      !walk.done && walk.next == Absent && walk.listed == seq(n, _ => Key(0, a))
    ensures !Written({Key(0, a), Key(0, b)})
  {
    var s := {Key(0, a), Key(0, b)};
    assert Key(0, a) in s;
    WrittenIsProper(s);
    if n > 0 {
      assert Repeat(s, n)[..n - 1] == Repeat(s, n - 1);
      ZeroTimeRestarts(a, b, n - 1, route, status);
      TwoRows(a, b);
    }
  }

  lemma TwoRows(a: nat, b: nat)
    requires a > b
    ensures Query({Key(0, a), Key(0, b)}, Key(0, 0), 2) == [Key(0, a), Key(0, b)]
  {
    var s := {Key(0, a), Key(0, b)};
    assert Below(s, Key(0, 0)) == s;
    DescendingUnique(Ordered(s), [Key(0, a), Key(0, b)]);
  }
}
