/** Point-in-time reads of observation revisions, page by page, while revisions keep arriving. */
module Timeline {
  import opened Results

  datatype Revision = Revision(id: nat, series: nat, time: int, knownAt: int, value: real)

  /** The window of a system-as-of query over one or several series. */
  datatype Query = Query(series: set<nat>, from: int, to: int, asOf: int)

  /** The position after which a page starts. */
  datatype Cursor = Cursor(time: int, series: nat, id: nat)

  datatype Page = Page(items: seq<Revision>, hasMore: bool, next: Option<Cursor>)

  // ----- Selection

  predicate InWindow(r: Revision, q: Query) {
    r.series in q.series && q.from <= r.time < q.to && r.knownAt <= q.asOf
  }

  predicate SameObservation(a: Revision, b: Revision) {
    a.series == b.series && a.time == b.time
  }

  /** The ranking inside DISTINCT ON: system_known_at descending, then id descending. */
  predicate Outranks(a: Revision, b: Revision) {
    a.knownAt > b.knownAt || (a.knownAt == b.knownAt && a.id > b.id)
  }

  predicate IsSelected(table: set<Revision>, q: Query, r: Revision) {
    && r in table && InWindow(r, q)
    && forall s :: s in table && InWindow(s, q) && SameObservation(s, r) ==> !Outranks(s, r)
  }

  function Selected(table: set<Revision>, q: Query): set<Revision> {
    set r | r in table && IsSelected(table, q, r)
  }

  ghost predicate IdsUnique(table: set<Revision>) {
    forall a, b :: a in table && b in table && a.id == b.id ==> a == b
  }

  /** The highest-ranked of a nonempty set of revisions. */
  lemma {:induction false} BestExists(rows: set<Revision>) returns (best: Revision)
    requires rows != {}
    ensures best in rows && forall r :: r in rows ==> !Outranks(r, best)
  {
    var some :| some in rows;
    var rest := rows - {some};
    if rest == {} {
      assert rows == {some};
      best := some;
    } else {
      var other := BestExists(rest);
      best := if Outranks(some, other) then some else other;
      forall r | r in rows ensures !Outranks(r, best) {
        assert r == some || r in rest;
      }
    }
  }

  /** A revision the query asks about: of its series, inside its window, and known by its as-of time. */
  ghost predicate AskedFor(r: Revision, q: Query) {
    r.series in q.series && q.from <= r.time && r.time < q.to && r.knownAt <= q.asOf
  }

  /** Every observation known by the as-of time is represented, by exactly one revision: the last one known. */
  lemma SelectsLastKnown(table: set<Revision>, q: Query, r: Revision) returns (s: Revision)
    requires IdsUnique(table) && r in table && AskedFor(r, q)
    ensures s in Selected(table, q) && s in table && AskedFor(s, q)
    ensures s.series == r.series && s.time == r.time && s.knownAt >= r.knownAt
    ensures forall t :: t in Selected(table, q) && t.series == r.series && t.time == r.time ==> t == s
  {
    var rows := set t | t in table && InWindow(t, q) && SameObservation(t, r);
    assert r in rows;
    s := BestExists(rows);
    assert !Outranks(r, s);
    assert s in Selected(table, q);
    forall t | t in Selected(table, q) && SameObservation(t, r) ensures t == s {
      assert t in rows;
      assert !Outranks(s, t) && !Outranks(t, s);
    }
  }

  /** Revisions that become known after the as-of time change nothing. */
  lemma LaterRowsChangeNothing(table: set<Revision>, later: set<Revision>, q: Query)
    requires table <= later && forall r :: r in later && r !in table ==> r.knownAt > q.asOf
    ensures Selected(later, q) == Selected(table, q)
  {
    forall r ensures r in Selected(later, q) <==> r in Selected(table, q) {
      assert InWindow(r, q) && r in later ==> r in table;
    }
  }

  // ----- Order

  function CursorOf(r: Revision): Cursor {
    Cursor(r.time, r.series, r.id)
  }

  predicate Less(a: Cursor, b: Cursor) {
    a.time < b.time || (a.time == b.time && (a.series < b.series || (a.series == b.series && a.id < b.id)))
  }

  /** Whether a revision lies after the position of a cursor; no cursor is before everything. */
  predicate After(cursor: Option<Cursor>, r: Revision) {
    cursor.None? || Less(cursor.value, CursorOf(r))
  }

  function Rest(rows: set<Revision>, cursor: Option<Cursor>): set<Revision> {
    set r | r in rows && After(cursor, r)
  }

  predicate Ascending(rows: seq<Revision>) {
    forall i, j :: 0 <= i < j < |rows| ==> Less(CursorOf(rows[i]), CursorOf(rows[j]))
  }

  ghost predicate Lists(rows: seq<Revision>, set_: set<Revision>) {
    Ascending(rows) && forall r :: r in rows <==> r in set_
  }

  lemma {:induction false} FirstExists(rows: set<Revision>)
    requires rows != {} && IdsUnique(rows)
    ensures exists m :: m in rows && forall r :: r in rows && r != m ==> Less(CursorOf(m), CursorOf(r))
  {
    var some :| some in rows;
    var rest := rows - {some};
    if rest == {} {
      assert rows == {some};
    } else {
      FirstExists(rest);
      var m :| m in rest && forall r :: r in rest && r != m ==> Less(CursorOf(m), CursorOf(r));
      var first := if Less(CursorOf(some), CursorOf(m)) then some else m;
      forall r | r in rows && r != first ensures Less(CursorOf(first), CursorOf(r)) {
        assert r == some || r in rest;
      }
    }
  }

  /** ORDER BY observation_time, series_id, id. */
  ghost function Sorted(rows: set<Revision>): (s: seq<Revision>)
    requires IdsUnique(rows)
    ensures Lists(s, rows) && |s| == |rows|
  {
    if rows == {} then []
    else
      FirstExists(rows);
      var m :| m in rows && forall r :: r in rows && r != m ==> Less(CursorOf(m), CursorOf(r));
      var tail := Sorted(rows - {m});
      assert forall i :: 0 <= i < |tail| ==> tail[i] in rows - {m};
      [m] + tail
  }

  /** A set has only one ascending listing. */
  lemma {:induction false} ListingUnique(a: seq<Revision>, b: seq<Revision>, rows: set<Revision>)
    requires Lists(a, rows) && Lists(b, rows)
    ensures a == b
    decreases |a|
  {
    NonemptyListing(a, rows);
    NonemptyListing(b, rows);
    if a != [] {
      HeadsAgree(a, b, rows);
      TailLists(a, rows);
      TailLists(b, rows);
      ListingUnique(a[1..], b[1..], rows - {a[0]});
    }
  }

  lemma NonemptyListing(a: seq<Revision>, rows: set<Revision>)
    requires Lists(a, rows)
    ensures a != [] <==> rows != {}
  {
    if a != [] { assert a[0] in rows; }
  }

  lemma HeadsAgree(a: seq<Revision>, b: seq<Revision>, rows: set<Revision>)
    requires Lists(a, rows) && Lists(b, rows) && a != [] && b != []
    ensures a[0] == b[0]
  {
    assert a[0] in rows && b[0] in rows;
    var i :| 0 <= i < |b| && b[i] == a[0];
    var j :| 0 <= j < |a| && a[j] == b[0];
  }

  lemma TailLists(a: seq<Revision>, rows: set<Revision>)
    requires Lists(a, rows) && a != []
    ensures Lists(a[1..], rows - {a[0]})
  {
    forall r ensures r in a[1..] <==> r in rows - {a[0]} {
      if r in rows && r != a[0] {
        var i :| 0 <= i < |a| && a[i] == r;
        assert a[1..][i - 1] == r;
      }
    }
  }

  lemma SubsetUnique(rows: set<Revision>, cursor: Option<Cursor>)
    requires IdsUnique(rows)
    ensures IdsUnique(Rest(rows, cursor))
  {
  }

  lemma AfterIsSuffix(s: seq<Revision>, j: nat, k: nat, r: Revision)
    requires Ascending(s) && k == j + 1 <= |s|
    ensures r in s[k..] <==> r in s && Less(CursorOf(s[j]), CursorOf(r))
  {
    if r in s[k..] {
      var i :| k <= i < |s| && s[i] == r;
    }
    if r in s && Less(CursorOf(s[j]), CursorOf(r)) {
      var i :| 0 <= i < |s| && s[i] == r;
      assert j < i;
      assert s[k..][i - k] == r;
    }
  }

  /** What follows a row of the listing is what lies after its cursor. */
  lemma RestOfListing(rows: set<Revision>, s: seq<Revision>, j: nat, k: nat)
    requires IdsUnique(rows) && s == Sorted(rows) && k == j + 1 <= |s|
    ensures IdsUnique(Rest(rows, Some(CursorOf(s[j]))))
    ensures Sorted(Rest(rows, Some(CursorOf(s[j])))) == s[k..]
  {
    var rest := Rest(rows, Some(CursorOf(s[j])));
    SubsetUnique(rows, Some(CursorOf(s[j])));
    forall r ensures r in s[k..] <==> r in rest {
      AfterIsSuffix(s, j, k, r);
    }
    ListingUnique(Sorted(rest), s[k..], rest);
  }

  // ----- Pages

  /** One request: limit + 1 rows are read, and the extra one only tells whether there are more. */
  ghost function Fetch(table: set<Revision>, q: Query, cursor: Option<Cursor>, limit: nat): (page: Page)
    requires IdsUnique(table) && 1 <= limit
  {
    var rows := Sorted(Rest(Selected(table, q), cursor));
    var read := if |rows| > limit + 1 then rows[..limit + 1] else rows;
    BuildPage(read, limit)
  }

  function BuildPage(read: seq<Revision>, limit: nat): Page
    requires 1 <= limit
  {
    if |read| > limit
    then Page(read[..limit], true, Some(CursorOf(read[limit - 1])))
    else Page(read, false, None)
  }

  /** A server that answers a request from its cursor. */
  type Server = Option<Cursor> -> Page

  ghost function ServerOn(table: set<Revision>, q: Query, limit: nat): Server
    requires IdsUnique(table) && 1 <= limit
  {
    cursor => Fetch(table, q, cursor, limit)
  }

  /** What a client that follows cursors is sent, and in how many requests; each may meet another table. */
  function Collect(servers: seq<Server>, cursor: Option<Cursor>): (seq<Revision>, nat) {
    if servers == [] then ([], 0)
    else
      var page := servers[0](cursor);
      if page.hasMore
      then var rest := Collect(servers[1..], page.next); (page.items + rest.0, 1 + rest.1)
      else (page.items, 1)
  }

  /** Pages needed for n rows. */
  function PagesFor(n: nat, limit: nat): (pages: nat)
    requires 1 <= limit
    ensures 1 <= pages
  {
    if n <= limit then 1 else 1 + PagesFor(n - limit, limit)
  }

  /** One page for no rows, otherwise the quotient rounded up. */
  ghost predicate IsCeiling(n: nat, limit: nat, pages: int) {
    if n == 0 then pages == 1 else (pages - 1) * limit < n <= pages * limit
  }

  lemma {:induction false} PagesForIsCeiling(n: nat, limit: nat)
    requires 1 <= limit
    ensures IsCeiling(n, limit, PagesFor(n, limit))
  {
    if n > limit {
      PagesForIsCeiling(n - limit, limit);
      var p := PagesFor(n - limit, limit);
      assert (p - 1) * limit + limit == p * limit && p * limit + limit == (p + 1) * limit;
    }
  }

  /** The cursor behind the first k rows of a listing. */
  function PositionOf(listed: seq<Revision>, k: nat): Option<Cursor>
    requires k <= |listed|
  {
    if k == 0 then None else Some(CursorOf(listed[k - 1]))
  }

  /** A server that, at any position of a listing, sends the page that follows. */
  ghost predicate Serves(server: Server, listed: seq<Revision>, limit: nat)
    requires 1 <= limit
  {
    forall k :: 0 <= k <= |listed| ==> server(PositionOf(listed, k)) == BuildPage(listed[k..], limit)
  }

  lemma PageAt(listed: seq<Revision>, k: nat, m: nat, limit: nat)
    requires 1 <= limit && m == k + limit && k <= |listed|
    ensures var page := BuildPage(listed[k..], limit);
            if m < |listed| then page == Page(listed[k..m], true, PositionOf(listed, m))
            else page == Page(listed[k..], false, None)
  {
    if m < |listed| { assert listed[k..][..limit] == listed[k..m]; }
  }

  lemma {:induction false} CollectsRest(servers: seq<Server>, listed: seq<Revision>, k: nat, limit: nat)
    requires 1 <= limit && k <= |listed| && |servers| >= PagesFor(|listed| - k, limit)
    requires forall i :: 0 <= i < |servers| ==> Serves(servers[i], listed, limit)
    ensures Collect(servers, PositionOf(listed, k)) == (listed[k..], PagesFor(|listed| - k, limit))
    decreases |servers|
  {
    var m := k + limit;
    PageAt(listed, k, m, limit);
    assert Serves(servers[0], listed, limit);
    if m < |listed| {
      CollectsRest(servers[1..], listed, m, limit);
      assert listed[k..m] + listed[m..] == listed[k..];
    }
  }

  lemma FetchIsPage(table: set<Revision>, q: Query, cursor: Option<Cursor>, limit: nat, rest: seq<Revision>)
    requires IdsUnique(table) && 1 <= limit && rest == Sorted(Rest(Selected(table, q), cursor))
    ensures Fetch(table, q, cursor, limit) == BuildPage(rest, limit)
  {
    if |rest| > limit + 1 { assert rest[..limit + 1][..limit] == rest[..limit]; }
  }

  lemma ServesListing(table: set<Revision>, q: Query, limit: nat, k: nat)
    requires IdsUnique(table) && 1 <= limit && k <= |Sorted(Selected(table, q))|
    ensures var listed := Sorted(Selected(table, q));
            Fetch(table, q, PositionOf(listed, k), limit) == BuildPage(listed[k..], limit)
  {
    var rows := Selected(table, q);
    var listed := Sorted(rows);
    if k == 0 {
      assert Rest(rows, None) == rows && listed[0..] == listed;
    } else {
      RestOfListing(rows, listed, k - 1, k);
    }
    FetchIsPage(table, q, PositionOf(listed, k), limit, listed[k..]);
  }

  /** Each table extends the first with revisions that became known after the as-of time. */
  ghost predicate Appends(tables: seq<set<Revision>>, q: Query) {
    && (forall i :: 0 <= i < |tables| ==> IdsUnique(tables[i]))
    && forall i :: 0 < i < |tables| ==>
         tables[0] <= tables[i] && forall r :: r in tables[i] && r !in tables[0] ==> r.knownAt > q.asOf
  }

  lemma EveryTableServes(tables: seq<set<Revision>>, q: Query, limit: nat, i: nat)
    requires 1 <= limit && Appends(tables, q) && i < |tables|
    ensures Serves(ServerOn(tables[i], q, limit), Sorted(Selected(tables[0], q)), limit)
  {
    if i > 0 { LaterRowsChangeNothing(tables[0], tables[i], q); }
    var listed := Sorted(Selected(tables[i], q));
    forall k | 0 <= k <= |listed|
      ensures ServerOn(tables[i], q, limit)(PositionOf(listed, k)) == BuildPage(listed[k..], limit)
    {
      ServesListing(tables[i], q, limit, k);
    }
  }

  lemma CollectsAll(servers: seq<Server>, listed: seq<Revision>, limit: nat)
    requires 1 <= limit && |servers| >= PagesFor(|listed|, limit)
    requires forall i :: 0 <= i < |servers| ==> Serves(servers[i], listed, limit)
    ensures var got := Collect(servers, None);
            got.0 == listed && IsCeiling(|listed|, limit, got.1)
  {
    CollectsRest(servers, listed, 0, limit);
    PagesForIsCeiling(|listed|, limit);
  }

  // ----- What a query is answered with

  /** This revision was known last of the two; of two known at once it has the higher id. */
  ghost predicate KnownLast(s: Revision, r: Revision) {
    s.series == r.series && s.time == r.time && (s.knownAt > r.knownAt || (s.knownAt == r.knownAt && s.id >= r.id))
  }

  /**
   * An answer: revisions of the table that were asked for, in order of time and series with one for each of them,
   * and for every revision of the table that was asked for the one of its series and time that was known last.
   */
  ghost predicate Answers(rows: seq<Revision>, table: set<Revision>, q: Query) {
    && (forall i :: 0 <= i < |rows| ==> rows[i] in table && AskedFor(rows[i], q))
    && (forall i, j :: 0 <= i < j < |rows| ==>
          rows[i].time < rows[j].time || (rows[i].time == rows[j].time && rows[i].series < rows[j].series))
    && (forall r :: r in table && AskedFor(r, q) ==> exists s :: s in rows && KnownLast(s, r))
  }

  lemma SelectedOnce(table: set<Revision>, q: Query, a: Revision, b: Revision)
    requires IdsUnique(table) && a in Selected(table, q) && b in Selected(table, q) && SameObservation(a, b)
    ensures a == b
  {
    var s := SelectsLastKnown(table, q, a);
  }

  lemma LastKnownSelected(table: set<Revision>, q: Query, r: Revision) returns (s: Revision)
    requires IdsUnique(table) && r in table && AskedFor(r, q)
    ensures s in Selected(table, q) && KnownLast(s, r)
  {
    s := SelectsLastKnown(table, q, r);
    assert !Outranks(r, s);
  }

  lemma ListingAnswers(table: set<Revision>, q: Query, rows: seq<Revision>)
    requires IdsUnique(table) && Lists(rows, Selected(table, q))
    ensures Answers(rows, table, q)
  {
    forall i | 0 <= i < |rows| ensures rows[i] in Selected(table, q) { assert rows[i] in rows; }
    forall i, j | 0 <= i < j < |rows|
      ensures rows[i].time < rows[j].time || (rows[i].time == rows[j].time && rows[i].series < rows[j].series)
    {
      assert Less(CursorOf(rows[i]), CursorOf(rows[j]));
      if SameObservation(rows[i], rows[j]) { SelectedOnce(table, q, rows[i], rows[j]); }
    }
    forall r | r in table && AskedFor(r, q) ensures exists s :: s in rows && KnownLast(s, r) {
      var s := LastKnownSelected(table, q, r);
      assert s in rows;
    }
  }

  /**
   * Following cursors at a fixed as-of time returns every selected revision exactly once and in order, in
   * max(1, ceil(n / limit)) requests, whatever revisions become known meanwhile.
   */
  lemma PagingIsExact(tables: seq<set<Revision>>, q: Query, limit: nat, servers: seq<Server>)
    requires 1 <= limit && Appends(tables, q) && |servers| == |tables| >= 1
    requires forall i :: 0 <= i < |tables| ==> servers[i] == ServerOn(tables[i], q, limit)
    requires |tables| >= PagesFor(|Selected(tables[0], q)|, limit)
    ensures var rows := Selected(tables[0], q);
            var got := Collect(servers, None);
            && Lists(got.0, rows) && |got.0| == |rows| && Answers(got.0, tables[0], q)
            && (rows == {} ==> got.1 == 1)
            && (rows != {} ==> (got.1 - 1) * limit < |rows| <= got.1 * limit)
  {
    var listed := Sorted(Selected(tables[0], q));
    forall i | 0 <= i < |servers| ensures Serves(servers[i], listed, limit) {
      EveryTableServes(tables, q, limit, i);
    }
    CollectsAll(servers, listed, limit);
    NonemptyListing(listed, Selected(tables[0], q));
    ListingAnswers(tables[0], q, listed);
  }

  // ----- The single-series query

  /** Its cursor is compared on (observation_time, id) only. */
  predicate AfterInSeries(cursor: Option<Cursor>, r: Revision) {
    cursor.None? || cursor.value.time < r.time || (cursor.value.time == r.time && cursor.value.id < r.id)
  }

  /** Within one series the shorter comparison skips and repeats nothing: it is the same filter and order. */
  lemma SingleSeriesIsCombined(rows: set<Revision>, series: nat, cursor: Option<Cursor>)
    requires forall r :: r in rows ==> r.series == series
    requires cursor.Some? ==> cursor.value.series == series
    ensures (set r | r in rows && AfterInSeries(cursor, r)) == Rest(rows, cursor)
    ensures forall a, b :: a in rows && b in rows ==>
              (Less(CursorOf(a), CursorOf(b)) <==> AfterInSeries(Some(CursorOf(a)), b))
  {
  }
}
