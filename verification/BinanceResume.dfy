/** The paged backfill of daily candles: what is stored, and where it resumes. Times are in milliseconds. */
module BinanceResume {
  import opened Results
  import opened IngestionRuns

  const DAY := 86400000

  datatype Candle = Candle(open: int, close: int)

  /** The candles a window will ever hold, oldest first: at most one a day, each closing as its day ends. */
  ghost predicate Daily(cs: seq<Candle>) {
    && (forall i :: 0 <= i < |cs| ==> cs[i].close == cs[i].open + DAY - 1)
    && (forall i, j :: 0 <= i < j < |cs| ==> cs[i].open + DAY <= cs[j].open)
  }

  /** How many candles open before a time. */
  function Rank(cs: seq<Candle>, t: int): (r: nat)
    ensures r <= |cs|
    ensures forall i :: r <= i < |cs| ==> cs[i].open >= t
    ensures r > 0 ==> cs[r - 1].open < t
  {
    if cs == [] then 0
    else
      var n := |cs| - 1;
      if cs[n].open < t then |cs| else Rank(cs[..n], t)
  }

  lemma RankBefore(cs: seq<Candle>, t: int, i: nat)
    requires Daily(cs) && i < |cs|
    ensures i < Rank(cs, t) <==> cs[i].open < t
  {
  }

  /** The first limit candles that are listed at a time and open in [start, end]. */
  function FetchPage(cs: seq<Candle>, start: int, end: Option<int>, limit: nat, now: int): (page: seq<Candle>)
    ensures |page| <= limit
  {
    var lo, hi := Rank(cs, start), Listed(cs, end, now);
    if hi <= lo then [] else cs[lo..if lo + limit < hi then lo + limit else hi]
  }

  function Listed(cs: seq<Candle>, end: Option<int>, now: int): (r: nat)
    ensures r <= |cs|
  {
    Rank(cs, if end.Some? && end.value < now then end.value + 1 else now + 1)
  }

  function Closed(page: seq<Candle>, at: int): (r: seq<Candle>)
    ensures forall c :: c in r <==> c in page && c.close < at
    ensures |r| <= |page|
  {
    if page == [] then []
    else
      var rest := Closed(page[..|page| - 1], at);
      if page[|page| - 1].close < at then rest + [page[|page| - 1]] else rest
  }

  function Members(page: seq<Candle>): set<Candle> {
    set c | c in page
  }

  datatype Checkpoint = Checkpoint(next: int, pages: nat, candles: nat, completed: bool)

  /** The first candle of a page that is still open. */
  function FirstOpen(page: seq<Candle>, at: int): Option<Candle> {
    if page == [] then None else if page[0].close >= at then Some(page[0]) else FirstOpen(page[1..], at)
  }

  /** Where the next page starts and whether the backfill is done. */
  function Advance(c: Checkpoint, page: seq<Candle>, limit: nat, cutoff: int): Checkpoint {
    var eligible := Closed(page, cutoff);
    var counted := c.(pages := c.pages + 1, candles := c.candles + |eligible|);
    if eligible == [] then
      if page == [] then counted else counted.(next := page[0].open)
    else if |eligible| < |page| && FirstOpen(page, cutoff).Some? then
      counted.(next := FirstOpen(page, cutoff).value.open, completed := false)
    else
      counted.(next := eligible[|eligible| - 1].open + DAY, completed := c.completed || |page| < limit)
  }

  lemma {:induction false} SomeOpen(page: seq<Candle>, at: int)
    requires |Closed(page, at)| < |page|
    ensures FirstOpen(page, at).Some?
    ensures exists k :: 0 <= k < |page| && page[k].close >= at
  {
    var n := |page| - 1;
    if |Closed(page[..n], at)| < n {
      SomeOpen(page[..n], at);
      var k :| 0 <= k < |page[..n]| && page[..n][k].close >= at;
      OpenFound(page, at, k);
    } else {
      assert page[n].close >= at;
      OpenFound(page, at, n);
    }
  }

  lemma {:induction false} OpenFound(page: seq<Candle>, at: int, k: nat)
    requires k < |page| && page[k].close >= at
    ensures FirstOpen(page, at).Some?
  {
    if page[0].close < at { OpenFound(page[1..], at, k - 1); }
  }

  method CollectClosed(page: seq<Candle>, at: int) returns (eligible: seq<Candle>)
    ensures eligible == Closed(page, at)
  {
    eligible := [];
    for i := 0 to |page|
      invariant eligible == Closed(page[..i], at)
    {
      assert page[..i + 1][..i] == page[..i];
      if page[i].close < at {
        eligible := eligible + [page[i]];
      }
    }
    assert page[..|page|] == page;
  }

  method FindOpen(page: seq<Candle>, at: int) returns (first: Candle)
    requires FirstOpen(page, at).Some?
    ensures Some(first) == FirstOpen(page, at)
  {
    var i := 0;
    while page[i].close < at
      invariant i < |page| && FirstOpen(page[i..], at) == FirstOpen(page, at)
      decreases |page| - i
    {
      assert page[i..][1..] == page[i + 1..];
      i := i + 1;
    }
    first := page[i];
  }

  /** The advance as the code computes it, in two passes over the page. */
  method AdvanceComplete(c: Checkpoint, page: seq<Candle>, limit: nat, cutoff: int) returns (r: Checkpoint)
    ensures r == Advance(c, page, limit, cutoff)
  {
    var eligible := CollectClosed(page, cutoff);
    r := c.(pages := c.pages + 1, candles := c.candles + |eligible|);
    if eligible == [] {
      if |page| > 0 {
        r := r.(next := page[0].open);
      }
      return;
    }
    if |eligible| < |page| {
      SomeOpen(page, cutoff);
      var first := FindOpen(page, cutoff);
      r := r.(next := first.open, completed := false);
    } else {
      r := r.(next := eligible[|eligible| - 1].open + DAY, completed := r.completed || |page| < limit);
    }
  }

  // ----- Pages by position

  lemma {:induction false} ClosedPrefix(page: seq<Candle>, at: int, m: nat)
    requires m <= |page|
    requires forall i :: 0 <= i < m ==> page[i].close < at
    requires forall i :: m <= i < |page| ==> page[i].close >= at
    ensures Closed(page, at) == page[..m]
  {
    if page != [] {
      var n := |page| - 1;
      if m == |page| {
        ClosedPrefix(page[..n], at, n);
        assert page[..n][..n] + [page[n]] == page[..m];
      } else {
        ClosedPrefix(page[..n], at, m);
        assert page[..n][..m] == page[..m];
      }
    }
  }

  lemma {:induction false} FirstOpenAt(page: seq<Candle>, at: int, m: nat)
    requires m < |page| && page[m].close >= at && forall i :: 0 <= i < m ==> page[i].close < at
    ensures FirstOpen(page, at) == Some(page[m])
  {
    if m > 0 { FirstOpenAt(page[1..], at, m - 1); }
  }

  lemma ClosedByRank(cs: seq<Candle>, at: int, t: int, i: nat)
    requires Daily(cs) && i < |cs| && t == at - DAY + 1
    ensures i < Rank(cs, t) <==> cs[i].close < at
  {
    RankBefore(cs, t, i);
  }

  /** The closed candles of a stretch of candles are its first ones: those whose day ended before. */
  lemma ClosedStretch(cs: seq<Candle>, lo: nat, hi: nat, at: int) returns (m: nat)
    requires Daily(cs) && lo <= hi <= |cs|
    ensures lo <= m <= hi && Closed(cs[lo..hi], at) == cs[lo..m]
    ensures m < hi ==> FirstOpen(cs[lo..hi], at) == Some(cs[m])
    ensures forall i :: lo <= i < hi ==> (i < m <==> cs[i].close < at)
  {
    var t := at - DAY + 1;
    var day := Rank(cs, t);
    m := if day < lo then lo else if day > hi then hi else day;
    forall i | lo <= i < hi ensures (i < m <==> cs[i].close < at) { ClosedByRank(cs, at, t, i); }
    StretchSplits(cs, lo, hi, at, m);
  }

  lemma StretchCloses(cs: seq<Candle>, lo: nat, hi: nat, at: int, m: nat, n: nat)
    requires lo <= m <= hi <= |cs| && n == m - lo && forall i :: lo <= i < hi ==> (i < m <==> cs[i].close < at)
    ensures forall i :: 0 <= i < n ==> cs[lo..hi][i].close < at
    ensures forall i :: n <= i < hi - lo ==> cs[lo..hi][i].close >= at
    ensures cs[lo..hi][..n] == cs[lo..m] && (m < hi ==> cs[lo..hi][n] == cs[m])
  {
  }

  lemma StretchSplits(cs: seq<Candle>, lo: nat, hi: nat, at: int, m: nat)
    requires lo <= m <= hi <= |cs| && forall i :: lo <= i < hi ==> (i < m <==> cs[i].close < at)
    ensures Closed(cs[lo..hi], at) == cs[lo..m]
    ensures m < hi ==> FirstOpen(cs[lo..hi], at) == Some(cs[m])
  {
    var n := m - lo;
    StretchCloses(cs, lo, hi, at, m, n);
    ClosedPrefix(cs[lo..hi], at, n);
    if m < hi { FirstOpenAt(cs[lo..hi], at, n); }
  }

  // ----- The backfill

  /** The candles of a page were fetched, normalised and advanced over at these times. */
  datatype Event = Event(fetched: int, normalised: int, cutoff: int)

  datatype Window = Window(candles: seq<Candle>, start: int, end: Option<int>, limit: nat) {
    ghost predicate Valid() {
      Daily(candles) && 1 <= limit
    }

    /** The candles from the start of the window up to a time. */
    ghost function Until(t: int): set<Candle> {
      set i | 0 <= i < |candles| && start <= candles[i].open < t :: candles[i]
    }
  }

  datatype Progress = Progress(stored: set<Candle>, checkpoint: Checkpoint)

  function Begin(w: Window): Progress {
    Progress({}, Checkpoint(w.start, 0, 0, false))
  }

  function PageAt(w: Window, p: Progress, e: Event): seq<Candle> {
    FetchPage(w.candles, p.checkpoint.next, w.end, w.limit, e.fetched)
  }

  /** One page: its normalised candles and the advanced checkpoint are committed together. */
  function Next(w: Window, p: Progress, e: Event): Progress {
    if p.checkpoint.completed then p
    else
      var page := PageAt(w, p, e);
      Progress(p.stored + Members(Closed(page, e.normalised)), Advance(p.checkpoint, page, w.limit, e.cutoff))
  }

  /** Pages one after the other, from wherever a backfill stands. */
  function ExecuteFrom(w: Window, p: Progress, events: seq<Event>): Progress {
    if events == [] then p else Next(w, ExecuteFrom(w, p, events[..|events| - 1]), events[|events| - 1])
  }

  function Execute(w: Window, events: seq<Event>): Progress {
    ExecuteFrom(w, Begin(w), events)
  }

  lemma ExecuteSnoc(w: Window, p: Progress, events: seq<Event>, e: Event)
    ensures ExecuteFrom(w, p, events + [e]) == Next(w, ExecuteFrom(w, p, events), e)
  {
    assert (events + [e])[..|events|] == events;
  }

  lemma ExecuteStep(w: Window, events: seq<Event>, k: nat, j: nat)
    requires j == k + 1 <= |events|
    ensures Execute(w, events[..j]) == Next(w, Execute(w, events[..k]), events[k])
  {
    assert events[..j][..k] == events[..k];
  }

  /** Nothing is skipped and nothing stored early: the stored candles are those from start up to the checkpoint. */
  ghost predicate Exact(w: Window, p: Progress) {
    p.stored == w.Until(p.checkpoint.next) && w.start <= p.checkpoint.next
  }

  /** The two readings of the clock see every candle of the page alike. */
  ghost predicate Alike(page: seq<Candle>, e: Event) {
    forall i :: 0 <= i < |page| ==> (page[i].close < e.normalised <==> page[i].close < e.cutoff)
  }

  /** Where a page that starts at lo ends, when so many candles are listed. */
  function SpanEnd(lo: nat, listed: nat, limit: nat): nat {
    if listed <= lo then lo else if lo + limit < listed then lo + limit else listed
  }

  lemma FetchSpan(cs: seq<Candle>, start: int, end: Option<int>, limit: nat, now: int) returns (lo: nat, hi: nat)
    requires 1 <= limit
    ensures lo == Rank(cs, start) && lo <= hi <= |cs| && FetchPage(cs, start, end, limit, now) == cs[lo..hi]
    ensures hi == SpanEnd(lo, Listed(cs, end, now), limit)
  {
    lo := Rank(cs, start);
    hi := lo + |FetchPage(cs, start, end, limit, now)|;
  }

  lemma AdvanceTarget(cs: seq<Candle>, c: Checkpoint, limit: nat, cutoff: int, lo: nat, m: nat, hi: nat)
    requires lo <= m <= hi <= |cs|
    requires Closed(cs[lo..hi], cutoff) == cs[lo..m]
    requires m < hi ==> FirstOpen(cs[lo..hi], cutoff) == Some(cs[m])
    ensures var next := Advance(c, cs[lo..hi], limit, cutoff);
            && (if lo == hi then next.next == c.next
                else if m < hi then next.next == cs[m].open
                else next.next == cs[m - 1].open + DAY)
            && (!c.completed ==> (next.completed <==> lo < m == hi < lo + limit))
  {
    if lo < m { assert cs[lo..m][m - lo - 1] == cs[m - 1]; }
  }

  /** The three places a checkpoint may move to, and how many candles open before each. */
  lemma NextRank(cs: seq<Candle>, c: Checkpoint, t: int, lo: nat, m: nat, hi: nat)
    requires Daily(cs) && lo == Rank(cs, c.next) && lo <= m <= hi <= |cs|
    requires if lo == hi then t == c.next
             else if m < hi then t == cs[m].open
             else t == cs[m - 1].open + DAY
    ensures Rank(cs, t) == m && c.next <= t
  {
    if lo < hi {
      RankBefore(cs, c.next, lo);
      if m < |cs| { RankBefore(cs, t, m); }
      if m > 0 { RankBefore(cs, t, m - 1); }
    }
  }

  /** Where a page lies, and how much of it is closed. */
  lemma PageSpan(w: Window, c: Checkpoint, e: Event) returns (lo: nat, m: nat, hi: nat)
    requires w.Valid()
    ensures lo == Rank(w.candles, c.next) && lo <= m <= hi <= |w.candles|
    ensures FetchPage(w.candles, c.next, w.end, w.limit, e.fetched) == w.candles[lo..hi]
    ensures Closed(w.candles[lo..hi], e.cutoff) == w.candles[lo..m]
    ensures m < hi ==> FirstOpen(w.candles[lo..hi], e.cutoff) == Some(w.candles[m])
    ensures hi == SpanEnd(lo, Listed(w.candles, w.end, e.fetched), w.limit)
    ensures forall i :: lo <= i < hi ==> (i < m <==> w.candles[i].close < e.cutoff)
  {
    lo, hi := FetchSpan(w.candles, c.next, w.end, w.limit, e.fetched);
    m := ClosedStretch(w.candles, lo, hi, e.cutoff);
  }

  /** Where the checkpoint moves. */
  lemma PageTarget(cs: seq<Candle>, c: Checkpoint, limit: nat, cutoff: int, lo: nat, m: nat, hi: nat)
    requires Daily(cs) && lo == Rank(cs, c.next) && lo <= m <= hi <= |cs| && Closed(cs[lo..hi], cutoff) == cs[lo..m]
    requires m < hi ==> FirstOpen(cs[lo..hi], cutoff) == Some(cs[m])
    ensures var next := Advance(c, cs[lo..hi], limit, cutoff);
            && Rank(cs, next.next) == m && c.next <= next.next && next.pages == c.pages + 1
            && (!c.completed ==> (next.completed <==> lo < m == hi < lo + limit))
  {
    AdvanceTarget(cs, c, limit, cutoff, lo, m, hi);
    NextRank(cs, c, Advance(c, cs[lo..hi], limit, cutoff).next, lo, m, hi);
  }

  /** Where a page lies, how much of it is closed, and where the checkpoint moves. */
  lemma PageMoves(w: Window, c: Checkpoint, e: Event) returns (lo: nat, m: nat, hi: nat)
    requires w.Valid()
    ensures lo == Rank(w.candles, c.next) && lo <= m <= hi <= |w.candles|
    ensures FetchPage(w.candles, c.next, w.end, w.limit, e.fetched) == w.candles[lo..hi]
    ensures Closed(w.candles[lo..hi], e.cutoff) == w.candles[lo..m]
    ensures hi == SpanEnd(lo, Listed(w.candles, w.end, e.fetched), w.limit)
    ensures forall i :: lo <= i < hi ==> (i < m <==> w.candles[i].close < e.cutoff)
    ensures var next := Advance(c, w.candles[lo..hi], w.limit, e.cutoff);
            && Rank(w.candles, next.next) == m && c.next <= next.next && next.pages == c.pages + 1
            && (!c.completed ==> (next.completed <==> lo < m == hi < lo + w.limit))
  {
    lo, m, hi := PageSpan(w, c, e);
    PageTarget(w.candles, c, w.limit, e.cutoff, lo, m, hi);
  }

  ghost function Slice(cs: seq<Candle>, lo: nat, hi: nat): set<Candle>
    requires lo <= hi <= |cs|
  {
    set i | lo <= i < hi :: cs[i]
  }

  lemma UntilGrows(w: Window, from: int, to: int, lo: nat, m: nat)
    requires w.Valid() && w.start <= from <= to && lo == Rank(w.candles, from) && lo <= m == Rank(w.candles, to)
    ensures w.Until(to) == w.Until(from) + Slice(w.candles, lo, m)
    ensures w.Until(from) !! Slice(w.candles, lo, m)
  {
    forall i | 0 <= i < |w.candles|
      ensures (i < lo <==> w.candles[i].open < from) && (i < m <==> w.candles[i].open < to)
    {
      RankBefore(w.candles, from, i);
      RankBefore(w.candles, to, i);
    }
  }

  /** From an exact state a page leads to an exact one just when both readings of the clock agree on its candles. */
  lemma ExactExactly(w: Window, p: Progress, e: Event)
    requires w.Valid() && Exact(w, p) && !p.checkpoint.completed && e.normalised <= e.cutoff
    ensures Exact(w, Next(w, p, e)) <==> Alike(PageAt(w, p, e), e)
  {
    var lo, m, hi := PageMoves(w, p.checkpoint, e);
    var page, next := w.candles[lo..hi], Next(w, p, e);
    UntilGrows(w, p.checkpoint.next, next.checkpoint.next, lo, m);
    AlikeBySets(page, e);
    assert Members(Closed(page, e.cutoff)) == Slice(w.candles, lo, m) by { SliceIs(w.candles, lo, m); }
    DisjointUnion(p.stored, Members(Closed(page, e.normalised)), Slice(w.candles, lo, m));
  }

  lemma SliceIs(cs: seq<Candle>, lo: nat, hi: nat)
    requires lo <= hi <= |cs|
    ensures Members(cs[lo..hi]) == Slice(cs, lo, hi)
  {
  }

  /** Both clocks agree exactly when they let the same candles through. */
  lemma AlikeBySets(page: seq<Candle>, e: Event)
    requires e.normalised <= e.cutoff
    ensures Alike(page, e) <==> Members(Closed(page, e.normalised)) == Members(Closed(page, e.cutoff))
    ensures Members(Closed(page, e.normalised)) <= Members(Closed(page, e.cutoff))
  {
    var early, late := Members(Closed(page, e.normalised)), Members(Closed(page, e.cutoff));
    forall i | 0 <= i < |page|
      ensures (page[i] in early <==> page[i].close < e.normalised) && (page[i] in late <==> page[i].close < e.cutoff)
    {}
    forall c | c in late ensures exists i :: 0 <= i < |page| && page[i] == c {}
  }

  lemma DisjointUnion(a: set<Candle>, b: set<Candle>, c: set<Candle>)
    requires a !! c && b <= c
    ensures a + b == a + c <==> b == c
  {
    if a + b == a + c {
      forall x | x in c ensures x in b { assert x in a + c; }
    }
  }

  // ----- Whole backfills

  /** Every page read before completion was seen alike by both readings of the clock. */
  ghost predicate Careful(w: Window, events: seq<Event>) {
    events != [] ==>
      var n := |events| - 1;
      Careful(w, events[..n]) && CarefulOn(w, Execute(w, events[..n]), events[n])
  }

  ghost predicate CarefulOn(w: Window, p: Progress, e: Event) {
    p.checkpoint.completed || Alike(PageAt(w, p, e), e)
  }

  /** Of the two readings, the cutoff is the later one. */
  ghost predicate InTime(events: seq<Event>) {
    forall i :: 0 <= i < |events| ==> events[i].normalised <= events[i].cutoff
  }

  ghost function Complete(w: Window, now: int): set<Candle> {
    set i | 0 <= i < |w.candles| && w.start <= w.candles[i].open <= now
            && (w.end.Some? ==> w.candles[i].open <= w.end.value) :: w.candles[i]
  }

  lemma CompletedWindow(w: Window, t: int, now: int)
    requires w.Valid() && Rank(w.candles, t) == Listed(w.candles, w.end, now)
    ensures w.Until(t) == Complete(w, now)
  {
    var bound := if w.end.Some? && w.end.value < now then w.end.value + 1 else now + 1;
    forall i | 0 <= i < |w.candles| ensures (w.candles[i].open < t <==> w.candles[i].open < bound) {
      RankBefore(w.candles, t, i);
      RankBefore(w.candles, bound, i);
    }
  }

  lemma {:induction false} CarefulIsExact(w: Window, events: seq<Event>)
    requires w.Valid() && InTime(events) && Careful(w, events)
    ensures Exact(w, Execute(w, events))
  {
    if events == [] {
      assert w.Until(w.start) == {};
    } else {
      var n := |events| - 1;
      CarefulIsExact(w, events[..n]);
      var p := Execute(w, events[..n]);
      if !p.checkpoint.completed { ExactAndComplete(w, p, events[n]); }
    }
  }

  /** Everything the window held when the page was read that completed the backfill. */
  ghost predicate HoldsWindow(w: Window, p: Progress, events: seq<Event>) {
    exists k :: 0 <= k < |events| && p.stored == Complete(w, events[k].fetched)
  }

  lemma CompletedNow(w: Window, events: seq<Event>, n: nat)
    requires w.Valid() && InTime(events) && |events| == n + 1 && Careful(w, events)
    requires !Execute(w, events[..n]).checkpoint.completed && Execute(w, events).checkpoint.completed
    ensures Execute(w, events).stored == Complete(w, events[n].fetched)
  {
    CarefulIsExact(w, events[..n]);
    ExactAndComplete(w, Execute(w, events[..n]), events[n]);
  }

  /** The page that completed a backfill, and what it had stored by then. */
  lemma {:induction false} CompletingPage(w: Window, events: seq<Event>) returns (k: nat)
    requires w.Valid() && InTime(events) && Careful(w, events) && Execute(w, events).checkpoint.completed
    ensures k < |events| && Execute(w, events).stored == Complete(w, events[k].fetched)
  {
    var n := |events| - 1;
    k := n;
    if Execute(w, events[..n]).checkpoint.completed {
      k := CompletingPage(w, events[..n]);
    } else {
      CompletedNow(w, events, n);
    }
  }

  /**
   * However a backfill is broken off and resumed, it has stored exactly the closed candles from its start up
   * to its checkpoint; once complete, it has stored every candle its window held when the last page was read.
   */
  lemma NoCandleSkipped(w: Window, events: seq<Event>)
    requires w.Valid() && InTime(events) && Careful(w, events)
    ensures Exact(w, Execute(w, events))
    ensures Execute(w, events).checkpoint.completed ==> HoldsWindow(w, Execute(w, events), events)
  {
    CarefulIsExact(w, events);
    if Execute(w, events).checkpoint.completed { var k := CompletingPage(w, events); }
  }

  lemma ExactAndComplete(w: Window, p: Progress, e: Event)
    requires w.Valid() && Exact(w, p) && !p.checkpoint.completed && e.normalised <= e.cutoff
    requires Alike(PageAt(w, p, e), e)
    ensures Exact(w, Next(w, p, e))
    ensures Next(w, p, e).checkpoint.completed ==> Next(w, p, e).stored == Complete(w, e.fetched)
  {
    ExactExactly(w, p, e);
    CompletesWindow(w, p, e);
  }

  /** Only closed candles are ever stored. */
  lemma {:induction false} StoredAreClosed(w: Window, events: seq<Event>, c: Candle)
    requires c in Execute(w, events).stored
    ensures exists k :: 0 <= k < |events| && c.close < events[k].normalised
  {
    var k := |events| - 1;
    if c in Execute(w, events[..k]).stored {
      StoredAreClosed(w, events[..k], c);
      var j :| 0 <= j < k && c.close < events[..k][j].normalised;
      assert events[..k][j] == events[j];
    }
  }

  /** A candle behind the checkpoint that was not stored. */
  ghost predicate Skipped(w: Window, p: Progress, k: nat) {
    && k < Rank(w.candles, p.checkpoint.next) && w.start <= p.checkpoint.next
    && w.start <= w.candles[k].open && w.candles[k] !in p.stored
  }

  lemma OffPage(cs: seq<Candle>, lo: nat, hi: nat, k: nat)
    requires Daily(cs) && k < lo <= hi <= |cs|
    ensures cs[k] !in cs[lo..hi]
  {
    forall i | 0 <= i < hi - lo ensures cs[lo..hi][i] != cs[k] { assert cs[lo..hi][i] == cs[lo + i]; }
  }

  /** A page starts at the checkpoint's rank, and the checkpoint does not move back. */
  lemma PageForward(w: Window, c: Checkpoint, e: Event) returns (lo: nat, hi: nat)
    requires w.Valid()
    ensures lo == Rank(w.candles, c.next) && lo <= hi <= |w.candles|
    ensures FetchPage(w.candles, c.next, w.end, w.limit, e.fetched) == w.candles[lo..hi]
    ensures var to := Advance(c, w.candles[lo..hi], w.limit, e.cutoff).next;
            c.next <= to && lo <= Rank(w.candles, to)
  {
    var m;
    lo, m, hi := PageMoves(w, c, e);
  }

  lemma SkippedStays(w: Window, p: Progress, e: Event, k: nat)
    requires w.Valid() && Skipped(w, p, k)
    ensures Skipped(w, Next(w, p, e), k)
  {
    if !p.checkpoint.completed {
      var lo, hi := PageForward(w, p.checkpoint, e);
      OffPage(w.candles, lo, hi, k);
      assert w.candles[k] !in Members(Closed(w.candles[lo..hi], e.normalised));
    }
  }

  lemma SkippedIsInexact(w: Window, p: Progress, k: nat)
    requires w.Valid() && Skipped(w, p, k)
    ensures !Exact(w, p)
  {
    RankBefore(w.candles, p.checkpoint.next, k);
    assert w.candles[k] in w.Until(p.checkpoint.next);
  }

  lemma Disagreement(cs: seq<Candle>, lo: nat, hi: nat, e: Event) returns (k: nat)
    requires lo <= hi <= |cs| && e.normalised <= e.cutoff && !Alike(cs[lo..hi], e)
    ensures lo <= k < hi && e.normalised <= cs[k].close < e.cutoff
  {
    var page := cs[lo..hi];
    var j :| 0 <= j < |page| && !(page[j].close < e.normalised <==> page[j].close < e.cutoff);
    k := lo + j;
    assert page[j] == cs[k];
  }

  /** A candle the readings disagree on lies behind the next checkpoint. */
  lemma DisagreementPassed(w: Window, c: Checkpoint, e: Event) returns (k: nat)
    requires w.Valid() && e.normalised <= e.cutoff && !Alike(FetchPage(w.candles, c.next, w.end, w.limit, e.fetched), e)
    ensures k < |w.candles| && c.next <= w.candles[k].open && e.normalised <= w.candles[k].close
    ensures var next := Advance(c, FetchPage(w.candles, c.next, w.end, w.limit, e.fetched), w.limit, e.cutoff).next;
            k < Rank(w.candles, next) && c.next <= next
  {
    var lo, m, hi := PageMoves(w, c, e);
    k := Disagreement(w.candles, lo, hi, e);
    RankBefore(w.candles, c.next, k);
  }

  lemma NotClosedNotStored(page: seq<Candle>, at: int, c: Candle)
    requires at <= c.close
    ensures c !in Members(Closed(page, at))
  {
  }

  /** A page on which the readings disagree skips a candle. */
  lemma CarelessSkips(w: Window, p: Progress, e: Event) returns (k: nat)
    requires w.Valid() && Exact(w, p) && !p.checkpoint.completed && e.normalised <= e.cutoff
    requires !Alike(PageAt(w, p, e), e)
    ensures Skipped(w, Next(w, p, e), k)
  {
    k := DisagreementPassed(w, p.checkpoint, e);
    assert w.candles[k] !in w.Until(p.checkpoint.next);
    NotClosedNotStored(PageAt(w, p, e), e.normalised, w.candles[k]);
  }

  ghost predicate SkippedAfter(w: Window, events: seq<Event>, k: nat) {
    Skipped(w, Execute(w, events), k)
  }

  lemma SkippedOneMore(w: Window, events: seq<Event>, before: seq<Event>, k: nat)
    requires w.Valid() && events != [] && before == events[..|events| - 1] && SkippedAfter(w, before, k)
    ensures SkippedAfter(w, events, k)
  {
    SkippedStays(w, Execute(w, before), events[|events| - 1], k);
  }

  lemma {:induction false} SkippedForGood(w: Window, events: seq<Event>, first: seq<Event>, k: nat)
    requires w.Valid() && first <= events && SkippedAfter(w, first, k)
    ensures SkippedAfter(w, events, k)
    decreases |events|
  {
    if first != events {
      var before := events[..|events| - 1];
      SkippedForGood(w, before, first, k);
      SkippedOneMore(w, events, before, k);
    }
  }

  /** The first page on which the readings disagree. */
  lemma {:induction false} FirstCareless(w: Window, events: seq<Event>) returns (i: nat)
    requires !Careful(w, events)
    ensures i < |events| && Careful(w, events[..i]) && !CarefulOn(w, Execute(w, events[..i]), events[i])
    decreases |events|
  {
    var n := |events| - 1;
    i := n;
    if !Careful(w, events[..n]) {
      i := FirstCareless(w, events[..n]);
      assert events[..n][..i] == events[..i];
    }
  }

  /** Over a whole backfill: it is exact at the end if and only if every page it read was seen alike. */
  lemma ExactAtEndExactly(w: Window, events: seq<Event>)
    requires w.Valid() && InTime(events)
    ensures Exact(w, Execute(w, events)) <==> Careful(w, events)
  {
    if Careful(w, events) {
      NoCandleSkipped(w, events);
    } else {
      var i := FirstCareless(w, events);
      var n := i + 1;
      var k := CarelessFrom(w, events, i, n);
      SkippedForGood(w, events, events[..n], k);
      SkippedIsInexact(w, Execute(w, events), k);
    }
  }

  lemma CarelessFrom(w: Window, events: seq<Event>, i: nat, n: nat) returns (k: nat)
    requires w.Valid() && InTime(events) && n == i + 1 <= |events| && Careful(w, events[..i])
    requires !CarefulOn(w, Execute(w, events[..i]), events[i])
    ensures SkippedAfter(w, events[..n], k)
  {
    CarefulIsExact(w, events[..i]);
    k := CarelessSkips(w, Execute(w, events[..i]), events[i]);
    ExecuteStep(w, events, i, n);
  }

  lemma CompletesWindow(w: Window, p: Progress, e: Event)
    requires w.Valid() && !p.checkpoint.completed && Exact(w, Next(w, p, e))
    ensures Next(w, p, e).checkpoint.completed ==> Next(w, p, e).stored == Complete(w, e.fetched)
  {
    var lo, m, hi := PageMoves(w, p.checkpoint, e);
    if Next(w, p, e).checkpoint.completed {
      CompletedWindow(w, Next(w, p, e).checkpoint.next, e.fetched);
    }
  }

  /** A candle that closes between the two readings is never stored, by this page or any later one. */
  lemma ClockRaceSkips()
    ensures var w := Window([Candle(0, DAY - 1)], 0, None, 10);
            var p := Next(w, Begin(w), Event(DAY - 1, DAY - 1, DAY));
            p.checkpoint.completed && p.stored == {} && !Exact(w, p)
  {
    var w, e := Window([Candle(0, DAY - 1)], 0, None, 10), Event(DAY - 1, DAY - 1, DAY);
    var page := PageAt(w, Begin(w), e);
    assert w.candles[..0] == [];
    assert page == w.candles;
    assert Closed(page, DAY - 1) == [] && Closed(page, DAY) == page by { assert page[..0] == []; }
    assert w.candles[0] in w.Until(Next(w, Begin(w), e).checkpoint.next);
  }

  // ----- When a backfill completes

  /** A page is read while so many candles are listed, of which the first so many have closed. */
  ghost predicate Sees(w: Window, e: Event, listed: nat, closed: nat) {
    && Listed(w.candles, w.end, e.fetched) == listed <= |w.candles|
    && forall i :: 0 <= i < listed ==> (i < closed <==> w.candles[i].close < e.cutoff)
  }

  /** From position lo a backfill can complete: every listed candle has closed, and they end inside a page. */
  predicate Completable(lo: nat, listed: nat, closed: nat, limit: nat)
    requires 1 <= limit
  {
    lo < listed <= closed && (listed - lo) % limit != 0
  }

  /** The number of pages it then takes. */
  function PagesTaken(lo: nat, listed: nat, limit: nat): int
    requires 1 <= limit
  {
    (listed - lo) / limit + 1
  }

  lemma OnePageLess(r: nat, limit: nat)
    requires 1 <= limit <= r
    ensures (r - limit) % limit == r % limit && (r - limit) / limit == r / limit - 1
  {
    var q := r / limit;
    assert r == q * limit + r % limit;
    assert r - limit == (q - 1) * limit + r % limit;
    QuotientUnique(r - limit, limit, q - 1, r % limit);
  }

  lemma MultipleOutside(d: int, l: int)
    requires 1 <= l
    ensures d >= 1 ==> d * l >= l
    ensures d <= -1 ==> d * l <= -l
  {
  }

  lemma QuotientUnique(n: int, l: int, q: int, r: int)
    requires 1 <= l && n == q * l + r && 0 <= r < l
    ensures n / l == q && n % l == r
  {
    var d := n / l - q;
    assert n == (n / l) * l + n % l;
    assert d * l == r - n % l;
    MultipleOutside(d, l);
  }

  lemma ShortPage(r: nat, limit: nat)
    requires 1 <= limit && r < limit
    ensures r % limit == r && r / limit == 0
  {
  }

  /** The arithmetic of one page from lo to hi, of which the candles before m have closed. */
  lemma PageArithmetic(lo: nat, m: nat, hi: nat, listed: nat, closed: nat, limit: nat)
    requires 1 <= limit && lo <= m <= hi == SpanEnd(lo, listed, limit)
    requires (lo < m ==> m <= closed) && (m < hi ==> closed <= m)
    ensures lo < m == hi < lo + limit ==> Completable(lo, listed, closed, limit) && PagesTaken(lo, listed, limit) == 1
    ensures !(lo < m == hi < lo + limit) ==>
              && (Completable(m, listed, closed, limit) <==> Completable(lo, listed, closed, limit))
              && (Completable(lo, listed, closed, limit) ==>
                  PagesTaken(m, listed, limit) == PagesTaken(lo, listed, limit) - 1)
  {
    if lo < listed {
      var r := listed - lo;
      if r < limit { ShortPage(r, limit); } else { OnePageLess(r, limit); }
    }
  }

  /** One page, while the listing stands still: it completes, or leaves the backfill as completable as it was. */
  lemma PageTowards(w: Window, c: Checkpoint, e: Event, listed: nat, closed: nat)
    requires w.Valid() && !c.completed && Sees(w, e, listed, closed)
    ensures var page := FetchPage(w.candles, c.next, w.end, w.limit, e.fetched);
            var next := Advance(c, page, w.limit, e.cutoff);
            var lo, to := Rank(w.candles, c.next), Rank(w.candles, next.next);
            && next.pages == c.pages + 1
            && (next.completed ==> Completable(lo, listed, closed, w.limit) && PagesTaken(lo, listed, w.limit) == 1)
            && (!next.completed ==>
                  && (Completable(to, listed, closed, w.limit) <==> Completable(lo, listed, closed, w.limit))
                  && (Completable(lo, listed, closed, w.limit) ==>
                        PagesTaken(to, listed, w.limit) == PagesTaken(lo, listed, w.limit) - 1))
  {
    var lo, m, hi := PageMoves(w, c, e);
    if lo < m { assert w.candles[m - 1].close < e.cutoff; }
    if m < hi { assert !(w.candles[m].close < e.cutoff); }
    PageArithmetic(lo, m, hi, listed, closed, w.limit);
  }

  /** The listing and what has closed stay the same throughout. */
  ghost predicate Steady(w: Window, events: seq<Event>, listed: nat, closed: nat) {
    forall i :: 0 <= i < |events| ==> Sees(w, events[i], listed, closed)
  }

  /** While the listing stands still, a backfill completes exactly when it can, after exactly the pages that takes. */
  lemma {:induction false} CompletesExactly(w: Window, p: Progress, events: seq<Event>, listed: nat, closed: nat)
    requires w.Valid() && !p.checkpoint.completed && Steady(w, events, listed, closed)
    ensures var lo, q := Rank(w.candles, p.checkpoint.next), ExecuteFrom(w, p, events).checkpoint;
            && (q.completed <==>
                Completable(lo, listed, closed, w.limit) && PagesTaken(lo, listed, w.limit) <= |events|)
            && (!q.completed ==>
                  && (Completable(Rank(w.candles, q.next), listed, closed, w.limit) <==>
                      Completable(lo, listed, closed, w.limit))
                  && (Completable(lo, listed, closed, w.limit) ==>
                        PagesTaken(Rank(w.candles, q.next), listed, w.limit) ==
                          PagesTaken(lo, listed, w.limit) - |events|))
  {
    var lo := Rank(w.candles, p.checkpoint.next);
    if events == [] {
      if Completable(lo, listed, closed, w.limit) { PositivePages(lo, listed, w.limit); }
    } else {
      var k := |events| - 1;
      CompletesExactly(w, p, events[..k], listed, closed);
      var before := ExecuteFrom(w, p, events[..k]);
      if !before.checkpoint.completed {
        PageTowards(w, before.checkpoint, events[k], listed, closed);
        var to := Rank(w.candles, before.checkpoint.next);
        if Completable(to, listed, closed, w.limit) { PositivePages(to, listed, w.limit); }
        var next := ExecuteFrom(w, p, events).checkpoint;
        if Completable(Rank(w.candles, next.next), listed, closed, w.limit) {
          PositivePages(Rank(w.candles, next.next), listed, w.limit);
        }
      }
    }
  }

  lemma PositivePages(lo: nat, listed: nat, limit: nat)
    requires 1 <= limit && lo < listed
    ensures PagesTaken(lo, listed, limit) >= 1
  {
    var r: nat := listed - lo;
    assert r / limit >= 0;
  }

  /** While a listed candle is still open no backfill completes. */
  lemma OpenCandleBlocks(w: Window, events: seq<Event>, listed: nat, closed: nat)
    requires w.Valid() && Steady(w, events, listed, closed) && closed < listed
    ensures !Execute(w, events).checkpoint.completed
  {
    CompletesExactly(w, Begin(w), events, listed, closed);
  }

  const TWO_DAYS := Window([Candle(0, DAY - 1), Candle(DAY, 2 * DAY - 1)], 0, None, 2)

  /** Two long-closed candles read two at a time: no number of pages ever completes them, for the last one is full. */
  lemma FullPageNeverCompletes(events: seq<Event>)
    requires forall i :: 0 <= i < |events| ==> 2 * DAY <= events[i].fetched && 2 * DAY <= events[i].cutoff
    ensures !Execute(TWO_DAYS, events).checkpoint.completed
  {
    var w := TWO_DAYS;
    assert w.candles[0].open == 0 && w.candles[1].open == DAY;
    forall i | 0 <= i < |events| ensures Sees(w, events[i], 2, 2) {}
    RankBefore(w.candles, 0, 0);
    CompletesExactly(w, Begin(w), events, 2, 2);
  }

  // ----- The loop of one worker

  /** From a checkpoint a backfill can complete within a number of pages, those already counted included. */
  ghost predicate Fits(w: Window, c: Checkpoint, listed: nat, closed: nat, maxPages: nat)
    requires w.Valid()
  {
    var lo := Rank(w.candles, c.next);
    Completable(lo, listed, closed, w.limit) && c.pages + PagesTaken(lo, listed, w.limit) <= maxPages
  }

  /** No page fails, and the listing and what has closed stand still. */
  ghost predicate Undisturbed(w: Window, clock: nat -> Event, fails: nat -> bool, listed: nat, closed: nat) {
    forall k :: !fails(k) && Sees(w, clock(k), listed, closed)
  }

  /** The stored prices and the ingestion run with its checkpoint. */
  class Backfill {
    var stored: set<Candle>
    var coverage: Option<Checkpoint>
    var status: Status

    function Loaded(w: Window, loads: bool): Checkpoint
      reads this
    {
      if loads && coverage.Some? then coverage.value else Begin(w).checkpoint
    }

    constructor ()
      ensures stored == {} && coverage.None? && status.RunRunning?
    {
      stored, coverage, status := {}, None, RunRunning;
    }

    /**
     * One attempt: it picks up at the saved checkpoint, or at the start if that does not load, and commits page after
     * page at the times of the clock unless one fails. While the listing stands still and nothing fails, it completes
     * exactly when its checkpoint already is complete, or the run is not marked succeeded, the backfill can complete,
     * and the pages that takes fit the limit.
     */
    method Resume(w: Window, maxPages: nat, loads: bool, clock: nat -> Event, fails: nat -> bool, ghost listed: nat,
                  ghost closed: nat)
      returns (complete: bool, ghost pages: seq<Event>)
      requires w.Valid()
      modifies this
      ensures var after := ExecuteFrom(w, Progress(old(stored), old(Loaded(w, loads))), pages);
              && stored == after.stored
              && (pages != [] ==> coverage == Some(after.checkpoint))
              && (pages == [] && !complete ==> coverage == old(coverage))
              && (complete ==> after.checkpoint.completed && status.RunSucceeded?)
              && (old(status).RunSucceeded? ==> pages == [])
      ensures var c := old(Loaded(w, loads));
              Undisturbed(w, clock, fails, listed, closed) ==>
                (complete <==> c.completed || (!old(status).RunSucceeded? && Fits(w, c, listed, closed, maxPages)))
    {
      status := Resumed(status);
      pages := [];
      var checkpoint := Loaded(w, loads);
      if checkpoint.completed {
        if !status.RunSucceeded? {
          CompleteRun(checkpoint);
        }
        return true, pages;
      }
      complete, pages := ReadPages(w, checkpoint, maxPages, clock, fails, listed, closed);
    }

    method CompleteRun(checkpoint: Checkpoint)
      modifies `coverage, `status
      ensures status.RunSucceeded?
      ensures coverage ==
              if old(coverage).None? then None
              else Some(old(coverage).value.(pages := checkpoint.pages, candles := checkpoint.candles))
    {
      if coverage.Some? {
        coverage := Some(coverage.value.(pages := checkpoint.pages, candles := checkpoint.candles));
      }
      status := RunSucceeded;
    }

    /** Fetches a page and commits its closed candles with the next checkpoint, if the run still is running. */
    method CommitPage(w: Window, checkpoint: Checkpoint, e: Event) returns (committed: bool, next: Checkpoint)
      requires !checkpoint.completed
      modifies this
      ensures committed <==> old(status).RunRunning?
      ensures committed ==> status == old(status) && coverage == Some(next)
      ensures committed ==> Progress(stored, next) == Next(w, Progress(old(stored), checkpoint), e)
      ensures !committed ==> status.RunFailed? && stored == old(stored) && coverage == old(coverage)
      ensures next ==
              Advance(checkpoint, FetchPage(w.candles, checkpoint.next, w.end, w.limit, e.fetched), w.limit, e.cutoff)
    {
      var page := FetchPage(w.candles, checkpoint.next, w.end, w.limit, e.fetched);
      var accepted := CollectClosed(page, e.normalised);
      next := AdvanceComplete(checkpoint, page, w.limit, e.cutoff);
      committed := status.RunRunning?;
      if committed {
        stored, coverage := stored + Members(accepted), Some(next);
      } else {
        status := RunFailed;
      }
    }

    /** One page of an attempt that began at a point and has read some pages since. */
    method ReadPage(w: Window, checkpoint: Checkpoint, e: Event, ghost start: Progress, ghost pages: seq<Event>,
                    ghost listed: nat, ghost closed: nat)
      returns (committed: bool, next: Checkpoint)
      requires w.Valid() && !checkpoint.completed && ExecuteFrom(w, start, pages) == Progress(stored, checkpoint)
      modifies this
      ensures committed <==> old(status).RunRunning?
      ensures committed ==> status == old(status) && coverage == Some(next)
      ensures committed ==> ExecuteFrom(w, start, pages + [e]) == Progress(stored, next)
      ensures !committed ==> status.RunFailed? && stored == old(stored) && coverage == old(coverage)
      ensures next.pages == checkpoint.pages + 1
      ensures Sees(w, e, listed, closed) && SameProspects(w, start.checkpoint, checkpoint, listed, closed) ==>
                ProspectsAfter(w, start.checkpoint, next, listed, closed)
    {
      ProspectsKept(w, start.checkpoint, checkpoint, e, listed, closed);
      ExecuteSnoc(w, start, pages, e);
      committed, next := CommitPage(w, checkpoint, e);
    }

    /** Commits pages from a checkpoint until the window ends, a page fails, or the limit is reached. */
    method ReadPages(w: Window, start: Checkpoint, maxPages: nat, clock: nat -> Event, fails: nat -> bool,
                     ghost listed: nat, ghost closed: nat)
      returns (complete: bool, ghost pages: seq<Event>)
      requires w.Valid() && !start.completed && !status.RunFailed?
      modifies this
      ensures var after := ExecuteFrom(w, Progress(old(stored), start), pages);
              && stored == after.stored
              && (if pages != [] then coverage == Some(after.checkpoint) else coverage == old(coverage))
              && (complete ==> after.checkpoint.completed && status.RunSucceeded?)
              && (old(status).RunSucceeded? ==> pages == [] && !complete)
      ensures Undisturbed(w, clock, fails, listed, closed) ==>
                (complete <==> old(status).RunRunning? && Fits(w, start, listed, closed, maxPages))
    {
      var checkpoint, pageNo := start, start.pages;
      pages := [];
      while pageNo < maxPages
        invariant status == old(status) && !checkpoint.completed && pageNo == checkpoint.pages
        invariant ExecuteFrom(w, Progress(old(stored), start), pages) == Progress(stored, checkpoint)
        invariant if pages != [] then coverage == Some(checkpoint) else coverage == old(coverage)
        invariant old(status).RunSucceeded? ==> pages == []
        invariant Undisturbed(w, clock, fails, listed, closed) ==> SameProspects(w, start, checkpoint, listed, closed)
      {
        var e := clock(pageNo);
        if fails(pageNo) {
          status := RunFailed;
          return false, pages;
        }
        var committed;
        committed, checkpoint := ReadPage(w, checkpoint, e, Progress(old(stored), start), pages, listed, closed);
        if !committed {
          return false, pages;
        }
        pages := pages + [e];
        if checkpoint.completed {
          CompleteRun(checkpoint);
          return true, pages;
        }
        pageNo := pageNo + 1;
      }
      NoPagesLeft(w, checkpoint, listed);
      status := RunFailed;
      return false, pages;
    }
  }

  /** Two points of one attempt can complete alike, and would end on the same page. */
  ghost predicate SameProspects(w: Window, a: Checkpoint, b: Checkpoint, listed: nat, closed: nat)
    requires w.Valid()
  {
    var x, y := Rank(w.candles, a.next), Rank(w.candles, b.next);
    && (Completable(x, listed, closed, w.limit) <==> Completable(y, listed, closed, w.limit))
    && (Completable(x, listed, closed, w.limit) ==>
          a.pages + PagesTaken(x, listed, w.limit) == b.pages + PagesTaken(y, listed, w.limit))
  }

  /** An attempt that has not completed still has the prospects it began with; one that has took the pages it should. */
  ghost predicate ProspectsAfter(w: Window, a: Checkpoint, next: Checkpoint, listed: nat, closed: nat)
    requires w.Valid()
  {
    if !next.completed then SameProspects(w, a, next, listed, closed)
    else
      && Completable(Rank(w.candles, a.next), listed, closed, w.limit)
      && a.pages + PagesTaken(Rank(w.candles, a.next), listed, w.limit) == next.pages
  }

  lemma ProspectsKept(w: Window, a: Checkpoint, b: Checkpoint, e: Event, listed: nat, closed: nat)
    requires w.Valid() && !b.completed
    ensures var next := Advance(b, FetchPage(w.candles, b.next, w.end, w.limit, e.fetched), w.limit, e.cutoff);
            && next.pages == b.pages + 1
            && (Sees(w, e, listed, closed) && SameProspects(w, a, b, listed, closed) ==>
                ProspectsAfter(w, a, next, listed, closed))
  {
    if Sees(w, e, listed, closed) {
      PageTowards(w, b, e, listed, closed);
    } else {
      var lo, m, hi := PageMoves(w, b, e);
    }
  }

  lemma NoPagesLeft(w: Window, c: Checkpoint, listed: nat)
    requires w.Valid()
    ensures Rank(w.candles, c.next) < listed ==> PagesTaken(Rank(w.candles, c.next), listed, w.limit) >= 1
  {
    if Rank(w.candles, c.next) < listed { PositivePages(Rank(w.candles, c.next), listed, w.limit); }
  }
}
