/** The candle backfill with overlapping workers, each advancing a checkpoint of its own. */
module BinanceWorkers {
  import opened Results
  import opened IngestionRuns
  import opened BinanceResume

  datatype Database = Database(stored: set<Candle>, coverage: Option<Checkpoint>, status: Status)

  /** The database, and the checkpoint each worker at work holds. */
  datatype System = System(db: Database, workers: map<nat, Checkpoint>)

  /** Leaving covers a crash, and a worker that finds its run complete and succeeded. */
  datatype Step =
    | Start(worker: nat, loads: bool)
    | Page(worker: nat, e: Event)
    | Finish(worker: nat)
    | GiveUp(worker: nat)
    | Leave(worker: nat)

  function Loaded(w: Window, db: Database, loads: bool): Checkpoint {
    if loads && db.coverage.Some? then db.coverage.value else Begin(w).checkpoint
  }

  function NextOf(w: Window, c: Checkpoint, e: Event): Checkpoint {
    Advance(c, FetchPage(w.candles, c.next, w.end, w.limit, e.fetched), w.limit, e.cutoff)
  }

  function Accepted(w: Window, c: Checkpoint, e: Event): set<Candle> {
    Members(Closed(FetchPage(w.candles, c.next, w.end, w.limit, e.fetched), e.normalised))
  }

  /** The committed state after a page read from a worker's checkpoint. */
  function Committed(w: Window, db: Database, c: Checkpoint, e: Event): Database {
    db.(stored := db.stored + Accepted(w, c, e), coverage := Some(NextOf(w, c, e)))
  }

  function CompletedRun(db: Database, c: Checkpoint): Database {
    var coverage :=
      if db.coverage.Some? then Some(db.coverage.value.(pages := c.pages, candles := c.candles)) else None;
    db.(coverage := coverage, status := RunSucceeded)
  }

  function NextStep(w: Window, s: System, step: Step): System {
    var v := step.worker;
    if step.Start? then System(s.db.(status := Resumed(s.db.status)), s.workers[v := Loaded(w, s.db, step.loads)])
    else if v !in s.workers then s
    else
      var c := s.workers[v];
      match step
      case Page(_, e) =>
        if c.completed then s
        else if s.db.status.RunRunning? then System(Committed(w, s.db, c, e), s.workers[v := NextOf(w, c, e)])
        else System(s.db.(status := RunFailed), s.workers - {v})
      case Finish(_) => if c.completed then System(CompletedRun(s.db, c), s.workers - {v}) else s
      case GiveUp(_) => System(s.db.(status := RunFailed), s.workers - {v})
      case Leave(_) => s.(workers := s.workers - {v})
  }

  /** Finishing a complete backfill succeeds the run, giving up fails it, and leaving it changes nothing stored. */
  lemma EndsIs(w: Window, s: System, step: Step)
    requires step.worker in s.workers
    ensures var t := NextStep(w, s, step);
            && (step.Finish? && s.workers[step.worker].completed ==>
                  t.db.status == RunSucceeded && t.db.stored == s.db.stored)
            && (step.Finish? && !s.workers[step.worker].completed ==> t == s)
            && (step.GiveUp? ==> t.db == Database(s.db.stored, s.db.coverage, RunFailed))
            && (step.Leave? ==> t.db == s.db)
  {
  }

  function Run(w: Window, steps: seq<Step>): System {
    if steps == [] then System(Database({}, None, RunRunning), map[])
    else NextStep(w, Run(w, steps[..|steps| - 1]), steps[|steps| - 1])
  }

  // ----- What every interleaving keeps

  /** Every page a worker reads is seen alike by its two readings of the clock. */
  ghost predicate CarefulStep(w: Window, s: System, step: Step) {
    step.Page? && step.worker in s.workers ==>
      && step.e.normalised <= step.e.cutoff
      && Alike(FetchPage(w.candles, s.workers[step.worker].next, w.end, w.limit, step.e.fetched), step.e)
  }

  ghost predicate CarefulRun(w: Window, steps: seq<Step>) {
    forall i :: 0 <= i < |steps| ==> CarefulStep(w, Run(w, steps[..i]), steps[i])
  }

  lemma CarefulRunPrefix(w: Window, steps: seq<Step>, k: nat)
    requires CarefulRun(w, steps) && k <= |steps|
    ensures CarefulRun(w, steps[..k])
  {
    forall i | 0 <= i < k ensures CarefulStep(w, Run(w, steps[..k][..i]), steps[..k][i]) {
      assert steps[..k][..i] == steps[..i];
    }
  }

  /** What a complete checkpoint has reached: the end of the window as some page found it listed. */
  ghost predicate ReachedEnd(w: Window, c: Checkpoint, steps: seq<Step>) {
    exists i :: 0 <= i < |steps| && steps[i].Page? && w.Until(c.next) == Complete(w, steps[i].e.fetched)
  }

  /** Nothing before a checkpoint is missing from the store. */
  ghost predicate Covered(w: Window, stored: set<Candle>, c: Checkpoint, steps: seq<Step>) {
    && w.start <= c.next && w.Until(c.next) <= stored
    && (c.completed ==> ReachedEnd(w, c, steps))
  }

  ghost predicate HoldsEnd(w: Window, stored: set<Candle>, steps: seq<Step>) {
    exists i :: 0 <= i < |steps| && steps[i].Page? && Complete(w, steps[i].e.fetched) <= stored
  }

  ghost predicate Consistent(w: Window, s: System, steps: seq<Step>) {
    && (s.db.coverage.Some? ==> Covered(w, s.db.stored, s.db.coverage.value, steps))
    && (s.db.status.RunSucceeded? ==> HoldsEnd(w, s.db.stored, steps))
    && (forall v :: v in s.workers ==> Covered(w, s.db.stored, s.workers[v], steps))
  }

  lemma CoveredGrows(w: Window, stored: set<Candle>, more: set<Candle>, c: Checkpoint, steps: seq<Step>, step: Step)
    requires Covered(w, stored, c, steps) && stored <= more
    ensures Covered(w, more, c, steps + [step])
  {
    if c.completed {
      var i :| 0 <= i < |steps| && steps[i].Page? && w.Until(c.next) == Complete(w, steps[i].e.fetched);
      assert (steps + [step])[i] == steps[i];
    }
  }

  lemma HoldsEndGrows(w: Window, stored: set<Candle>, more: set<Candle>, steps: seq<Step>, step: Step)
    requires HoldsEnd(w, stored, steps) && stored <= more
    ensures HoldsEnd(w, more, steps + [step])
  {
    var i :| 0 <= i < |steps| && steps[i].Page? && Complete(w, steps[i].e.fetched) <= stored;
    assert (steps + [step])[i] == steps[i];
  }

  /** A page seen alike stores everything between its checkpoint and the next. */
  lemma PageCovers(w: Window, c: Checkpoint, e: Event)
    requires w.Valid() && w.start <= c.next && e.normalised <= e.cutoff
    requires Alike(FetchPage(w.candles, c.next, w.end, w.limit, e.fetched), e)
    ensures c.next <= NextOf(w, c, e).next
    ensures w.Until(NextOf(w, c, e).next) == w.Until(c.next) + Accepted(w, c, e)
  {
    var lo, m, hi := PageMoves(w, c, e);
    UntilGrows(w, c.next, NextOf(w, c, e).next, lo, m);
    AlikeBySets(w.candles[lo..hi], e);
    SliceIs(w.candles, lo, m);
  }

  lemma PageReachesEnd(w: Window, c: Checkpoint, e: Event)
    requires w.Valid() && !c.completed && NextOf(w, c, e).completed
    ensures w.Until(NextOf(w, c, e).next) == Complete(w, e.fetched)
  {
    var lo, m, hi := PageMoves(w, c, e);
    CompletedWindow(w, NextOf(w, c, e).next, e.fetched);
  }

  lemma CommitCovers(w: Window, s: System, steps: seq<Step>, v: nat, e: Event)
    requires w.Valid() && Consistent(w, s, steps) && v in s.workers && !s.workers[v].completed
    requires CarefulStep(w, s, Page(v, e))
    ensures Covered(w, Committed(w, s.db, s.workers[v], e).stored, NextOf(w, s.workers[v], e), steps + [Page(v, e)])
  {
    var c := s.workers[v];
    PageCovers(w, c, e);
    if NextOf(w, c, e).completed {
      PageReachesEnd(w, c, e);
      assert (steps + [Page(v, e)])[|steps|] == Page(v, e);
    }
  }

  lemma EndIsHeld(w: Window, stored: set<Candle>, c: Checkpoint, steps: seq<Step>)
    requires Covered(w, stored, c, steps) && c.completed
    ensures HoldsEnd(w, stored, steps)
  {
    var i :| 0 <= i < |steps| && steps[i].Page? && w.Until(c.next) == Complete(w, steps[i].e.fetched);
  }

  lemma NextConsistent(w: Window, s: System, steps: seq<Step>, step: Step)
    requires w.Valid() && Consistent(w, s, steps) && CarefulStep(w, s, step)
    ensures Consistent(w, NextStep(w, s, step), steps + [step])
  {
    var t, all := NextStep(w, s, step), steps + [step];
    assert w.Until(w.start) == {};
    assert s.db.stored <= t.db.stored;
    if s.db.coverage.Some? { CoveredGrows(w, s.db.stored, t.db.stored, s.db.coverage.value, steps, step); }
    if s.db.status.RunSucceeded? { HoldsEndGrows(w, s.db.stored, t.db.stored, steps, step); }
    forall v | v in s.workers ensures Covered(w, t.db.stored, s.workers[v], all) {
      CoveredGrows(w, s.db.stored, t.db.stored, s.workers[v], steps, step);
    }
    if step.worker in s.workers {
      var c := s.workers[step.worker];
      if step.Page? && !c.completed { CommitCovers(w, s, steps, step.worker, step.e); }
      if step.Finish? && c.completed { EndIsHeld(w, t.db.stored, c, all); }
    }
  }

  /**
   * Whatever workers overlap, crash and resume: no stored checkpoint, and none a worker holds, is ahead of the stored
   * candles, and a succeeded run holds every candle its window listed when some page was read.
   */
  lemma {:induction false} AlwaysCovered(w: Window, steps: seq<Step>)
    requires w.Valid() && CarefulRun(w, steps)
    ensures Consistent(w, Run(w, steps), steps)
  {
    if steps != [] {
      var k := |steps| - 1;
      CarefulRunPrefix(w, steps, k);
      AlwaysCovered(w, steps[..k]);
      NextConsistent(w, Run(w, steps[..k]), steps[..k], steps[k]);
      assert steps[..k] + [steps[k]] == steps;
    }
  }

  /** Only closed candles of the list are ever stored, whether or not the readings agree. */
  lemma {:induction false} OnlyClosedStored(w: Window, steps: seq<Step>, c: Candle)
    requires c in Run(w, steps).db.stored
    ensures exists i :: 0 <= i < |steps| && steps[i].Page? && c.close < steps[i].e.normalised
  {
    var k := |steps| - 1;
    if c in Run(w, steps[..k]).db.stored {
      OnlyClosedStored(w, steps[..k], c);
      var i :| 0 <= i < k && steps[..k][i].Page? && c.close < steps[..k][i].e.normalised;
      assert steps[..k][i] == steps[i];
    } else {
      assert steps[k].Page?;
    }
  }

  // ----- When the store is exactly what the checkpoint says

  ghost predicate ExactDb(w: Window, db: Database) {
    db.coverage.Some? && w.start <= db.coverage.value.next && db.stored == w.Until(db.coverage.value.next)
  }

  lemma RankMonotone(cs: seq<Candle>, a: int, b: int)
    requires Daily(cs) && a <= b
    ensures Rank(cs, a) <= Rank(cs, b)
  {
    if Rank(cs, a) > 0 { RankBefore(cs, b, Rank(cs, a) - 1); }
  }

  /** The candles of a window before a time, by their positions. */
  lemma UntilIsSlice(w: Window, t: int, s: nat)
    requires w.Valid() && w.start <= t && s == Rank(w.candles, w.start)
    ensures s <= Rank(w.candles, t) && w.Until(t) == Slice(w.candles, s, Rank(w.candles, t))
  {
    RankMonotone(w.candles, w.start, t);
    UntilGrows(w, w.start, t, s, Rank(w.candles, t));
    assert w.Until(w.start) == {};
  }

  lemma SliceHas(cs: seq<Candle>, s: nat, hi: nat, i: nat)
    requires Daily(cs) && s <= hi <= |cs| && i < |cs|
    ensures cs[i] in Slice(cs, s, hi) <==> s <= i < hi
  {
  }

  lemma SlicesEqual(cs: seq<Candle>, s: nat, a: nat, b: nat)
    requires Daily(cs) && s <= a <= |cs| && s <= b <= |cs|
    ensures Slice(cs, s, a) == Slice(cs, s, b) <==> a == b
  {
    if a < b { SliceHas(cs, s, a, a); SliceHas(cs, s, b, a); }
    if b < a { SliceHas(cs, s, a, b); SliceHas(cs, s, b, b); }
  }

  lemma SlicesJoin(cs: seq<Candle>, s: nat, a: nat, lo: nat, n: nat)
    requires s <= lo <= a <= |cs| && lo <= n <= |cs|
    ensures Slice(cs, s, a) + Slice(cs, lo, n) == Slice(cs, s, if a < n then n else a)
  {
  }

  /** What a page accepts, by positions: its first candles, up to the last one closed when normalised. */
  lemma AcceptedIsSlice(w: Window, c: Checkpoint, e: Event) returns (lo: nat, n: nat, m: nat, hi: nat)
    requires w.Valid() && e.normalised <= e.cutoff
    ensures lo == Rank(w.candles, c.next) && m == Rank(w.candles, NextOf(w, c, e).next)
    ensures lo <= n <= m <= hi <= |w.candles|
    ensures Accepted(w, c, e) == Slice(w.candles, lo, n) && c.next <= NextOf(w, c, e).next
    ensures forall i :: lo <= i < m ==> (i < n <==> w.candles[i].close < e.normalised)
  {
    lo, m, hi := PageMoves(w, c, e);
    n := ClosedStretch(w.candles, lo, hi, e.normalised);
    SliceIs(w.candles, lo, n);
    if n > lo { assert w.candles[n - 1].close < e.normalised; }
  }

  /** A worker's checkpoint whose candles are all stored is not ahead of an exact saved one. */
  lemma NotAhead(w: Window, c: Checkpoint, saved: Checkpoint, s: nat)
    requires w.Valid() && w.start <= c.next && w.start <= saved.next && s == Rank(w.candles, w.start)
    requires w.Until(c.next) <= w.Until(saved.next)
    ensures s <= Rank(w.candles, c.next) <= Rank(w.candles, saved.next)
  {
    UntilIsSlice(w, c.next, s);
    UntilIsSlice(w, saved.next, s);
    var a, b := Rank(w.candles, c.next), Rank(w.candles, saved.next);
    if b < a { SliceHas(w.candles, s, a, b); SliceHas(w.candles, s, b, b); }
  }

  /** The same by positions: what was stored up to saved, and what a page from lo accepts up to n of the m it passes. */
  lemma CommitByPositions(cs: seq<Candle>, s: nat, saved: nat, lo: nat, n: nat, m: nat, at: int)
    requires Daily(cs) && s <= lo <= saved <= |cs| && lo <= n <= m <= |cs|
    requires forall i :: lo <= i < m ==> (i < n <==> cs[i].close < at)
    ensures Slice(cs, s, saved) + Slice(cs, lo, n) == Slice(cs, s, m) <==>
              saved <= m && forall i :: saved <= i < m ==> cs[i].close < at
  {
    SlicesJoin(cs, s, saved, lo, n);
    SlicesEqual(cs, s, if saved < n then n else saved, m);
    if saved < m { assert cs[m - 1].close < at <==> m - 1 < n; }
  }

  /**
   * A commit from a worker's own checkpoint leaves the store exactly what the saved checkpoint says if and only if it
   * does not move that checkpoint back past a candle, and what lies between the two had closed when normalised.
   */
  lemma CommitExactly(w: Window, db: Database, c: Checkpoint, e: Event)
    requires w.Valid() && ExactDb(w, db) && w.start <= c.next && w.Until(c.next) <= db.stored
    requires e.normalised <= e.cutoff
    ensures var saved, to := Rank(w.candles, db.coverage.value.next), Rank(w.candles, NextOf(w, c, e).next);
            ExactDb(w, Committed(w, db, c, e)) <==>
              saved <= to && forall i :: saved <= i < to ==> w.candles[i].close < e.normalised
  {
    var s, saved := Rank(w.candles, w.start), Rank(w.candles, db.coverage.value.next);
    var lo, n, m, hi := AcceptedIsSlice(w, c, e);
    NotAhead(w, c, db.coverage.value, s);
    UntilIsSlice(w, db.coverage.value.next, s);
    UntilIsSlice(w, NextOf(w, c, e).next, s);
    CommitByPositions(w.candles, s, saved, lo, n, m, e.normalised);
  }

  // ----- A stale worker moves the checkpoint back

  const FIRST := Candle(0, DAY - 1)
  const SECOND := Candle(DAY, 2 * DAY - 1)
  const DAYS := Window([FIRST, SECOND], 0, None, 1)
  const LATE := Event(3 * DAY, 3 * DAY, 3 * DAY)

  function ToDay(i: nat): Checkpoint {
    Checkpoint(i * DAY, i, i, false)
  }

  lemma DayPages()
    ensures DAYS.Valid() && Rank(DAYS.candles, 0) == 0 && Rank(DAYS.candles, DAY) == 1
    ensures Rank(DAYS.candles, 3 * DAY + 1) == 2
  {
    var cs := DAYS.candles;
    assert Daily(cs);
    RankBefore(cs, 0, 0);
    RankBefore(cs, DAY, 0); RankBefore(cs, DAY, 1);
    RankBefore(cs, 3 * DAY + 1, 0); RankBefore(cs, 3 * DAY + 1, 1);
  }

  lemma FetchFirst()
    ensures FetchPage(DAYS.candles, 0, None, 1, 3 * DAY) == [FIRST]
  {
    DayPages();
  }

  lemma FetchSecond()
    ensures FetchPage(DAYS.candles, DAY, None, 1, 3 * DAY) == [SECOND]
  {
    DayPages();
  }

  lemma OneClosed(x: Candle, at: int)
    requires x.close < at
    ensures Closed([x], at) == [x] && Members([x]) == {x}
  {
    assert [x][..0] == [];
  }

  lemma FullDay(c: Checkpoint, x: Candle, at: int)
    requires x.close < at && !c.completed
    ensures Advance(c, [x], 1, at) == Checkpoint(x.open + DAY, c.pages + 1, c.candles + 1, false)
  {
    OneClosed(x, at);
  }

  lemma ReadsFirst()
    ensures NextOf(DAYS, ToDay(0), LATE) == ToDay(1) && Accepted(DAYS, ToDay(0), LATE) == {FIRST}
  {
    FetchFirst();
    OneClosed(FIRST, 3 * DAY);
    FullDay(ToDay(0), FIRST, 3 * DAY);
  }

  lemma ReadsSecond()
    ensures NextOf(DAYS, ToDay(1), LATE) == ToDay(2) && Accepted(DAYS, ToDay(1), LATE) == {SECOND}
  {
    FetchSecond();
    OneClosed(SECOND, 3 * DAY);
    FullDay(ToDay(1), SECOND, 3 * DAY);
  }

  lemma RunMore(w: Window, steps: seq<Step>, step: Step)
    ensures Run(w, steps + [step]) == NextStep(w, Run(w, steps), step)
  {
    assert (steps + [step])[..|steps|] == steps;
  }

  /** Two workers start, and the first of them reads both days. */
  function Ahead(): seq<Step> {
    [Start(0, true)] + [Start(1, true)] + [Page(0, LATE)] + [Page(0, LATE)]
  }

  /** Then the second worker reads its first page. */
  function Stale(): seq<Step> {
    Ahead() + [Page(1, LATE)]
  }

  lemma BothStart()
    ensures Run(DAYS, [Start(0, true)] + [Start(1, true)]) ==
            System(Database({}, None, RunRunning), map[0 := ToDay(0), 1 := ToDay(0)])
  {
    RunMore(DAYS, [], Start(0, true));
    assert [] + [Start(0, true)] == [Start(0, true)];
    RunMore(DAYS, [Start(0, true)], Start(1, true));
  }

  lemma FirstRead()
    ensures Run(DAYS, [Start(0, true)] + [Start(1, true)] + [Page(0, LATE)]) ==
            System(Database({FIRST}, Some(ToDay(1)), RunRunning), map[0 := ToDay(1), 1 := ToDay(0)])
  {
    BothStart();
    RunMore(DAYS, [Start(0, true)] + [Start(1, true)], Page(0, LATE));
    ReadsFirst();
  }

  lemma BothRead()
    ensures Run(DAYS, Ahead()) ==
            System(Database({FIRST, SECOND}, Some(ToDay(2)), RunRunning), map[0 := ToDay(2), 1 := ToDay(0)])
  {
    FirstRead();
    RunMore(DAYS, [Start(0, true)] + [Start(1, true)] + [Page(0, LATE)], Page(0, LATE));
    ReadsSecond();
  }

  lemma FirstReadAgain()
    ensures Run(DAYS, Stale()) ==
            System(Database({FIRST, SECOND}, Some(ToDay(1)), RunRunning), map[0 := ToDay(2), 1 := ToDay(1)])
  {
    BothRead();
    RunMore(DAYS, Ahead(), Page(1, LATE));
    ReadsFirst();
  }

  lemma DaysUntil()
    ensures DAYS.Until(2 * DAY) == {FIRST, SECOND} && SECOND !in DAYS.Until(DAY)
  {
    assert DAYS.candles[0] == FIRST && DAYS.candles[1] == SECOND;
  }

  /**
   * A worker that still stands at the first day commits it again after another has stored both, and moves the
   * checkpoint back.
   */
  lemma StaleCommitMovesBack()
    ensures DAYS.Valid() && ExactDb(DAYS, Run(DAYS, Ahead()).db)
    ensures Run(DAYS, Stale()).db == Database({FIRST, SECOND}, Some(ToDay(1)), RunRunning)
    ensures !ExactDb(DAYS, Run(DAYS, Stale()).db)
  {
    DayPages();
    DaysUntil();
    BothRead();
    FirstReadAgain();
  }
}
