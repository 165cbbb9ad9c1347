/** The paged FRED backfill, resumed after crashes and by overlapping workers. */
module FredResume {
  import opened Results
  import opened IngestionRuns

  datatype Observation = Observation(date: string, value: string)

  /**
   * A fixed upstream list, read limit rows at a time for the request with this fingerprint. The count and
   * the offset may be missing from a response; they then read as zero.
   */
  datatype Upstream = Upstream(rows: seq<Observation>, limit: nat, fingerprint: string, sendsCount: bool,
                               sendsOffset: bool) {
    ghost predicate Valid() {
      1 <= limit && fingerprint != ""
    }

    ghost function All(): set<Observation> {
      set i | 0 <= i < |rows| :: rows[i]
    }

    /** The rows before an offset. */
    ghost function Before(offset: nat): set<Observation> {
      set i | 0 <= i < |rows| && i < offset :: rows[i]
    }
  }

  datatype Response = Response(offset: nat, count: nat, observations: seq<Observation>)

  /** One page as the client hands it on: a missing offset is the one asked for. */
  function FetchPage(u: Upstream, offset: nat): Response {
    var end := if offset + u.limit < |u.rows| then offset + u.limit else |u.rows|;
    var sent := if u.sendsOffset then offset else 0;
    Response(if sent == 0 && offset != 0 then offset else sent,
             if u.sendsCount then |u.rows| else 0,
             if offset <= end then u.rows[offset..end] else [])
  }

  datatype Checkpoint = Checkpoint(fingerprint: string, nextOffset: nat, pages: nat, observations: nat, completed: bool)

  function NewCheckpoint(u: Upstream): Checkpoint {
    Checkpoint(u.fingerprint, 0, 0, 0, false)
  }

  function NextRequest(c: Checkpoint, fingerprint: string): Option<nat> {
    if c.fingerprint == "" || c.fingerprint != fingerprint then None else Some(c.nextOffset)
  }

  function Advance(c: Checkpoint, page: Response): Checkpoint {
    var next := page.offset + |page.observations|;
    Checkpoint(c.fingerprint, next, c.pages + 1, c.observations + |page.observations|,
               |page.observations| == 0 || (page.count > 0 && next >= page.count))
  }

  // ----- Checkpoints

  /** The rows a number of full pages reach. */
  function Reach(u: Upstream, pages: nat): nat {
    if pages * u.limit < |u.rows| then pages * u.limit else |u.rows|
  }

  /** How many pages a backfill reads: one more than the rows fill when no count tells it to stop. */
  function PagesNeeded(u: Upstream): nat
    requires 1 <= u.limit
  {
    var filled := (|u.rows| + u.limit - 1) / u.limit;
    if u.sendsCount && |u.rows| > 0 then filled else filled + 1
  }

  ghost predicate Sound(u: Upstream, c: Checkpoint) {
    && c.fingerprint == u.fingerprint
    && c.observations == c.nextOffset == Reach(u, c.pages)
    && (c.completed ==> c.nextOffset == |u.rows|)
  }

  /** Sound, and complete exactly when all the pages it needs have been read. */
  ghost predicate Counted(u: Upstream, c: Checkpoint)
    requires u.Valid()
  {
    Sound(u, c) && c.pages <= PagesNeeded(u) && (c.completed <==> c.pages == PagesNeeded(u))
  }

  lemma PageLength(u: Upstream, offset: nat)
    requires u.Valid() && offset <= |u.rows|
    ensures FetchPage(u, offset).offset == offset
    ensures offset + |FetchPage(u, offset).observations| ==
            if offset + u.limit < |u.rows| then offset + u.limit else |u.rows|
  {
  }

  lemma ReachNext(u: Upstream, pages: nat)
    requires u.Valid()
    ensures Reach(u, pages) <= |u.rows|
    ensures Reach(u, pages + 1) == if Reach(u, pages) + u.limit < |u.rows| then Reach(u, pages) + u.limit else |u.rows|
  {
    assert (pages + 1) * u.limit == pages * u.limit + u.limit;
  }

  lemma AdvanceSound(u: Upstream, c: Checkpoint)
    requires u.Valid() && Sound(u, c)
    ensures Sound(u, Advance(c, FetchPage(u, c.nextOffset)))
  {
    ReachNext(u, c.pages);
    PageLength(u, c.nextOffset);
  }

  /** The number of filled pages, as a ceiling. */
  lemma FilledPages(u: Upstream, filled: nat)
    requires u.Valid() && filled == (|u.rows| + u.limit - 1) / u.limit
    ensures |u.rows| <= filled * u.limit < |u.rows| + u.limit
  {
    var n, l := |u.rows| + u.limit - 1, u.limit;
    assert n == (n / l) * l + n % l;
  }

  lemma ProductOrder(a: int, b: int, l: int)
    requires 1 <= l
    ensures a < b ==> a * l + l <= b * l
    ensures a <= b <==> a * l <= b * l
  {
    if a < b { ProductGap(b - a, l); assert b * l == a * l + (b - a) * l; }
    else if b < a { ProductGap(a - b, l); assert a * l == b * l + (a - b) * l; }
  }

  lemma ProductGap(d: int, l: int)
    requires 1 <= d && 1 <= l
    ensures l <= d * l
  {
  }

  /** Whether p pages have read everything, in terms of the number of filled pages. */
  lemma ReachAll(u: Upstream, p: nat, filled: nat)
    requires u.Valid() && filled == (|u.rows| + u.limit - 1) / u.limit
    ensures Reach(u, p) == |u.rows| <==> filled <= p
    ensures p + 1 == filled ==> Reach(u, p + 1) == |u.rows|
  {
    FilledPages(u, filled);
    ProductOrder(filled, p, u.limit);
    ProductOrder(p, filled, u.limit);
  }

  lemma AdvanceCounted(u: Upstream, c: Checkpoint)
    requires u.Valid() && Counted(u, c) && !c.completed
    ensures Counted(u, Advance(c, FetchPage(u, c.nextOffset)))
  {
    var next, filled := Advance(c, FetchPage(u, c.nextOffset)), (|u.rows| + u.limit - 1) / u.limit;
    AdvanceSound(u, c);
    PageLength(u, c.nextOffset);
    ReachNext(u, c.pages);
    ReachAll(u, c.pages, filled);
    ReachAll(u, next.pages, filled);
  }

  // ----- Checkpoints whose counters another worker has raised

  /** The pages behind an offset, whatever the page counter says. */
  function PagesRead(u: Upstream, c: Checkpoint): nat
    requires u.Valid()
  {
    if c.completed then PagesNeeded(u) else (c.nextOffset + u.limit - 1) / u.limit
  }

  /** A checkpoint with its counters set to what its offset calls for. */
  function Recounted(u: Upstream, c: Checkpoint): Checkpoint
    requires u.Valid()
  {
    c.(pages := PagesRead(u, c), observations := c.nextOffset)
  }

  /** An offset the backfill can be at, with counters that are not too low. */
  ghost predicate Placed(u: Upstream, c: Checkpoint)
    requires u.Valid()
  {
    Counted(u, Recounted(u, c)) && PagesRead(u, c) <= c.pages && c.nextOffset <= c.observations
  }

  lemma ExactQuotient(p: nat, l: nat)
    requires 1 <= l
    ensures (p * l + l - 1) / l == p
  {
    var n := p * l + l - 1;
    assert n == (n / l) * l + n % l;
    ProductOrder(p, n / l, l);
    ProductOrder(n / l, p, l);
  }

  /** A checkpoint that counts right is its own recount. */
  lemma CountedIsRecounted(u: Upstream, c: Checkpoint)
    requires u.Valid() && Counted(u, c)
    ensures Recounted(u, c) == c && Placed(u, c)
  {
    var filled := (|u.rows| + u.limit - 1) / u.limit;
    ReachAll(u, c.pages, filled);
    ExactQuotient(c.pages, u.limit);
  }

  /** Reading a page moves the offset on as if the counters were right, and keeps them not too low. */
  lemma AdvancePlaced(u: Upstream, c: Checkpoint)
    requires u.Valid() && Placed(u, c) && !c.completed
    ensures var next := Advance(c, FetchPage(u, c.nextOffset));
            Placed(u, next) && PagesRead(u, next) == PagesRead(u, c) + 1 && next.pages == c.pages + 1
  {
    var d := Recounted(u, c);
    AdvanceCounted(u, d);
    CountedIsRecounted(u, Advance(d, FetchPage(u, d.nextOffset)));
  }

  // ----- Overlapping workers

  /** The stored observations and the ingestion run; the observation table is append-only. */
  datatype Database = Database(stored: set<Observation>, coverage: Option<Checkpoint>, status: Status)

  /** A worker inside the loop: about to fetch, or with its page stored and its checkpoint not yet saved. */
  datatype Worker = AtFetch(local: Checkpoint) | AtSave(local: Checkpoint)

  datatype System = System(db: Database, workers: map<nat, Worker>)

  /** Leaving covers a crash, and a worker that finds its run complete and succeeded. */
  datatype Step =
    | Begin(worker: nat, loads: bool)
    | Persist(worker: nat)
    | Save(worker: nat)
    | Finish(worker: nat)
    | GiveUp(worker: nat)
    | Leave(worker: nat)

  /** The saved checkpoint, or a new one if there is none or it cannot be loaded. */
  function Loaded(u: Upstream, db: Database, loads: bool): Checkpoint {
    if loads && db.coverage.Some? then db.coverage.value else NewCheckpoint(u)
  }

  function Rows(u: Upstream, c: Checkpoint): set<Observation> {
    set o | o in FetchPage(u, c.nextOffset).observations
  }

  /** Completing a run also merges the worker's two counters into the saved checkpoint. */
  function Completed(db: Database, c: Checkpoint): Database {
    var coverage :=
      if db.coverage.Some?
      then Some(db.coverage.value.(pages := c.pages, observations := c.observations))
      else None;
    db.(coverage := coverage, status := RunSucceeded)
  }

  /** One transaction or failure of one worker; a step a worker cannot take does nothing. */
  function Next(u: Upstream, s: System, step: Step): System {
    var w := step.worker;
    if step.Begin? then
      System(s.db.(status := Resumed(s.db.status)),
             s.workers[w := AtFetch(Loaded(u, s.db, step.loads))])
    else if w !in s.workers then s
    else
      var c := s.workers[w].local;
      match step
      case Persist(_) =>
        if s.workers[w].AtFetch? && !c.completed && NextRequest(c, u.fingerprint).Some?
        then System(s.db.(stored := s.db.stored + Rows(u, c)), s.workers[w := AtSave(c)]) else s
      case Save(_) =>
        if !s.workers[w].AtSave? then s
        else
          var next := Advance(c, FetchPage(u, c.nextOffset));
          if s.db.status.RunRunning?
          then System(s.db.(coverage := Some(next)), s.workers[w := AtFetch(next)])
          else System(s.db.(status := RunFailed), s.workers - {w})
      case Finish(_) =>
        if s.workers[w].AtFetch? && c.completed then System(Completed(s.db, c), s.workers - {w}) else s
      case GiveUp(_) => System(s.db.(status := RunFailed), s.workers - {w})
      case Leave(_) => s.(workers := s.workers - {w})
  }

  /** Finishing a complete backfill succeeds the run, giving up fails it, and leaving it changes nothing stored. */
  lemma EndsIs(u: Upstream, s: System, step: Step)
    requires u.Valid() && step.worker in s.workers
    ensures var t := Next(u, s, step);
            && (step.Finish? && s.workers[step.worker].AtFetch? && s.workers[step.worker].local.completed ==>
                  t.db.status == RunSucceeded && t.db.stored == s.db.stored)
            && (step.GiveUp? ==> t.db == Database(s.db.stored, s.db.coverage, RunFailed))
            && (step.Leave? ==> t.db == s.db)
  {
  }

  function Start(): System {
    System(Database({}, None, RunRunning), map[])
  }

  function Execute(u: Upstream, steps: seq<Step>): System {
    if steps == [] then Start() else Next(u, Execute(u, steps[..|steps| - 1]), steps[|steps| - 1])
  }

  // ----- What every interleaving keeps

  /** A checkpoint never runs ahead of what is stored. */
  ghost predicate Backed(u: Upstream, db: Database, c: Checkpoint)
    requires u.Valid()
  {
    Placed(u, c) && u.Before(c.nextOffset) <= db.stored
  }

  ghost predicate WorkerSound(u: Upstream, db: Database, w: Worker)
    requires u.Valid()
  {
    && Backed(u, db, w.local)
    && (w.local.completed ==> db.coverage.Some?)
    && (w.AtSave? ==> !w.local.completed && Rows(u, w.local) <= db.stored)
  }

  ghost predicate Consistent(u: Upstream, s: System)
    requires u.Valid()
  {
    && s.db.stored <= u.All()
    && (s.db.coverage.Some? ==> Backed(u, s.db, s.db.coverage.value))
    && (s.db.status.RunSucceeded? ==> s.db.stored == u.All() && s.db.coverage.Some?)
    && (forall w :: w in s.workers ==> WorkerSound(u, s.db, s.workers[w]))
  }

  /** A page of n rows from an offset holds the rows between the two. */
  lemma PageRows(u: Upstream, offset: nat, n: nat)
    requires offset + n <= |u.rows|
    ensures u.Before(offset + n) == u.Before(offset) + Members(u.rows[offset..offset + n])
  {
    var page := u.rows[offset..offset + n];
    forall i | offset <= i < offset + n ensures u.rows[i] in Members(page) { assert page[i - offset] == u.rows[i]; }
  }

  function Members(rows: seq<Observation>): set<Observation> {
    set o | o in rows
  }

  lemma RowsWithin(u: Upstream, c: Checkpoint)
    requires u.Valid() && Placed(u, c)
    ensures Rows(u, c) <= u.All()
    ensures u.Before(Advance(c, FetchPage(u, c.nextOffset)).nextOffset) == u.Before(c.nextOffset) + Rows(u, c)
  {
    var page := FetchPage(u, c.nextOffset).observations;
    PageLength(u, c.nextOffset);
    if c.nextOffset + |page| <= |u.rows| { PageRows(u, c.nextOffset, |page|); }
  }

  lemma AllBefore(u: Upstream, db: Database, c: Checkpoint)
    requires u.Valid() && Backed(u, db, c) && c.completed
    ensures u.All() <= db.stored
  {
    assert u.Before(|u.rows|) == u.All();
  }

  lemma SaveBacked(u: Upstream, db: Database, c: Checkpoint)
    requires u.Valid() && Backed(u, db, c) && !c.completed && Rows(u, c) <= db.stored
    ensures Backed(u, db, Advance(c, FetchPage(u, c.nextOffset)))
  {
    AdvancePlaced(u, c);
    RowsWithin(u, c);
  }

  lemma NewCounted(u: Upstream)
    requires u.Valid()
    ensures Counted(u, NewCheckpoint(u)) && Placed(u, NewCheckpoint(u)) && PagesRead(u, NewCheckpoint(u)) == 0
    ensures u.Before(0) == {}
  {
    var filled := (|u.rows| + u.limit - 1) / u.limit;
    ReachAll(u, 0, filled);
    if |u.rows| > 0 { FilledPages(u, filled); }
    CountedIsRecounted(u, NewCheckpoint(u));
  }

  /** The merge raises the counters of the saved checkpoint and leaves its offset where it was. */
  lemma MergeBacked(u: Upstream, db: Database, c: Checkpoint)
    requires u.Valid() && Backed(u, db, c) && c.completed && db.coverage.Some? && Backed(u, db, db.coverage.value)
    ensures Backed(u, Completed(db, c), Completed(db, c).coverage.value)
  {
    var saved := db.coverage.value;
    assert Recounted(u, Completed(db, c).coverage.value) == Recounted(u, saved);
  }

  lemma PersistConsistent(u: Upstream, s: System, w: nat)
    requires u.Valid() && Consistent(u, s) && w in s.workers
    ensures Consistent(u, Next(u, s, Persist(w)))
  {
    assert WorkerSound(u, s.db, s.workers[w]);
    RowsWithin(u, s.workers[w].local);
  }

  lemma SaveConsistent(u: Upstream, s: System, w: nat)
    requires u.Valid() && Consistent(u, s) && w in s.workers && s.workers[w].AtSave?
    ensures Consistent(u, Next(u, s, Save(w)))
  {
    assert WorkerSound(u, s.db, s.workers[w]);
    SaveBacked(u, s.db, s.workers[w].local);
  }

  lemma FinishConsistent(u: Upstream, s: System, w: nat)
    requires u.Valid() && Consistent(u, s) && w in s.workers && s.workers[w].local.completed
    ensures Consistent(u, Next(u, s, Finish(w)))
  {
    var c := s.workers[w].local;
    assert WorkerSound(u, s.db, s.workers[w]);
    AllBefore(u, s.db, c);
    MergeBacked(u, s.db, c);
  }

  lemma NextConsistent(u: Upstream, s: System, step: Step)
    requires u.Valid() && Consistent(u, s)
    ensures Consistent(u, Next(u, s, step))
  {
    var w := step.worker;
    if step.Begin? { NewCounted(u); }
    if w in s.workers {
      if step.Persist? { PersistConsistent(u, s, w); }
      if step.Save? && s.workers[w].AtSave? { SaveConsistent(u, s, w); }
      if step.Finish? && s.workers[w].local.completed { FinishConsistent(u, s, w); }
    }
  }

  /**
   * After any interleaving of any number of workers, with crashes and failures at every point, no checkpoint is
   * ahead of the stored rows, its counters are never too low, and a succeeded run has stored the whole list.
   */
  lemma {:induction false} AlwaysConsistent(u: Upstream, steps: seq<Step>)
    requires u.Valid()
    ensures Consistent(u, Execute(u, steps))
  {
    if steps != [] {
      var k := |steps| - 1;
      AlwaysConsistent(u, steps[..k]);
      NextConsistent(u, Execute(u, steps[..k]), steps[k]);
    }
  }

  /** Whenever a run or its checkpoint is complete, it has stored what an undisturbed backfill stores. */
  lemma CompleteMeansAll(u: Upstream, steps: seq<Step>)
    requires u.Valid()
    ensures var db := Execute(u, steps).db;
            && (db.status.RunSucceeded? ==> db.stored == u.All())
            && (db.coverage.Some? && db.coverage.value.completed ==> db.stored == u.All())
            && (db.coverage.Some? ==>
                  && db.coverage.value.nextOffset <= db.coverage.value.observations
                  && u.Before(db.coverage.value.nextOffset) <= db.stored
                  && NextRequest(db.coverage.value, u.fingerprint) == Some(db.coverage.value.nextOffset)
                  && forall f :: NextRequest(db.coverage.value, f).Some? <==> f == u.fingerprint)
  {
    AlwaysConsistent(u, steps);
    var db := Execute(u, steps).db;
    if db.coverage.Some? && db.coverage.value.completed { AllBefore(u, db, db.coverage.value); }
  }

  // ----- When the counters are right

  ghost predicate AllCounted(u: Upstream, s: System)
    requires u.Valid()
  {
    && (s.db.coverage.Some? ==> Counted(u, s.db.coverage.value))
    && (forall w :: w in s.workers ==> Counted(u, s.workers[w].local))
  }

  /** Every step but the completion of a run keeps the counters right. */
  lemma NextKeepsCounts(u: Upstream, s: System, step: Step)
    requires u.Valid() && Consistent(u, s) && AllCounted(u, s) && !step.Finish?
    ensures AllCounted(u, Next(u, s, step))
  {
    NewCounted(u);
    var w := step.worker;
    if step.Save? && w in s.workers && s.workers[w].AtSave? {
      assert WorkerSound(u, s.db, s.workers[w]);
      AdvanceCounted(u, s.workers[w].local);
    }
  }

  ghost predicate CanFinish(s: System, w: nat) {
    w in s.workers && s.workers[w].AtFetch? && s.workers[w].local.completed
  }

  /**
   * A completion keeps the counters right exactly when the checkpoint saved at that moment is itself complete, and
   * leaves observations equal to next_offset exactly when that checkpoint had reached the end of the list.
   */
  lemma FinishKeepsCountsExactly(u: Upstream, s: System, w: nat)
    requires u.Valid() && Consistent(u, s) && AllCounted(u, s) && CanFinish(s, w)
    ensures s.db.coverage.Some? && Next(u, s, Finish(w)).db.coverage.Some?
    ensures AllCounted(u, Next(u, s, Finish(w))) <==> s.db.coverage.value.completed
    ensures var c := Next(u, s, Finish(w)).db.coverage.value;
            c.observations == c.nextOffset <==> s.db.coverage.value.nextOffset == |u.rows|
  {
    var local := s.workers[w].local;
    assert WorkerSound(u, s.db, s.workers[w]) && Counted(u, local);
    var next := Next(u, s, Finish(w));
    assert next.db.coverage.value.pages == PagesNeeded(u);
  }

  /** One worker at a time: a worker begins only when no other is at work. */
  ghost predicate Solo(u: Upstream, steps: seq<Step>) {
    forall i :: 0 <= i < |steps| && steps[i].Begin? ==> Execute(u, steps[..i]).workers.Keys <= {steps[i].worker}
  }

  lemma SoloPrefix(u: Upstream, steps: seq<Step>, k: nat)
    requires Solo(u, steps) && k <= |steps|
    ensures Solo(u, steps[..k])
  {
    forall i | 0 <= i < k && steps[..k][i].Begin?
      ensures Execute(u, steps[..k][..i]).workers.Keys <= {steps[..k][i].worker}
    {
      assert steps[..k][..i] == steps[..i];
    }
  }

  /** At most one worker, and what it holds complete is what is saved. */
  ghost predicate Alone(s: System) {
    && (forall v, w :: v in s.workers && w in s.workers ==> v == w)
    && (forall w :: w in s.workers && s.workers[w].local.completed ==> s.db.coverage == Some(s.workers[w].local))
  }

  lemma NextAlone(u: Upstream, s: System, step: Step)
    requires u.Valid() && Consistent(u, s) && AllCounted(u, s) && Alone(s)
    requires step.Begin? ==> s.workers.Keys <= {step.worker}
    ensures AllCounted(u, Next(u, s, step)) && Alone(Next(u, s, step))
  {
    var w := step.worker;
    if step.Finish? && CanFinish(s, w) {
      FinishKeepsCountsExactly(u, s, w);
    } else if !step.Finish? {
      NextKeepsCounts(u, s, step);
      if step.Begin? { forall v | v in s.workers ensures v == w { assert v in s.workers.Keys; } }
    }
  }

  /**
   * While workers do not overlap every checkpoint counts right: observations = next_offset, however often they crash.
   */
  lemma {:induction false} SoloCounts(u: Upstream, steps: seq<Step>)
    requires u.Valid() && Solo(u, steps)
    ensures AllCounted(u, Execute(u, steps)) && Alone(Execute(u, steps))
  {
    if steps != [] {
      var k := |steps| - 1;
      SoloPrefix(u, steps, k);
      SoloCounts(u, steps[..k]);
      AlwaysConsistent(u, steps[..k]);
      NextAlone(u, Execute(u, steps[..k]), steps[k]);
    }
  }

  // ----- A history of two workers that leaves the counters wrong

  const FIRST := Observation("2024-01-01", "1")
  const SECOND := Observation("2024-01-02", "2")
  const PAIR := Upstream([FIRST, SECOND], 1, "f", true, true)

  function At(offset: nat, pages: nat, observations: nat, completed: bool): Checkpoint {
    Checkpoint("f", offset, pages, observations, completed)
  }

  lemma PairPages()
    ensures Advance(At(0, 0, 0, false), FetchPage(PAIR, 0)) == At(1, 1, 1, false)
    ensures Advance(At(1, 1, 1, false), FetchPage(PAIR, 1)) == At(2, 2, 2, true)
    ensures Rows(PAIR, At(0, 0, 0, false)) == {FIRST} && Rows(PAIR, At(1, 1, 1, false)) == {SECOND}
    ensures PagesNeeded(PAIR) == 2 && PAIR.Valid()
  {
    assert FetchPage(PAIR, 0).observations == [FIRST];
    assert FetchPage(PAIR, 1).observations == [SECOND];
    assert (2 + 1 - 1) / 1 == 2;
  }

  function Overlap(): seq<Step> {
    [Begin(0, true), Begin(1, true), Persist(0), Persist(1), Save(1), Persist(1), Save(1), Save(0), Finish(1)]
  }

  lemma Stepwise(u: Upstream, steps: seq<Step>, k: nat, j: nat)
    requires j == k + 1 <= |steps|
    ensures Execute(u, steps[..j]) == Next(u, Execute(u, steps[..k]), steps[k])
  {
    assert steps[..j][..k] == steps[..k];
  }

  lemma OverlapBegins()
    ensures Execute(PAIR, Overlap()[..4]) ==
            System(Database({FIRST}, None, RunRunning),
                   map[0 := AtSave(At(0, 0, 0, false)), 1 := AtSave(At(0, 0, 0, false))])
  {
    PairPages();
    var steps := Overlap();
    assert steps[..0] == [];
    Stepwise(PAIR, steps, 0, 1);
    assert Execute(PAIR, steps[..1]) == System(Start().db, map[0 := AtFetch(At(0, 0, 0, false))]);
    Stepwise(PAIR, steps, 1, 2);
    assert Execute(PAIR, steps[..2]) ==
      System(Start().db, map[0 := AtFetch(At(0, 0, 0, false)), 1 := AtFetch(At(0, 0, 0, false))]);
    Stepwise(PAIR, steps, 2, 3);
    Stepwise(PAIR, steps, 3, 4);
  }

  const SLOW := AtSave(At(0, 0, 0, false))

  lemma OverlapFirst()
    ensures Execute(PAIR, Overlap()[..5]) ==
            System(Database({FIRST}, Some(At(1, 1, 1, false)), RunRunning),
                   map[0 := SLOW, 1 := AtFetch(At(1, 1, 1, false))])
  {
    PairPages();
    OverlapBegins();
    Stepwise(PAIR, Overlap(), 4, 5);
  }

  lemma OverlapSecond()
    ensures Execute(PAIR, Overlap()[..6]) ==
            System(Database({FIRST, SECOND}, Some(At(1, 1, 1, false)), RunRunning),
                   map[0 := SLOW, 1 := AtSave(At(1, 1, 1, false))])
  {
    PairPages();
    OverlapFirst();
    Stepwise(PAIR, Overlap(), 5, 6);
  }

  lemma OverlapReads()
    ensures Execute(PAIR, Overlap()[..7]) ==
            System(Database({FIRST, SECOND}, Some(At(2, 2, 2, true)), RunRunning),
                   map[0 := SLOW, 1 := AtFetch(At(2, 2, 2, true))])
  {
    PairPages();
    OverlapSecond();
    Stepwise(PAIR, Overlap(), 6, 7);
  }

  /**
   * A slow worker saves its first page over the finished checkpoint of another, which then completes the run: the
   * saved checkpoint is at row 1 of 2, counts 2 pages and 2 observations, and is not complete. Resumed under a limit
   * of the 2 pages the list needs, it would never complete.
   */
  lemma OverlapMiscounts()
    ensures var db := Execute(PAIR, Overlap()).db;
            && db == Database({FIRST, SECOND}, Some(At(1, 2, 2, false)), RunSucceeded)
            && !Counted(PAIR, db.coverage.value)
            && PAIR.Valid() && LastPage(PAIR, db.coverage.value) == 3 > PagesNeeded(PAIR)
  {
    PairPages();
    assert (1 + 1 - 1) / 1 == 1;
    OverlapReads();
    var steps := Overlap();
    Stepwise(PAIR, steps, 7, 8);
    assert Execute(PAIR, steps[..8]) ==
           System(Database({FIRST, SECOND}, Some(At(1, 1, 1, false)), RunRunning),
                  map[0 := AtFetch(At(1, 1, 1, false)), 1 := AtFetch(At(2, 2, 2, true))]);
    Stepwise(PAIR, steps, 8, 9);
    assert steps[..9] == steps;
  }

  // ----- The loop of one worker

  /** Where a page's work may break off: an error fails the run, a crash leaves it as it is. */
  datatype Fault = NoFault | ErrorBeforePersist | CrashBeforePersist | CrashAfterPersist | ErrorInSave | CrashAfterSave

  datatype Outcome = Complete | Error | Crashed

  ghost predicate NothingStored(fault: Fault) {
    fault == ErrorBeforePersist || fault == CrashBeforePersist
  }

  /** A page is checkpointed once it is stored, by a running run. */
  ghost predicate Saved(fault: Fault, status: Status) {
    (fault == NoFault || fault == CrashAfterSave) && status == RunRunning
  }

  /** How a page's work ends: an error marks the run failed, a crash leaves it as it was. */
  ghost predicate Stopped(stop: Option<Outcome>, fault: Fault, before: Status, after: Status) {
    && (stop == Some(Crashed) <==>
        fault == CrashBeforePersist || fault == CrashAfterPersist || (fault == CrashAfterSave && before == RunRunning))
    && (if stop == Some(Error) then after == RunFailed else after == before)
  }

  /** The page number an attempt from a checkpoint would end on, if nothing came in between. */
  function LastPage(u: Upstream, c: Checkpoint): int
    requires u.Valid()
  {
    c.pages + PagesNeeded(u) - PagesRead(u, c)
  }

  class Backfill {
    var stored: set<Observation>
    var coverage: Option<Checkpoint>
    var status: Status

    ghost function Db(): Database
      reads this
    {
      Database(stored, coverage, status)
    }

    ghost predicate Valid(u: Upstream)
      reads this
    {
      u.Valid() && Consistent(u, System(Db(), map[]))
    }

    constructor (u: Upstream)
      requires u.Valid()
      ensures Valid(u) && Db() == Execute(u, []).db
    {
      stored, coverage, status := {}, None, RunRunning;
    }

    /** Fetches, stores and checkpoints the page after a checkpoint. */
    method OnePage(u: Upstream, checkpoint: Checkpoint, fault: Fault) returns (next: Checkpoint, stop: Option<Outcome>)
      requires Valid(u) && Backed(u, Db(), checkpoint) && !checkpoint.completed
      modifies this
      ensures Valid(u)
      ensures stop.None? ==> Backed(u, Db(), next) && coverage == Some(next) && status == old(status)
      ensures stop.None? ==> next.pages == checkpoint.pages + 1 && LastPage(u, next) == LastPage(u, checkpoint)
      ensures stop.None? <==> fault.NoFault? && old(status).RunRunning?
      ensures stop.Some? ==> !stop.value.Complete? && (fault.NoFault? ==> stop.value.Error? && status.RunFailed?)
      ensures Stopped(stop, fault, old(status), status)
      ensures stored == if NothingStored(fault) then old(stored) else old(stored) + Rows(u, checkpoint)
      ensures !Saved(fault, old(status)) ==> coverage == old(coverage)
      ensures Saved(fault, old(status)) ==> coverage == Some(Advance(checkpoint, FetchPage(u, checkpoint.nextOffset)))
    {
      next := checkpoint;
      var offset := NextRequest(checkpoint, u.fingerprint);
      var page := FetchPage(u, offset.value);
      if fault.ErrorBeforePersist? {
        status := RunFailed;
        return next, Some(Error);
      }
      if fault.CrashBeforePersist? {
        return next, Some(Crashed);
      }
      StoreRows(u, checkpoint, page);
      if fault.CrashAfterPersist? {
        return next, Some(Crashed);
      }
      AdvancePlaced(u, checkpoint);
      next := Advance(checkpoint, page);
      if fault.ErrorInSave? || !status.RunRunning? {
        status := RunFailed;
        return next, Some(Error);
      }
      coverage := Some(next);
      if fault.CrashAfterSave? {
        return next, Some(Crashed);
      }
      return next, None;
    }

    method StoreRows(u: Upstream, checkpoint: Checkpoint, page: Response)
      requires Valid(u) && Backed(u, Db(), checkpoint) && !checkpoint.completed
      requires page == FetchPage(u, checkpoint.nextOffset)
      modifies `stored
      ensures Valid(u) && stored == old(stored) + Rows(u, checkpoint)
      ensures Backed(u, Db(), Advance(checkpoint, page))
    {
      RowsWithin(u, checkpoint);
      stored := stored + set o | o in page.observations;
      SaveBacked(u, Db(), checkpoint);
    }

    /** Marks the run succeeded and merges the worker's counters into the saved checkpoint. */
    method CompleteRun(u: Upstream, checkpoint: Checkpoint)
      requires Valid(u) && Backed(u, Db(), checkpoint) && checkpoint.completed && coverage.Some?
      modifies `status, `coverage
      ensures Valid(u) && Db() == Completed(old(Db()), checkpoint)
    {
      AllBefore(u, Db(), checkpoint);
      MergeBacked(u, Db(), checkpoint);
      coverage := Some(coverage.value.(pages := checkpoint.pages, observations := checkpoint.observations));
      status := RunSucceeded;
    }

    /**
     * One attempt at the run: it picks up at the saved checkpoint, or at the start if that does not load, and stops at
     * the page limit. Undisturbed, it completes exactly when its checkpoint already is complete, or the run is not
     * marked succeeded and the pages left fit the limit; otherwise it ends in an error.
     */
    method Resume(u: Upstream, maxPages: nat, loads: bool, faults: nat -> Fault) returns (outcome: Outcome)
      requires Valid(u)
      modifies this
      ensures Valid(u)
      ensures outcome.Complete? ==> status.RunSucceeded? && stored == u.All()
      ensures outcome.Error? ==> status.RunFailed?
      ensures outcome.Crashed? ==> status == if old(status) == RunFailed then RunRunning else old(status)
      ensures var c := Loaded(u, old(Db()), loads);
              (forall k :: faults(k).NoFault?) ==>
                && (outcome.Complete? <==> c.completed || (!old(status).RunSucceeded? && LastPage(u, c) <= maxPages))
                && (!outcome.Complete? ==> outcome.Error? && status.RunFailed?)
    {
      status := Resumed(status);
      NewCounted(u);
      var checkpoint := NewCheckpoint(u);
      if loads && coverage.Some? {
        checkpoint := coverage.value;
      }
      if checkpoint.completed {
        if !status.RunSucceeded? {
          CompleteRun(u, checkpoint);
        }
        return Complete;
      }
      outcome := ReadPages(u, checkpoint, maxPages, faults);
    }

    /** Reads pages from a checkpoint until the list ends, a page fails, or the limit is reached. */
    method ReadPages(u: Upstream, start: Checkpoint, maxPages: nat, faults: nat -> Fault) returns (outcome: Outcome)
      requires Valid(u) && Backed(u, Db(), start) && !start.completed && !status.RunFailed?
      modifies this
      ensures Valid(u)
      ensures outcome.Complete? ==> status.RunSucceeded? && stored == u.All()
      ensures outcome.Error? ==> status.RunFailed?
      ensures outcome.Crashed? ==> status == old(status)
      ensures (forall k :: faults(k).NoFault?) ==>
                && (outcome.Complete? <==> old(status).RunRunning? && LastPage(u, start) <= maxPages)
                && (!outcome.Complete? ==> outcome.Error? && status.RunFailed?)
    {
      var checkpoint, pageNo := start, start.pages;
      while pageNo < maxPages
        invariant Valid(u) && Backed(u, Db(), checkpoint) && !checkpoint.completed && pageNo == checkpoint.pages
        invariant status == old(status) && LastPage(u, checkpoint) == LastPage(u, start)
      {
        var stop;
        checkpoint, stop := OnePage(u, checkpoint, faults(pageNo));
        if stop.Some? {
          return stop.value;
        }
        if checkpoint.completed {
          CompleteRun(u, checkpoint);
          return Complete;
        }
        pageNo := pageNo + 1;
      }
      PagesLeft(u, checkpoint);
      status := RunFailed;
      return Error;
    }
  }

  /** An incomplete checkpoint has a page left to read. */
  lemma PagesLeft(u: Upstream, c: Checkpoint)
    requires u.Valid() && Placed(u, c) && !c.completed
    ensures LastPage(u, c) > c.pages
  {
  }
}
