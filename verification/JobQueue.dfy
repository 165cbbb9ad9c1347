/** Whole runs of the job queue: any number of workers and clients, in any interleaving. */
module JobQueue {
  import opened Results
  import opened JobRecords
  import opened JobMeaning

  /** The three tables, grouped by job. */
  type Tables = map<Id, Record>

  /** One committed transaction and the time at which it ran. */
  datatype Event = Event(op: Op, now: int)

  predicate Taken(t: Tables, kind: string, key: string) {
    exists id :: id in t && t[id].job.kind == kind && t[id].job.key == key
  }

  /** Rows added by enqueuing; an existing (kind, key) adds none. */
  function Added(t: Tables, e: Event): Tables {
    match e.op
    case Enqueue(id, kind, key, maxAttempts, availableAt) =>
      if Taken(t, kind, key) then map[] else map[id := NewRecord(kind, key, maxAttempts, availableAt, None, e.now)]
    case CreateRun(id, key) =>
      if Taken(t, SCENARIO, key) then map[] else map[id := NewRecord(SCENARIO, key, 3, e.now, Some(RunQueued), e.now)]
    case _ => map[]
  }

  function Next(t: Tables, e: Event): Tables {
    Added(t, e) + map id | id in t :: Evolve(t[id], id, e.op, e.now)
  }

  function Execute(events: seq<Event>): Tables {
    if events == [] then map[] else Next(Execute(events[..|events| - 1]), events[|events| - 1])
  }

  /** New ids are fresh, and claims handed to the Go queue's Fail were issued by it. */
  ghost predicate Permitted(t: Tables, e: Event) {
    && (e.op.Enqueue? || e.op.CreateRun? ==> e.op.id !in t)
    && (forall id :: id in t ==> Admissible(t[id], id, e.op))
  }

  /** A run of the system: every transaction is permitted where it happens, and the clock never goes back. */
  ghost predicate History(events: seq<Event>) {
    && (forall i :: 0 <= i < |events| ==> Permitted(Execute(events[..i]), events[i]))
    && (forall i, j :: 0 <= i <= j < |events| ==> events[i].now <= events[j].now)
  }

  lemma HistoryPrefix(events: seq<Event>, k: nat)
    requires History(events) && k <= |events|
    ensures History(events[..k])
  {
    var p := events[..k];
    forall i | 0 <= i < |p| ensures Permitted(Execute(p[..i]), p[i]) {
      assert p[..i] == events[..i];
    }
  }

  /** The last event of a history. */
  lemma LastStep(events: seq<Event>, k: nat)
    requires History(events) && k < |events|
    ensures History(events[..k]) && Permitted(Execute(events[..k]), events[k])
    ensures Execute(events[..k + 1]) == Next(Execute(events[..k]), events[k])
  {
    HistoryPrefix(events, k);
    assert events[..k + 1][..k] == events[..k];
  }

  // ----- The ledger in every reachable state

  ghost predicate AllSound(t: Tables) {
    forall id :: id in t ==> Sound(t[id], id)
  }

  lemma NewIsSound(t: Tables, e: Event, id: Id)
    requires Permitted(t, e) && id in Added(t, e)
    ensures id !in t && Sound(Added(t, e)[id], id)
  {
  }

  lemma NextKeepsSound(t: Tables, e: Event)
    requires AllSound(t) && Permitted(t, e)
    ensures AllSound(Next(t, e))
  {
    forall id | id in Next(t, e) ensures Sound(Next(t, e)[id], id) {
      if id in Added(t, e) { NewIsSound(t, e, id); } else { EvolveKeepsSound(t[id], id, e.op, e.now); }
    }
  }

  /**
   * In every reachable state, whatever the interleaving: attempts are exactly 1..attempt_count, an open
   * one is the newest and its job is running or cancelled, a claimable job has attempts left, and every
   * claim ever issued names the worker its ledger row names.
   */
  lemma {:induction false} LedgerAlways(events: seq<Event>)
    requires History(events)
    ensures AllSound(Execute(events))
  {
    if events != [] {
      var k := |events| - 1;
      assert events[..k + 1] == events;
      LastStep(events, k);
      LedgerAlways(events[..k]);
      NextKeepsSound(Execute(events[..k]), events[k]);
    }
  }

  ghost predicate AllOpenWhileRunning(t: Tables) {
    forall id :: id in t ==> OpenWhileRunning(t[id])
  }

  ghost predicate NoRunCancelled(events: seq<Event>) {
    forall i :: 0 <= i < |events| ==> !events[i].op.CancelRun?
  }

  lemma {:induction false} OpenAttemptsAlways(events: seq<Event>)
    requires History(events) && NoRunCancelled(events)
    ensures AllOpenWhileRunning(Execute(events))
  {
    if events != [] {
      var k := |events| - 1;
      assert events[..k + 1] == events;
      LastStep(events, k);
      OpenAttemptsAlways(events[..k]);
      LedgerAlways(events[..k]);
      NextKeepsOpen(Execute(events[..k]), events[k]);
    }
  }

  /** As long as no run is cancelled through the risk service, an attempt is open exactly while its job runs. */
  lemma OpenExactlyWhileRunning(events: seq<Event>, id: Id)
    requires History(events) && NoRunCancelled(events) && id in Execute(events)
    ensures var r := Execute(events)[id];
            r.job.state.Running? <==> exists n :: n in r.attempts && r.attempts[n].outcome.None?
  {
    LedgerAlways(events);
    OpenAttemptsAlways(events);
    var r := Execute(events)[id];
    if r.job.state.Running? { assert Sound(r, id) && r.job.attemptCount in r.attempts; }
  }

  lemma NextKeepsOpen(t: Tables, e: Event)
    requires AllSound(t) && AllOpenWhileRunning(t) && Permitted(t, e) && !e.op.CancelRun?
    ensures AllOpenWhileRunning(Next(t, e))
  {
    forall id | id in t ensures OpenWhileRunning(Evolve(t[id], id, e.op, e.now)) {
      EvolveKeepsOpenWhileRunning(t[id], id, e.op, e.now);
    }
  }

  function CreatedRun(): Record { NewRecord(SCENARIO, "k", 3, 0, Some(RunQueued), 0) }
  function ClaimedRun(): Record { ClaimRecord(CreatedRun(), Python, 0, "w", 60, 1) }

  lemma ThreeEvents(a: Event, b: Event, c: Event)
    ensures Execute([a]) == Next(map[], a)
    ensures Execute([a, b]) == Next(Execute([a]), b)
    ensures Execute([a, b, c]) == Next(Execute([a, b]), c)
    ensures [a, b, c][..0] == [] && [a, b, c][..1] == [a] && [a, b, c][..2] == [a, b]
  {
    assert [a][..0] == [] && [a, b][..1] == [a] && [a, b, c][..2] == [a, b];
  }

  const CREATE := Event(CreateRun(0, "k"), 0)
  const CLAIM := Event(ClaimJob(Python, 0, "w", 60), 1)
  const CANCEL := Event(CancelRun(0), 2)

  lemma CancelledWhileRunning()
    ensures Next(map[], CREATE) == map[0 := CreatedRun()]
    ensures Next(map[0 := CreatedRun()], CLAIM) == map[0 := ClaimedRun()]
    ensures Next(map[0 := ClaimedRun()], CANCEL) == map[0 := CancelRunRecord(ClaimedRun(), 2)]
  {
    assert Evolve(CreatedRun(), 0, CLAIM.op, 1) == ClaimedRun();
    assert Evolve(ClaimedRun(), 0, CANCEL.op, 2) == CancelRunRecord(ClaimedRun(), 2);
  }

  lemma IsHistory(a: Event, b: Event, c: Event)
    requires Permitted(map[], a) && Permitted(Execute([a]), b) && Permitted(Execute([a, b]), c)
    requires a.now <= b.now <= c.now
    ensures History([a, b, c])
  {
    ThreeEvents(a, b, c);
    var events := [a, b, c];
    forall i | 0 <= i < |events| ensures Permitted(Execute(events[..i]), events[i]) {
      assert i == 0 || i == 1 || i == 2;
    }
  }

  /**
   * A concrete history: a run is created, claimed and cancelled through the risk service, and its attempt stays open.
   */
  lemma CancelRunLeavesAttemptOpen()
    ensures History([CREATE, CLAIM, CANCEL]) && !AllOpenWhileRunning(Execute([CREATE, CLAIM, CANCEL]))
  {
    ThreeEvents(CREATE, CLAIM, CANCEL);
    CancelledWhileRunning();
    IsHistory(CREATE, CLAIM, CANCEL);
    var last := CancelRunRecord(ClaimedRun(), 2);
    assert !OpenWhileRunning(last) by { assert 1 in last.attempts && last.attempts[1].outcome.None?; }
    assert 0 in Execute([CREATE, CLAIM, CANCEL]);
  }

  // ----- Idempotent enqueuing

  ghost predicate KeysUnique(t: Tables) {
    forall i, j :: i in t && j in t && t[i].job.kind == t[j].job.kind && t[i].job.key == t[j].job.key ==> i == j
  }

  lemma NextKeepsKeys(t: Tables, e: Event)
    requires AllSound(t) && KeysUnique(t) && Permitted(t, e)
    ensures KeysUnique(Next(t, e))
  {
    forall id | id in t ensures Forward(t[id], Evolve(t[id], id, e.op, e.now)) {
      EvolveForward(t[id], id, e.op, e.now);
    }
  }

  /** No two jobs ever share a kind and an idempotency key. */
  lemma {:induction false} KeysAlwaysUnique(events: seq<Event>)
    requires History(events)
    ensures KeysUnique(Execute(events))
  {
    if events != [] {
      var k := |events| - 1;
      assert events[..k + 1] == events;
      LastStep(events, k);
      KeysAlwaysUnique(events[..k]);
      LedgerAlways(events[..k]);
      NextKeepsKeys(Execute(events[..k]), events[k]);
    }
  }

  // ----- Nothing is undone

  lemma ForwardTransitive(p: Record, q: Record, r: Record)
    requires Forward(p, q) && Forward(q, r)
    ensures Forward(p, r)
  {
  }

  /** One event, seen from a job that exists before it. */
  lemma Seen(events: seq<Event>, k: nat, j: nat, id: Id)
    requires History(events) && j == k + 1 <= |events| && id in Execute(events[..k])
    ensures id in Execute(events[..j])
    ensures Execute(events[..j])[id] == Evolve(Execute(events[..k])[id], id, events[k].op, events[k].now)
    ensures Sound(Execute(events[..k])[id], id) && Admissible(Execute(events[..k])[id], id, events[k].op)
  {
    LastStep(events, k);
    LedgerAlways(events[..k]);
  }

  lemma SeenForward(events: seq<Event>, k: nat, j: nat, id: Id)
    requires History(events) && j == k + 1 <= |events| && id in Execute(events[..k])
    ensures id in Execute(events[..j]) && Forward(Execute(events[..k])[id], Execute(events[..j])[id])
  {
    Seen(events, k, j, id);
    EvolveForward(Execute(events[..k])[id], id, events[k].op, events[k].now);
  }

  /**
   * Between any two points of a history: a job is never deleted, its row is frozen once terminal, its
   * attempt count never falls, and a closed attempt or a finished scenario run never changes again.
   */
  lemma {:induction false} NothingUndone(events: seq<Event>, i: nat, j: nat, id: Id)
    requires History(events) && i <= j <= |events| && id in Execute(events[..i])
    ensures id in Execute(events[..j])
    ensures Forward(Execute(events[..i])[id], Execute(events[..j])[id])
    decreases j - i
  {
    if i < j {
      var k := j - 1;
      NothingUndone(events, i, k, id);
      SeenForward(events, k, j, id);
      ForwardTransitive(Execute(events[..i])[id], Execute(events[..k])[id], Execute(events[..j])[id]);
    }
  }

  /** Whether the k-th event completed job id. */
  ghost predicate Completes(events: seq<Event>, k: nat, id: Id)
    requires k < |events|
  {
    var t, op := Execute(events[..k]), events[k].op;
    id in t && op.Complete? && op.claim.id == id &&
      CompleteReply(t[id], op.client, op.claim, op.output, events[k].now).Accepted?
  }

  /** A job succeeds at most once, whoever tries. */
  lemma SucceedsAtMostOnce(events: seq<Event>, i: nat, j: nat, id: Id)
    requires History(events) && i < |events| && j < |events|
    requires Completes(events, i, id) && Completes(events, j, id)
    ensures i == j
  {
    if i < j {
      SucceededStays(events, i, j, id);
    } else if j < i {
      SucceededStays(events, j, i, id);
    }
  }

  lemma SucceededStays(events: seq<Event>, i: nat, j: nat, id: Id)
    requires History(events) && i < j < |events| && Completes(events, i, id)
    ensures !Completes(events, j, id)
  {
    var k := i + 1;
    CompletedSucceeds(events, i, k, id);
    NothingUndone(events, k, j, id);
    assert Execute(events[..j])[id].job.state.Succeeded?;
  }

  lemma AcceptedSucceeds(r: Record, id: Id, op: Op, now: int)
    requires op.Complete? && op.claim.id == id && CompleteReply(r, op.client, op.claim, op.output, now).Accepted?
    ensures Evolve(r, id, op, now).job.state.Succeeded?
  {
  }

  lemma CompletedSucceeds(events: seq<Event>, i: nat, k: nat, id: Id)
    requires History(events) && i < |events| && k == i + 1 && Completes(events, i, id)
    ensures id in Execute(events[..k]) && Execute(events[..k])[id].job.state.Succeeded?
  {
    Seen(events, i, k, id);
    AcceptedSucceeds(Execute(events[..i])[id], id, events[i].op, events[i].now);
  }

  /** The run of a scenario job that the Python client completes. */
  lemma CompletedRun(events: seq<Event>, i: nat, k: nat, id: Id)
    requires History(events) && i < |events| && k == i + 1 && Completes(events, i, id)
    requires events[i].op.client == Python && Execute(events[..i])[id].job.kind == "scenario.revalue"
    ensures id in Execute(events[..k]) && events[i].op.output.Output?
    ensures var run := Execute(events[..k])[id].run;
            run.Some? && Tells(events[i].op.output.state, run.value)
  {
    Seen(events, i, k, id);
    var op := events[i].op;
    CompleteIs(Execute(events[..i])[id], id, op.client, op.claim, op.output, events[i].now);
  }

  lemma RunKept(events: seq<Event>, k: nat, j: nat, id: Id, run: RunState)
    requires History(events) && k <= j <= |events| && id in Execute(events[..k])
    requires Execute(events[..k])[id].run == Some(run)
    requires run != RunQueued && run != RunRunning
    ensures id in Execute(events[..j]) && Execute(events[..j])[id].run == Some(run)
  {
    NothingUndone(events, k, j, id);
  }

  ghost predicate NamesRun(state: string, run: Option<RunState>) {
    && (state == "valid" || state == "degraded" || state == "blocked")
    && (run == Some(RunValid) <==> state == "valid")
    && (run == Some(RunDegraded) <==> state == "degraded")
    && (run == Some(RunBlocked) <==> state == "blocked")
  }

  lemma TellsExactly(state: string, run: RunState)
    requires Tells(state, run)
    ensures NamesRun(state, Some(run)) && run != RunQueued && run != RunRunning
  {
  }

  /** It is and stays in the state the output named: valid, degraded or blocked. */
  lemma RunTellsOutput(events: seq<Event>, i: nat, j: nat, id: Id)
    requires History(events) && i < j <= |events| && Completes(events, i, id)
    requires events[i].op.client == Python && Execute(events[..i])[id].job.kind == "scenario.revalue"
    ensures id in Execute(events[..j]) && events[i].op.output.Output?
    ensures NamesRun(events[i].op.output.state, Execute(events[..j])[id].run)
  {
    var k := i + 1;
    CompletedRun(events, i, k, id);
    var run := Execute(events[..k])[id].run.value;
    TellsExactly(events[i].op.output.state, run);
    RunKept(events, k, j, id, run);
  }

  // ----- The retry bound

  ghost function StateAt(events: seq<Event>, k: nat, id: Id): Option<JobState>
    requires k <= |events|
  {
    var t := Execute(events[..k]);
    if id in t then Some(t[id].job.state) else None
  }

  /** How many of the events from i to j changed the state of job id; renewals change none. */
  ghost function StateChanges(events: seq<Event>, i: nat, j: nat, id: Id): nat
    requires i <= j <= |events|
    decreases j - i
  {
    if i == j then 0
    else
      StateChanges(events, i, j - 1, id)
      + if StateAt(events, j, id) != StateAt(events, j - 1, id) then 1 else 0
  }

  lemma StateChangesStep(events: seq<Event>, i: nat, j: nat, k: nat, id: Id)
    requires i <= k && j == k + 1 <= |events|
    ensures StateChanges(events, i, j, id) ==
            StateChanges(events, i, k, id) + if StateAt(events, j, id) != StateAt(events, k, id) then 1 else 0
  {
  }

  lemma ChangeIsProgress(events: seq<Event>, k: nat, j: nat, id: Id)
    requires History(events) && j == k + 1 <= |events| && id in Execute(events[..k])
    ensures id in Execute(events[..j])
    ensures var r, q := Execute(events[..k])[id].job, Execute(events[..j])[id].job;
            && q.maxAttempts == r.maxAttempts && Progress(q) <= 2 * r.maxAttempts
            && Progress(r) + (if StateAt(events, j, id) != StateAt(events, k, id) then 1 else 0) <= Progress(q)
  {
    Seen(events, k, j, id);
    var r, op, now := Execute(events[..k])[id], events[k].op, events[k].now;
    EvolveForward(r, id, op, now);
    EvolveProgress(r, id, op, now);
  }

  lemma SoundProgress(r: Record, id: Id)
    requires Sound(r, id)
    ensures 0 <= Progress(r.job) <= 2 * r.job.maxAttempts
  {
  }

  lemma StartProgress(events: seq<Event>, i: nat, id: Id)
    requires History(events) && i <= |events| && id in Execute(events[..i])
    ensures 0 <= Progress(Execute(events[..i])[id].job) <= 2 * Execute(events[..i])[id].job.maxAttempts
  {
    HistoryPrefix(events, i);
    LedgerAlways(events[..i]);
    SoundProgress(Execute(events[..i])[id], id);
  }

  /** Each state change moves a job forward, and progress ends at twice its attempt limit. */
  lemma {:induction false} ProgressCounts(events: seq<Event>, i: nat, j: nat, id: Id)
    requires History(events) && i <= j <= |events| && id in Execute(events[..i])
    ensures id in Execute(events[..j])
    ensures var r, q := Execute(events[..i])[id], Execute(events[..j])[id];
            && q.job.maxAttempts == r.job.maxAttempts
            && 0 <= Progress(r.job)
            && Progress(r.job) + StateChanges(events, i, j, id) <= Progress(q.job) <= 2 * r.job.maxAttempts
    decreases j - i
  {
    if i == j {
      StartProgress(events, i, id);
    } else {
      var k := j - 1;
      ProgressCounts(events, i, k, id);
      ChangeIsProgress(events, k, j, id);
      StateChangesStep(events, i, j, k, id);
    }
  }

  /** Over any history a job changes state at most 2 * max_attempts times, though claiming never reads the limit. */
  lemma RetryBound(events: seq<Event>, i: nat, j: nat, id: Id)
    requires History(events) && i <= j <= |events| && id in Execute(events[..i])
    ensures StateChanges(events, i, j, id) <= 2 * Execute(events[..i])[id].job.maxAttempts
  {
    ProgressCounts(events, i, j, id);
  }

  // ----- Fencing

  /** Once lost, whether superseded, stopped or expired, a claim stays lost. */
  lemma {:induction false} LostForGood(events: seq<Event>, i: nat, j: nat, claim: Claim)
    requires History(events) && i <= j < |events|
    requires claim.id in Execute(events[..i]) && Lost(Execute(events[..i])[claim.id], claim, events[i].now)
    ensures claim.id in Execute(events[..j]) && Lost(Execute(events[..j])[claim.id], claim, events[j].now)
    decreases j - i
  {
    if i < j {
      var k := j - 1;
      LostForGood(events, i, k, claim);
      LostStep(events, k, j, claim);
      LostLater(Execute(events[..j])[claim.id], claim, events[k].now, events[j].now);
    }
  }

  /** The j-th event changes nothing about a job. */
  ghost predicate Ineffective(events: seq<Event>, j: nat, id: Id)
    requires j < |events|
  {
    && id in Execute(events[..j]) && id in Execute(events[..j + 1])
    && Execute(events[..j + 1])[id] == Execute(events[..j])[id]
  }

  /** A worker that has lost its claim, by any path, never renews, completes or fails the job again. */
  lemma LostNeverWrites(events: seq<Event>, i: nat, j: nat, claim: Claim)
    requires History(events) && i <= j < |events|
    requires claim.id in Execute(events[..i]) && Lost(Execute(events[..i])[claim.id], claim, events[i].now)
    requires WritesAs(events[j].op, claim)
    ensures Ineffective(events, j, claim.id)
  {
    LostForGood(events, i, j, claim);
    LostWritesNothing(events, j, claim);
  }

  lemma LostWritesNothing(events: seq<Event>, j: nat, claim: Claim)
    requires History(events) && j < |events| && WritesAs(events[j].op, claim)
    requires claim.id in Execute(events[..j]) && Lost(Execute(events[..j])[claim.id], claim, events[j].now)
    ensures Ineffective(events, j, claim.id)
  {
    var k := j + 1;
    LostStep(events, j, k, claim);
  }

  lemma LostStep(events: seq<Event>, k: nat, j: nat, claim: Claim)
    requires History(events) && j == k + 1 <= |events|
    requires claim.id in Execute(events[..k]) && Lost(Execute(events[..k])[claim.id], claim, events[k].now)
    ensures claim.id in Execute(events[..j]) && Lost(Execute(events[..j])[claim.id], claim, events[k].now)
    ensures WritesAs(events[k].op, claim) ==> Execute(events[..j])[claim.id] == Execute(events[..k])[claim.id]
  {
    Seen(events, k, j, claim.id);
    LostStaysLost(Execute(events[..k])[claim.id], claim.id, events[k].op, claim, events[k].now, events[k].now);
  }

  lemma LostLater(r: Record, claim: Claim, now: int, later: int)
    requires Lost(r, claim, now) && now <= later
    ensures Lost(r, claim, later)
  {
  }

  /** A newer claim of the same job, even by the same worker, fences off every older one for good. */
  lemma NewerClaimFences(events: seq<Event>, i: nat, j: nat, older: Claim, newer: Claim)
    requires History(events) && i <= j < |events| && older.id == newer.id && older.attempt < newer.attempt
    requires older.id in Execute(events[..i]) && newer in Execute(events[..i])[older.id].issued
    requires WritesAs(events[j].op, older)
    ensures Ineffective(events, j, older.id)
  {
    Superseded(events, i, older, newer);
    LostNeverWrites(events, i, j, older);
  }

  lemma Superseded(events: seq<Event>, i: nat, older: Claim, newer: Claim)
    requires History(events) && i < |events| && older.id == newer.id && older.attempt < newer.attempt
    requires older.id in Execute(events[..i]) && newer in Execute(events[..i])[older.id].issued
    ensures Lost(Execute(events[..i])[older.id], older, events[i].now)
  {
    HistoryPrefix(events, i);
    LedgerAlways(events[..i]);
    assert Sound(Execute(events[..i])[older.id], older.id);
  }

  /** Two claims of a job for the same attempt are the same claim: leases never overlap. */
  lemma ClaimsDiffer(events: seq<Event>, a: Claim, b: Claim)
    requires History(events) && a.id == b.id && a.id in Execute(events)
    requires a in Execute(events)[a.id].issued && b in Execute(events)[a.id].issued && a.attempt == b.attempt
    ensures a == b
  {
    LedgerAlways(events);
  }

  // ----- Job and scenario run

  ghost predicate AllCoupled(t: Tables) {
    forall id :: id in t ==> Coupled(t[id])
  }

  /** Scenario jobs are created with their run, and worked and cancelled by the steps that move both. */
  ghost predicate KeepsRuns(t: Tables, e: Event) {
    && (e.op.Enqueue? ==> e.op.kind != SCENARIO)
    && (forall id :: id in t ==> !Uncouples(t[id], id, e.op, e.now))
  }

  ghost predicate RunsKept(events: seq<Event>) {
    forall i :: 0 <= i < |events| ==> KeepsRuns(Execute(events[..i]), events[i])
  }

  /** From a coupled state, one transaction keeps all jobs and runs coupled exactly when it is such a step. */
  lemma NextCoupledExactly(t: Tables, e: Event)
    requires AllSound(t) && AllCoupled(t) && Permitted(t, e)
    requires e.op.Enqueue? ==> !Taken(t, e.op.kind, e.op.key)
    ensures AllCoupled(Next(t, e)) <==> KeepsRuns(t, e)
  {
    var next := Next(t, e);
    forall id | id in t ensures id in next && (Coupled(next[id]) <==> !Uncouples(t[id], id, e.op, e.now)) {
      CoupledExactly(t[id], id, e.op, e.now);
    }
    if e.op.Enqueue? { assert e.op.id in next; }
  }

  lemma NextCoupled(t: Tables, e: Event)
    requires AllSound(t) && AllCoupled(t) && Permitted(t, e) && KeepsRuns(t, e)
    ensures AllCoupled(Next(t, e))
  {
    forall id | id in t ensures Coupled(Evolve(t[id], id, e.op, e.now)) {
      CoupledExactly(t[id], id, e.op, e.now);
    }
  }

  lemma RunsKeptPrefix(events: seq<Event>, k: nat)
    requires RunsKept(events) && k <= |events|
    ensures RunsKept(events[..k])
  {
    var p := events[..k];
    forall i | 0 <= i < |p| ensures KeepsRuns(Execute(p[..i]), p[i]) {
      assert p[..i] == events[..i];
    }
  }

  /**
   * Under the Python client, either recovery and the risk service's cancel, every scenario run is at all
   * times in the state its job calls for.
   */
  lemma {:induction false} RunsAlwaysCoupled(events: seq<Event>)
    requires History(events) && RunsKept(events)
    ensures AllCoupled(Execute(events))
  {
    if events != [] {
      var k := |events| - 1;
      assert events[..k + 1] == events;
      LastStep(events, k);
      RunsKeptPrefix(events, k);
      RunsAlwaysCoupled(events[..k]);
      LedgerAlways(events[..k]);
      NextCoupled(Execute(events[..k]), events[k]);
    }
  }

  // ----- Completions that miss their run

  ghost predicate AllRunsOpen(t: Tables) {
    forall id :: id in t ==> RunOpen(t[id])
  }

  lemma NextKeepsRunsOpen(t: Tables, e: Event)
    requires AllRunsOpen(t)
    ensures AllRunsOpen(Next(t, e))
  {
    forall id | id in t ensures RunOpen(Evolve(t[id], id, e.op, e.now)) {
      EvolveKeepsRunOpen(t[id], id, e.op, e.now);
    }
  }

  lemma {:induction false} RunsAlwaysOpen(events: seq<Event>)
    ensures AllRunsOpen(Execute(events))
  {
    if events != [] {
      var k := |events| - 1;
      RunsAlwaysOpen(events[..k]);
      NextKeepsRunsOpen(Execute(events[..k]), events[k]);
    }
  }

  /** In every history, of either client: a completion misses its run exactly when its scenario job never had one. */
  lemma RunMissesExactly(events: seq<Event>, id: Id, client: Client, claim: Claim, output: Output, now: int)
    requires id in Execute(events)
    ensures var r := Execute(events)[id];
            CompleteReply(r, client, claim, output, now).RunNotFound? <==>
              && Live(r.job, claim, now) && client.Python?
              && r.job.kind == SCENARIO && AcceptableOutput(output) && r.run.None?
  {
    RunsAlwaysOpen(events);
    RunMissingExactly(Execute(events)[id], client, claim, output, now);
  }

  /** Scenario jobs are created only together with their run. */
  ghost predicate NoBareScenario(events: seq<Event>) {
    forall i :: 0 <= i < |events| && events[i].op.Enqueue? ==> events[i].op.kind != SCENARIO
  }

  ghost predicate ScenariosHaveRuns(t: Tables) {
    forall id :: id in t && t[id].job.kind == SCENARIO ==> t[id].run.Some?
  }

  lemma NextKeepsRuns(t: Tables, e: Event)
    requires AllSound(t) && Permitted(t, e) && AllRunsOpen(t) && ScenariosHaveRuns(t)
    requires e.op.Enqueue? ==> e.op.kind != SCENARIO
    ensures ScenariosHaveRuns(Next(t, e))
  {
    forall id | id in t
      ensures Evolve(t[id], id, e.op, e.now).job.kind == t[id].job.kind
      ensures Evolve(t[id], id, e.op, e.now).run.Some? <==> t[id].run.Some?
    {
      EvolveForward(t[id], id, e.op, e.now);
      EvolveKeepsRunOpen(t[id], id, e.op, e.now);
    }
  }

  lemma {:induction false} RunsAlwaysThere(events: seq<Event>)
    requires History(events) && NoBareScenario(events)
    ensures ScenariosHaveRuns(Execute(events))
  {
    if events != [] {
      var k := |events| - 1;
      assert events[..k + 1] == events;
      LastStep(events, k);
      LedgerAlways(events[..k]);
      RunsAlwaysOpen(events[..k]);
      RunsAlwaysThere(events[..k]);
      NextKeepsRuns(Execute(events[..k]), events[k]);
    }
  }

  /**
   * As long as no scenario job is enqueued without its run, no completion, by whichever client and worker and after
   * whatever claims, cancels and recoveries, ever misses its run.
   */
  lemma RunNeverMissing(events: seq<Event>, id: Id, client: Client, claim: Claim, output: Output, now: int)
    requires History(events) && NoBareScenario(events) && id in Execute(events)
    ensures !CompleteReply(Execute(events)[id], client, claim, output, now).RunNotFound?
  {
    RunsAlwaysThere(events);
    RunMissesExactly(events, id, client, claim, output, now);
  }

  // ----- Histories that uncouple a job and its run

  const QUEUE_CANCEL := Event(Cancel(0), 2)
  const BARE := Event(Enqueue(0, SCENARIO, "k", 3, 0), 0)
  const SCENARIO_OUTPUT := Output("valid", true)

  lemma CancelledInQueue()
    ensures Next(map[0 := ClaimedRun()], QUEUE_CANCEL) == map[0 := CancelRecord(ClaimedRun(), 2)]
  {
    assert Evolve(ClaimedRun(), 0, QUEUE_CANCEL.op, 2) == CancelRecord(ClaimedRun(), 2);
  }

  /** A run is created, claimed by the Python client and its job cancelled in the queue: the run goes on running. */
  lemma QueueCancelUncouples()
    ensures History([CREATE, CLAIM, QUEUE_CANCEL]) && !AllCoupled(Execute([CREATE, CLAIM, QUEUE_CANCEL]))
  {
    ThreeEvents(CREATE, CLAIM, QUEUE_CANCEL);
    CancelledWhileRunning();
    CancelledInQueue();
    IsHistory(CREATE, CLAIM, QUEUE_CANCEL);
    var last := CancelRecord(ClaimedRun(), 2);
    assert last.job.state.Cancelled? && last.run == Some(RunRunning) && !Coupled(last);
    assert 0 in Execute([CREATE, CLAIM, QUEUE_CANCEL]);
  }

  function BareJob(): Record { NewRecord(SCENARIO, "k", 3, 0, None, 0) }
  function BareClaimed(): Record { ClaimRecord(BareJob(), Python, 0, "w", 60, 1) }

  lemma BareSteps()
    ensures Next(map[], BARE) == map[0 := BareJob()]
    ensures Next(map[0 := BareJob()], CLAIM) == map[0 := BareClaimed()]
  {
    assert Evolve(BareJob(), 0, CLAIM.op, 1) == BareClaimed();
  }

  lemma TwoEvents(a: Event, b: Event)
    requires Permitted(map[], a) && Permitted(Execute([a]), b) && a.now <= b.now
    ensures Execute([a]) == Next(map[], a) && Execute([a, b]) == Next(Execute([a]), b) && History([a, b])
  {
    assert [a][..0] == [] && [a, b][..1] == [a] && [a, b][..0] == [];
    forall i | 0 <= i < 2 ensures Permitted(Execute([a, b][..i]), [a, b][i]) { assert i == 0 || i == 1; }
  }

  /** A scenario job enqueued on its own has no run: it is uncoupled at once, and its completion finds none. */
  lemma BareScenarioMissesRun()
    ensures History([BARE, CLAIM]) && !AllCoupled(Execute([BARE, CLAIM])) && 0 in Execute([BARE, CLAIM])
    ensures CompleteReply(Execute([BARE, CLAIM])[0], Python, Claim(0, "w", 1, 3), SCENARIO_OUTPUT, 2).RunNotFound?
  {
    BareSteps();
    assert [BARE][..0] == [];
    assert Execute([BARE]) == Next(map[], BARE);
    TwoEvents(BARE, CLAIM);
    assert !Coupled(BareClaimed());
  }
}
