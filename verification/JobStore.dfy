/** The queue's statements on the job, attempt and run tables; each method is one transaction at time now. */
module JobStore {
  import opened Results
  import opened JobRecords
  import opened JobQueue
  import opened ClaimOrder
  import opened JobMeaning

  /** The parts of a request that are checked before it reaches the tables. */
  datatype Envelope = Envelope(kind: string, schemaVersion: string, key: string, snapshotIds: seq<string>,
                               hasPayload: bool)

  predicate ValidEnvelope(e: Envelope) {
    && e.kind != "" && 'a' <= e.kind[0] <= 'z' && '.' in e.kind
    && e.schemaVersion != ""
    && 1 <= |e.key| <= 255
    && (forall i :: 0 <= i < |e.snapshotIds| ==> e.snapshotIds[i] != "")
    && (forall i, j :: 0 <= i < j < |e.snapshotIds| ==> e.snapshotIds[i] != e.snapshotIds[j])
    && e.hasPayload
  }

  /** The loop over snapshot ids, with the set of those seen. */
  method CheckSnapshotIds(ids: seq<string>) returns (ok: bool)
    ensures ok <==>
              && (forall i :: 0 <= i < |ids| ==> ids[i] != "")
              && (forall i, j :: 0 <= i < j < |ids| ==> ids[i] != ids[j])
  {
    var seen: set<string> := {};
    for k := 0 to |ids|
      invariant forall i :: 0 <= i < k ==> ids[i] != "" && ids[i] in seen
      invariant forall i, j :: 0 <= i < j < k ==> ids[i] != ids[j]
      invariant forall x :: x in seen ==> exists i :: 0 <= i < k && ids[i] == x
    {
      if ids[k] == "" || ids[k] in seen {
        return false;
      }
      seen := seen + {ids[k]};
    }
    return true;
  }

  method ValidateEnvelope(e: Envelope) returns (ok: bool)
    ensures ok <==> ValidEnvelope(e)
  {
    if e.kind == "" || !('a' <= e.kind[0] <= 'z') || '.' !in e.kind || e.schemaVersion == "" || !(1 <= |e.key| <= 255) {
      return false;
    }
    var ids := CheckSnapshotIds(e.snapshotIds);
    return ids && e.hasPayload;
  }

  /** What a request is refused for: a kind that is no lowercase dotted name, a missing part, a key of wrong length. */
  ghost predicate Unacceptable(e: Envelope) {
    || e.kind == "" || e.kind[0] < 'a' || e.kind[0] > 'z' || (forall i :: 0 <= i < |e.kind| ==> e.kind[i] != '.')
    || e.schemaVersion == "" || e.key == "" || |e.key| > 255 || !e.hasPayload
    || (exists i :: 0 <= i < |e.snapshotIds| && e.snapshotIds[i] == "")
    || (exists i, j :: 0 <= i < j < |e.snapshotIds| && e.snapshotIds[i] == e.snapshotIds[j])
  }

  lemma ValidEnvelopeExactly(e: Envelope)
    ensures ValidEnvelope(e) <==> !Unacceptable(e)
  {
  }

  /** ORDER BY available_at, created_at, id. */
  function ClaimKeys(jobs: map<Id, Job>): (keys: map<Id, Key>)
    ensures keys.Keys == jobs.Keys
  {
    map id | id in jobs :: Key(jobs[id].availableAt, jobs[id].createdAt)
  }

  /** An operation that names one job changes the rows of that job only. */
  lemma NextUpdatesOne(t: Tables, e: Event, id: Id)
    requires id in t && Added(t, e) == map[]
    requires forall i :: i in t && i != id ==> Evolve(t[i], i, e.op, e.now) == t[i]
    ensures Next(t, e) == t[id := Evolve(t[id], id, e.op, e.now)]
  {
  }

  lemma NextUpdatesNone(t: Tables, e: Event)
    requires Added(t, e) == map[]
    requires forall i :: i in t ==> Evolve(t[i], i, e.op, e.now) == t[i]
    ensures Next(t, e) == t
  {
  }

  function RunOf(runs: map<Id, RunState>, id: Id): Option<RunState> {
    if id in runs then Some(runs[id]) else None
  }

  /** The rows of the tables, grouped by job. */
  ghost function Group(jobs: map<Id, Job>, attempts: map<Id, map<nat, Attempt>>, runs: map<Id, RunState>,
                       issued: map<Id, set<Claim>>): Tables
    requires jobs.Keys == attempts.Keys == issued.Keys
  {
    map id | id in jobs :: Record(jobs[id], attempts[id], RunOf(runs, id), issued[id])
  }

  lemma GroupUpdate(jobs: map<Id, Job>, attempts: map<Id, map<nat, Attempt>>, runs: map<Id, RunState>,
                    issued: map<Id, set<Claim>>, id: Id, r: Record)
    requires jobs.Keys == attempts.Keys == issued.Keys && (r.run.None? ==> id !in runs)
    ensures Group(jobs[id := r.job], attempts[id := r.attempts], if r.run.Some? then runs[id := r.run.value] else runs,
                  issued[id := r.issued]) == Group(jobs, attempts, runs, issued)[id := r]
  {
    var s, t := if r.run.Some? then runs[id := r.run.value] else runs, Group(jobs, attempts, runs, issued);
    var u := Group(jobs[id := r.job], attempts[id := r.attempts], s, issued[id := r.issued]);
    assert u.Keys == t[id := r].Keys;
    assert u[id] == r;
    forall i | i in u && i != id ensures u[i] == t[i] {}
  }

  function Candidates(jobs: map<Id, Job>, locked: set<Id>, now: int): (ids: set<Id>)
    ensures ids <= jobs.Keys
  {
    set id | id in jobs && Claimable(jobs[id], now) && id !in locked
  }

  /** The candidates are the unlocked jobs that wait, and the first of them in claim order is first in line. */
  lemma CandidatesWait(jobs: map<Id, Job>, locked: set<Id>, now: int)
    ensures forall i :: i in Candidates(jobs, locked, now) <==> i in jobs && i !in locked && Waiting(jobs[i], now)
    ensures forall id :: IsFirst(ClaimKeys(jobs), Candidates(jobs, locked, now), id) ==>
              FirstInLine(jobs, locked, now, id)
  {
  }

  /** A job is handed out: its rows change as a claim changes them, and no others. */
  ghost predicate Hands(before: Tables, after: Tables, claim: Claim, client: Client, worker: string, lease: int,
                        now: int) {
    && claim.id in before && claim.id in after && after == before[claim.id := after[claim.id]]
    && ClaimsRow(before[claim.id], after[claim.id], client, claim.id, worker, lease, now)
    && claim.worker == worker && claim.attempt == before[claim.id].job.attemptCount + 1
    && claim.maxAttempts == before[claim.id].job.maxAttempts
  }

  /** The job a statement names, if it names one. */
  ghost function Target(op: Op): Option<Id> {
    match op
    case ClaimJob(_, id, _, _) => Some(id)
    case Renew(claim, _) => Some(claim.id)
    case Complete(_, claim, _) => Some(claim.id)
    case Fail(_, claim, _, _) => Some(claim.id)
    case Cancel(id) => Some(id)
    case CancelRun(id) => Some(id)
    case _ => None
  }

  lemma NextOnTarget(t: Tables, e: Event, id: Id)
    requires Target(e.op) == Some(id)
    ensures id !in t ==> Next(t, e) == t
    ensures id in t ==> Next(t, e) == t[id := Evolve(t[id], id, e.op, e.now)]
  {
    if id in t { NextUpdatesOne(t, e, id); } else { NextUpdatesNone(t, e); }
  }

  /** A statement on one job, in terms of the rows before and after it. */
  ghost predicate OnlyRow(before: Tables, after: Tables, id: Id) {
    if id in before then id in after && after == before[id := after[id]] else after == before
  }

  lemma CompleteInTable(t: Tables, client: Client, claim: Claim, output: Output, now: int)
    ensures var u := Next(t, Event(Complete(client, claim, output), now));
            && OnlyRow(t, u, claim.id)
            && (claim.id in t ==>
                  CompletesRow(t[claim.id], u[claim.id], client, claim, output, now,
                               CompleteReply(t[claim.id], client, claim, output, now)))
  {
    NextOnTarget(t, Event(Complete(client, claim, output), now), claim.id);
    if claim.id in t { CompleteIs(t[claim.id], claim.id, client, claim, output, now); }
  }

  lemma FailInTable(t: Tables, client: Client, claim: Claim, retryable: bool, delay: int, now: int)
    ensures var u := Next(t, Event(Fail(client, claim, retryable, delay), now));
            && OnlyRow(t, u, claim.id)
            && (claim.id in t ==> FailsRow(t[claim.id], u[claim.id], client, claim, retryable, delay, now))
  {
    NextOnTarget(t, Event(Fail(client, claim, retryable, delay), now), claim.id);
    if claim.id in t { FailIs(t[claim.id], claim.id, client, claim, retryable, delay, now); }
  }

  lemma RenewInTable(t: Tables, claim: Claim, lease: int, now: int)
    ensures var u := Next(t, Event(Renew(claim, lease), now));
            OnlyRow(t, u, claim.id) && (claim.id in t ==> RenewsRow(t[claim.id], u[claim.id], claim, lease, now))
  {
    NextOnTarget(t, Event(Renew(claim, lease), now), claim.id);
    if claim.id in t { RenewIs(t[claim.id], claim.id, claim, lease, now); }
  }

  lemma CancelInTable(t: Tables, id: Id, now: int)
    ensures var u := Next(t, Event(Cancel(id), now));
            OnlyRow(t, u, id) && (id in t ==> CancelsRow(t[id], u[id], now))
  {
    NextOnTarget(t, Event(Cancel(id), now), id);
    if id in t { CancelIs(t[id], id, now); }
  }

  lemma CancelRunInTable(t: Tables, id: Id, now: int)
    ensures var u := Next(t, Event(CancelRun(id), now));
            OnlyRow(t, u, id) && (id in t ==> CancelsRun(t[id], u[id], now))
  {
    NextOnTarget(t, Event(CancelRun(id), now), id);
    if id in t { CancelIs(t[id], id, now); }
  }

  ghost predicate Recovers(before: Tables, after: Tables, now: int) {
    after.Keys == before.Keys && forall id :: id in before ==> RecoversRow(before[id], after[id], now)
  }

  lemma RecoverInTable(t: Tables, now: int)
    ensures Recovers(t, Next(t, Event(RecoverExpired, now)), now)
  {
    var u := Next(t, Event(RecoverExpired, now));
    assert u.Keys == t.Keys;
    forall id | id in t ensures RecoversRow(t[id], u[id], now) { RecoverIs(t[id], id, now); }
  }

  function ExpiredJobs(jobs: map<Id, Job>, now: int): set<Id> {
    set id | id in jobs && Expired(jobs[id], now)
  }

  function StopExpired(jobs: map<Id, Job>, now: int): (stopped: map<Id, Job>)
    ensures stopped.Keys == jobs.Keys
  {
    map id | id in jobs ::
      if Expired(jobs[id], now)
      then Stopped(jobs[id], jobs[id].attemptCount < jobs[id].maxAttempts, now, now)
      else jobs[id]
  }

  lemma StoppedFirst(jobs: map<Id, Job>, attempts: map<Id, map<nat, Attempt>>, runs: map<Id, RunState>,
                     issued: map<Id, set<Claim>>, now: int)
    requires jobs.Keys == attempts.Keys == issued.Keys
    ensures RecoveredExcept(Group(jobs, attempts, runs, issued), Group(StopExpired(jobs, now), attempts, runs, issued),
                            ExpiredJobs(jobs, now), now)
  {
  }

  function EnqueueEvent(request: Envelope, maxAttempts: int, availableAt: int, id: Id, now: int): Event {
    Event(JobRecords.Enqueue(id, request.kind, request.key, maxAttempts, availableAt), now)
  }

  class Store {
    var jobs: map<Id, Job>
    var attempts: map<Id, map<nat, Attempt>>
    var runs: map<Id, RunState>
    ghost var issued: map<Id, set<Claim>>

    ghost predicate Valid()
      reads this
    {
      jobs.Keys == attempts.Keys == issued.Keys && runs.Keys <= jobs.Keys
    }

    function Run(id: Id): Option<RunState>
      reads this
    {
      RunOf(runs, id)
    }

    ghost function View(): Tables
      requires Valid()
      reads this
    {
      Group(jobs, attempts, runs, issued)
    }

    constructor ()
      ensures Valid() && View() == Execute([])
    {
      jobs, attempts, runs, issued := map[], map[], map[], map[];
    }

    /** Writes the rows of one job. */
    method Write(id: Id, job: Job, ledger: map<nat, Attempt>, run: Option<RunState>, ghost claims: set<Claim>)
      requires Valid() && (run.None? ==> id !in runs)
      modifies this
      ensures Valid() && View() == old(View())[id := Record(job, ledger, run, claims)]
    {
      GroupUpdate(jobs, attempts, runs, issued, id, Record(job, ledger, run, claims));
      jobs, attempts, issued := jobs[id := job], attempts[id := ledger], issued[id := claims];
      runs := if run.Some? then runs[id := run.value] else runs;
    }

    /** Returns the job with this kind and key, adding it if there is none. */
    method Enqueue(request: Envelope, maxAttempts: int, availableAt: int, fresh_: Id, now: int)
      returns (r: Option<Id>)
      requires Valid() && fresh_ !in jobs
      modifies this
      ensures Valid()
      ensures r.None? <==> Unacceptable(request)
      ensures r.None? ==> View() == old(View())
      ensures r.Some? ==>
                && View() == Next(old(View()), EnqueueEvent(request, maxAttempts, availableAt, fresh_, now))
                && r.value in View()
                && View()[r.value].job.kind == request.kind && View()[r.value].job.key == request.key
      ensures r.Some? ==>
                if exists id :: HasKey(old(jobs), request.kind, request.key, id) then View() == old(View())
                else
                  && r.value == fresh_ && fresh_ in View() && View() == old(View())[fresh_ := View()[fresh_]]
                  && StartsRow(View()[fresh_], request.kind, request.key, maxAttempts, availableAt, now)
                  && View()[fresh_].run == None
    {
      ghost var before, e := View(), EnqueueEvent(request, maxAttempts, availableAt, fresh_, now);
      var ok := ValidateEnvelope(request);
      ValidEnvelopeExactly(request);
      if !ok {
        return None;
      }
      var kind, key := request.kind, request.key;
      if exists id :: id in jobs && jobs[id].kind == kind && jobs[id].key == key {
        var id :| id in jobs && jobs[id].kind == kind && jobs[id].key == key;
        assert HasKey(jobs, request.kind, request.key, id);
        assert Taken(before, kind, key) by { assert id in before; }
        NextUpdatesNone(before, e);
        return Some(id);
      }
      assert !Taken(before, kind, key);
      var row := NewRecord(kind, key, maxAttempts, availableAt, None, now);
      Write(fresh_, row.job, map[], None, {});
      NextAdds(before, e, fresh_, row);
      return Some(fresh_);
    }

    /** Creates a scenario run together with its job; a key already used rolls both back. */
    method CreateRun(key: string, fresh_: Id, now: int) returns (created: bool)
      requires Valid() && fresh_ !in jobs
      modifies this
      ensures Valid() && View() == Next(old(View()), Event(JobRecords.CreateRun(fresh_, key), now))
      ensures created <==> !exists id :: HasKey(old(jobs), "scenario.revalue", key, id)
      ensures !created ==> View() == old(View())
      ensures created ==>
                && fresh_ in View() && View() == old(View())[fresh_ := View()[fresh_]]
                && StartsRow(View()[fresh_], "scenario.revalue", key, 3, now, now)
                && View()[fresh_].run == Some(RunQueued)
    {
      ghost var before, e := View(), Event(JobRecords.CreateRun(fresh_, key), now);
      if exists id :: id in jobs && jobs[id].kind == SCENARIO && jobs[id].key == key {
        ghost var id :| id in jobs && jobs[id].kind == SCENARIO && jobs[id].key == key;
        assert HasKey(jobs, "scenario.revalue", key, id);
        assert Taken(before, SCENARIO, key) by { assert id in before; }
        NextUpdatesNone(before, e);
        return false;
      }
      assert !Taken(before, SCENARIO, key) && forall id :: !HasKey(jobs, "scenario.revalue", key, id);
      var row := NewRecord(SCENARIO, key, 3, now, Some(RunQueued), now);
      Write(fresh_, row.job, map[], Some(RunQueued), {});
      NextAdds(before, e, fresh_, row);
      return true;
    }

    /** Claims the earliest available job no other transaction has locked. */
    method Claim(client: Client, worker: string, lease: int, locked: set<Id>, now: int)
      returns (ok: bool, claim: Option<JobRecords.Claim>)
      requires Valid()
      modifies this
      ensures Valid()
      ensures ok <==> client.Python? || (worker != "" && lease > 0)
      ensures claim.None? ==> View() == old(View())
      ensures var candidates := Candidates(old(jobs), locked, now);
              if !ok || candidates == {} then claim.None?
              else
                && claim.Some? && IsFirst(ClaimKeys(old(jobs)), candidates, claim.value.id)
                && claim.value == NextClaim(old(jobs)[claim.value.id], claim.value.id, worker)
                && View() == Next(old(View()), Event(ClaimJob(client, claim.value.id, worker, lease), now))
      ensures ok && claim.None? ==> forall i :: i in old(jobs) && i !in locked ==> !Waiting(old(jobs)[i], now)
      ensures claim.Some? ==> FirstInLine(old(jobs), locked, now, claim.value.id)
      ensures claim.Some? ==> Hands(old(View()), View(), claim.value, client, worker, lease, now)
    {
      if client.Go? && (worker == "" || lease <= 0) {
        return false, None;
      }
      var candidates := Candidates(jobs, locked, now);
      CandidatesWait(jobs, locked, now);
      if candidates == {} {
        return true, None;
      }
      var id := ChooseFirst(ClaimKeys(jobs), candidates);
      var handed := HandOut(client, id, worker, lease, now);
      return true, Some(handed);
    }

    /**
     * The statements of a claim once its job is chosen: the job row, its attempt and, for the Python client, its run.
     */
    method HandOut(client: Client, id: Id, worker: string, lease: int, now: int) returns (handed: JobRecords.Claim)
      requires Valid() && id in jobs && Claimable(jobs[id], now)
      modifies this
      ensures Valid() && handed == NextClaim(old(jobs)[id], id, worker)
      ensures View() == Next(old(View()), Event(ClaimJob(client, id, worker, lease), now))
      ensures Hands(old(View()), View(), handed, client, worker, lease, now)
    {
      ghost var before, e := View(), Event(ClaimJob(client, id, worker, lease), now);
      handed := NextClaim(jobs[id], id, worker);
      var job := jobs[id].(state := Running, attemptCount := handed.attempt, lease := Some(Lease(worker, now + lease)));
      var ledger: map<nat, Attempt> := attempts[id][handed.attempt := Attempt(worker, now + lease, None)];
      var run := Run(id);
      if client.Python? && job.kind == SCENARIO && run == Some(RunQueued) {
        run := Some(RunRunning);
      }
      Write(id, job, ledger, run, issued[id] + {handed});
      NextUpdatesOne(before, e, id);
      ClaimIs(before[id], client, id, worker, lease, now);
    }

    /** Extends a live lease; the Go queue refuses a lease that is not positive. */
    method Renew(client: Client, claim: JobRecords.Claim, lease: int, now: int) returns (ok: bool, renewed: bool)
      requires Valid()
      modifies this
      ensures Valid()
      ensures ok <==> client.Python? || (claim.worker != "" && lease > 0)
      ensures renewed <==> ok && claim.id in old(jobs) && Live(old(jobs)[claim.id], claim, now)
      ensures View() == if ok then Next(old(View()), Event(JobRecords.Renew(claim, lease), now)) else old(View())
      ensures renewed <==> ok && claim.id in old(jobs) && HoldsLease(old(jobs)[claim.id], claim, now)
      ensures OnlyRow(old(View()), View(), claim.id)
      ensures ok && claim.id in old(jobs) ==>
                RenewsRow(old(View())[claim.id], View()[claim.id], claim, lease, now)
    {
      ghost var before, e := View(), Event(JobRecords.Renew(claim, lease), now);
      RenewInTable(before, claim, lease, now);
      if client.Go? && (claim.worker == "" || lease <= 0) {
        return false, false;
      }
      var id := claim.id;
      if id !in jobs || !Live(jobs[id], claim, now) {
        NextUpdatesNone(before, e);
        return true, false;
      }
      Write(id, jobs[id].(lease := Some(Lease(claim.worker, now + lease))), attempts[id], Run(id), issued[id]);
      NextUpdatesOne(before, e, id);
      return true, true;
    }

    /** Completes a job; the Python client stores the scenario's outcome in the same transaction. */
    method Complete(client: Client, claim: JobRecords.Claim, output: Output, now: int) returns (reply: Reply)
      requires Valid()
      modifies this
      ensures Valid() && View() == Next(old(View()), Event(JobRecords.Complete(client, claim, output), now))
      ensures reply ==
              if claim.id in old(View())
              then CompleteReply(old(View())[claim.id], client, claim, output, now)
              else Stale
      ensures OnlyRow(old(View()), View(), claim.id)
      ensures claim.id in old(jobs) ==>
                CompletesRow(old(View())[claim.id], View()[claim.id], client, claim, output, now, reply)
    {
      ghost var before, e := View(), Event(JobRecords.Complete(client, claim, output), now);
      CompleteInTable(before, client, claim, output, now);
      var id := claim.id;
      if id !in jobs || !Live(jobs[id], claim, now) {
        NextUpdatesNone(before, e);
        return Stale;
      }
      reply := Finish(client, claim, output, now);
    }

    /** The statements of a completion once the lease is known to run; anything but acceptance rolls them back. */
    method Finish(client: Client, claim: JobRecords.Claim, output: Output, now: int) returns (reply: Reply)
      requires Valid() && claim.id in jobs && Live(jobs[claim.id], claim, now)
      modifies this
      ensures Valid() && View() == Next(old(View()), Event(JobRecords.Complete(client, claim, output), now))
      ensures reply == CompleteReply(old(View())[claim.id], client, claim, output, now)
    {
      ghost var before, e := View(), Event(JobRecords.Complete(client, claim, output), now);
      var id := claim.id;
      var run := Run(id);
      if client.Python? && jobs[id].kind == SCENARIO {
        if output.NotAnObject? || RunStateOf(output.state).None? {
          NextUpdatesNone(before, e);
          return OutputRejected;
        }
        if !OpenRun(run) {
          NextUpdatesNone(before, e);
          return RunNotFound;
        }
        if !output.rowsStore {
          NextUpdatesNone(before, e);
          return OutputRejected;
        }
        run := RunStateOf(output.state);
      }
      Write(id, jobs[id].(state := Succeeded, lease := None, completedAt := Some(now)),
            Close(attempts[id], claim.attempt, AttemptSucceeded), run, issued[id]);
      NextUpdatesOne(before, e, id);
      return Accepted;
    }

    /** Fails an attempt, for good or until a retry. */
    method Fail(client: Client, claim: JobRecords.Claim, retryable: bool, delay: int, now: int) returns (accepted: bool)
      requires Valid()
      modifies this
      ensures Valid() && View() == Next(old(View()), Event(JobRecords.Fail(client, claim, retryable, delay), now))
      ensures accepted <==> claim.id in old(jobs) && HoldsLease(old(jobs)[claim.id], claim, now)
      ensures OnlyRow(old(View()), View(), claim.id)
      ensures claim.id in old(jobs) ==>
                FailsRow(old(View())[claim.id], View()[claim.id], client, claim, retryable, delay, now)
    {
      ghost var before, e := View(), Event(JobRecords.Fail(client, claim, retryable, delay), now);
      FailInTable(before, client, claim, retryable, delay, now);
      var id := claim.id;
      if id !in jobs || !Live(jobs[id], claim, now) {
        NextUpdatesNone(before, e);
        return false;
      }
      StopAttempt(client, claim, retryable, delay, now);
      return true;
    }

    /** The statements of a failure once the lease is known to run: the job, its attempt and the Python client's run. */
    method StopAttempt(client: Client, claim: JobRecords.Claim, retryable: bool, delay: int, now: int)
      requires Valid() && claim.id in jobs && Live(jobs[claim.id], claim, now)
      modifies this
      ensures Valid() && View() == Next(old(View()), Event(JobRecords.Fail(client, claim, retryable, delay), now))
    {
      ghost var before, e := View(), Event(JobRecords.Fail(client, claim, retryable, delay), now);
      var id := claim.id;
      var limit := if client.Go? then claim.maxAttempts else jobs[id].maxAttempts;
      var retry := retryable && claim.attempt < limit;
      var run := Run(id);
      if client.Python? {
        run := if retry then Requeued(run) else Abandoned(run);
      }
      Write(id, Stopped(jobs[id], retry, if client.Go? then now + delay else now, now),
            Close(attempts[id], claim.attempt, if retry then AttemptRetryable else AttemptFailed), run, issued[id]);
      NextUpdatesOne(before, e, id);
    }

    /** The queue's own cancel. */
    method Cancel(id: Id, now: int) returns (cancelled: bool)
      requires Valid()
      modifies this
      ensures Valid() && View() == Next(old(View()), Event(JobRecords.Cancel(id), now))
      ensures cancelled <==> id in old(jobs) && Ongoing(old(jobs)[id])
      ensures OnlyRow(old(View()), View(), id) && (id in old(jobs) ==> CancelsRow(old(View())[id], View()[id], now))
    {
      ghost var before, e := View(), Event(JobRecords.Cancel(id), now);
      CancelInTable(before, id, now);
      if id !in jobs || !Active(jobs[id].state) {
        NextUpdatesNone(before, e);
        return false;
      }
      CancelRows(id, now);
      return true;
    }

    method CancelRows(id: Id, now: int)
      requires Valid() && id in jobs && Active(jobs[id].state)
      modifies this
      ensures Valid() && View() == Next(old(View()), Event(JobRecords.Cancel(id), now))
    {
      ghost var before, e := View(), Event(JobRecords.Cancel(id), now);
      Write(id, CancelledJob(jobs[id], now), CloseAll(attempts[id], AttemptCancelled), Run(id), issued[id]);
      NextUpdatesOne(before, e, id);
    }

    /** The risk service's cancel, which starts from the run. */
    method CancelRun(id: Id, now: int) returns (found: bool)
      requires Valid()
      modifies this
      ensures Valid() && View() == Next(old(View()), Event(JobRecords.CancelRun(id), now))
      ensures found <==> id in old(runs)
      ensures OnlyRow(old(View()), View(), id) && (id in old(jobs) ==> CancelsRun(old(View())[id], View()[id], now))
    {
      ghost var before, e := View(), Event(JobRecords.CancelRun(id), now);
      CancelRunInTable(before, id, now);
      if id !in runs {
        NextUpdatesNone(before, e);
        return false;
      }
      var job, run := jobs[id], Run(id);
      if Active(jobs[id].state) {
        job := CancelledJob(job, now);
      }
      if Active(jobs[id].state) || jobs[id].state.Cancelled? {
        run := Abandoned(run);
      }
      Write(id, job, attempts[id], run, issued[id]);
      NextUpdatesOne(before, e, id);
      return true;
    }

    /** Stops every job whose lease has run out, then closes its attempt and settles its run, one by one. */
    method RecoverExpired(now: int) returns (recovered: nat)
      requires Valid()
      modifies this
      ensures Valid() && View() == Next(old(View()), Event(JobRecords.RecoverExpired, now))
      ensures recovered == |ExpiredJobs(old(jobs), now)|
      ensures Recovers(old(View()), View(), now)
    {
      ghost var before := View();
      RecoverInTable(before, now);
      var expired := ExpiredJobs(jobs, now);
      StoppedFirst(jobs, attempts, runs, issued, now);
      jobs := StopExpired(jobs, now);
      var left := expired;
      while left != {}
        invariant Valid() && RecoveredExcept(before, View(), left, now) && left <= expired
        invariant forall id :: id in expired ==> id in before && Expired(before[id].job, now)
        decreases left
      {
        var id :| id in left;
        SettleExpired(id, before, left, now);
        left := left - {id};
      }
      RecoveredAll(before, View(), now);
      return |expired|;
    }

    /** Closes the attempt of a job stopped for its lease and settles its run. */
    method SettleExpired(id: Id, ghost before: Tables, ghost left: set<Id>, now: int)
      requires Valid() && RecoveredExcept(before, View(), left, now)
      requires id in left && id in before && Expired(before[id].job, now)
      modifies this
      ensures Valid() && RecoveredExcept(before, View(), left - {id}, now)
    {
      ghost var t := View();
      assert id in t;
      var ledger := Close(attempts[id], jobs[id].attemptCount, AttemptExpired);
      var run := Run(id);
      if jobs[id].kind == SCENARIO {
        run := if jobs[id].state.Failed? then Abandoned(run) else Requeued(run);
      }
      Write(id, jobs[id], ledger, run, issued[id]);
      RecoveredOneMore(before, t, View(), left, id, now);
    }
  }

  lemma RecoveredAll(before: Tables, t: Tables, now: int)
    requires RecoveredExcept(before, t, {}, now)
    ensures t == Next(before, Event(RecoverExpired, now))
  {
    var next := Next(before, Event(RecoverExpired, now));
    assert next.Keys == t.Keys;
    forall id | id in t ensures t[id] == next[id] {}
  }

  lemma NextAdds(t: Tables, e: Event, id: Id, r: Record)
    requires id !in t && Added(t, e) == map[id := r] && (e.op.Enqueue? || e.op.CreateRun?)
    ensures Next(t, e) == t[id := r]
  {
  }

  /** All expired jobs are stopped; those still left have yet to see their attempt and run settled. */
  ghost predicate RecoveredExcept(before: Tables, t: Tables, left: set<Id>, now: int) {
    && t.Keys == before.Keys
    && forall id :: id in t ==>
         t[id] ==
         if id in left
         then before[id].(job := RecoverRecord(before[id], now).job)
         else RecoverRecord(before[id], now)
  }

  lemma RecoveredOneMore(before: Tables, t: Tables, next: Tables, left: set<Id>, id: Id, now: int)
    requires RecoveredExcept(before, t, left, now) && id in left && id in t
    requires next == t[id := RecoverRecord(before[id], now)]
    ensures RecoveredExcept(before, next, left - {id}, now)
  {
  }
}
