/** What each statement of the queue does to the rows of one job, told by their columns. */
module JobMeaning {
  import opened Results
  import opened JobRecords

  /** A worker still holds the lease it was handed. */
  ghost predicate HoldsLease(job: Job, claim: Claim, now: int) {
    && job.state == Running && job.attemptCount == claim.attempt
    && job.lease.Some? && job.lease.value.owner == claim.worker && now < job.lease.value.expiresAt
  }

  /** A job waits to be claimed. */
  ghost predicate Waiting(job: Job, now: int) {
    (job.state == Queued || job.state == RetryableFailed) && job.availableAt <= now
  }

  /** Of all jobs that wait unlocked this one comes first: by when it became available, its creation, and its id. */
  ghost predicate FirstInLine(jobs: map<Id, Job>, locked: set<Id>, now: int, id: Id) {
    && id in jobs && id !in locked && Waiting(jobs[id], now)
    && forall i :: i in jobs && i !in locked && Waiting(jobs[i], now) ==>
         || jobs[id].availableAt < jobs[i].availableAt
         || (jobs[id].availableAt == jobs[i].availableAt && jobs[id].createdAt < jobs[i].createdAt)
         || (jobs[id].availableAt == jobs[i].availableAt && jobs[id].createdAt == jobs[i].createdAt && id <= i)
  }

  /** An attempt gets an outcome if it has none; nothing else in the ledger changes. */
  ghost predicate Closes(before: map<nat, Attempt>, after: map<nat, Attempt>, n: nat, outcome: Outcome) {
    && after.Keys == before.Keys
    && forall k :: k in before ==>
         && after[k].worker == before[k].worker && after[k].leaseExpiresAt == before[k].leaseExpiresAt
         && after[k].outcome == if k == n && before[k].outcome == None then Some(outcome) else before[k].outcome
  }

  /** Every open attempt is closed as cancelled. */
  ghost predicate ClosesAll(before: map<nat, Attempt>, after: map<nat, Attempt>) {
    && after.Keys == before.Keys
    && forall k :: k in before ==>
         && after[k].worker == before[k].worker && after[k].leaseExpiresAt == before[k].leaseExpiresAt
         && after[k].outcome == if before[k].outcome == None then Some(AttemptCancelled) else before[k].outcome
  }

  ghost predicate SameHeader(a: Job, b: Job) {
    && a.kind == b.kind && a.key == b.key && a.createdAt == b.createdAt
    && a.attemptCount == b.attemptCount && a.maxAttempts == b.maxAttempts
  }

  // ----- The statements

  /** A new job waits from a time on with no attempts made; where no limit is given it has three. */
  ghost predicate StartsRow(s: Record, kind: string, key: string, maxAttempts: int, availableAt: int, now: int) {
    && s.job.kind == kind && s.job.key == key && s.job.state == Queued
    && s.job.attemptCount == 0 && s.job.maxAttempts == (if maxAttempts > 0 then maxAttempts else 3)
    && s.job.createdAt == now && s.job.availableAt == availableAt && s.job.lease == None && s.job.completedAt == None
    && s.attempts == map[] && s.issued == {}
  }

  ghost predicate HasKey(jobs: map<Id, Job>, kind: string, key: string, id: Id) {
    id in jobs && jobs[id].kind == kind && jobs[id].key == key
  }

  /** A claim: a new attempt with a lease of its own, and for the Python client the run of a scenario starts. */
  ghost predicate ClaimsRow(r: Record, s: Record, client: Client, id: Id, worker: string, lease: int, now: int) {
    var n := r.job.attemptCount + 1;
    && s.job == r.job.(state := Running, attemptCount := n, lease := Some(Lease(worker, now + lease)))
    && s.attempts == r.attempts[n := Attempt(worker, now + lease, None)]
    && s.issued == r.issued + {Claim(id, worker, n, r.job.maxAttempts)}
    && s.run == if client == Python && r.job.kind == "scenario.revalue" && r.run == Some(RunQueued) then
                  Some(RunRunning)
                else r.run
  }

  /** A renewal: a running lease ends so much after now; nothing else changes, and nothing at all without it. */
  ghost predicate RenewsRow(r: Record, s: Record, claim: Claim, lease: int, now: int) {
    && (!HoldsLease(r.job, claim, now) ==> s == r)
    && (HoldsLease(r.job, claim, now) ==>
          && s.job.lease == Some(Lease(claim.worker, now + lease)) && s.job == r.job.(lease := s.job.lease)
          && s.attempts == r.attempts && s.run == r.run && s.issued == r.issued)
  }

  /** The run state each text stands for. */
  ghost predicate Tells(state: string, run: RunState) {
    || (state == "valid" && run == RunValid)
    || (state == "degraded" && run == RunDegraded)
    || (state == "blocked" && run == RunBlocked)
  }

  ghost predicate Readable(output: Output) {
    output.Output? && (output.state == "valid" || output.state == "degraded" || output.state == "blocked")
  }

  /** Why a completion is or is not accepted; only the Python client looks at the output of a scenario. */
  ghost predicate RepliesTo(r: Record, client: Client, claim: Claim, output: Output, now: int, reply: Reply) {
    var stores := client == Python && r.job.kind == "scenario.revalue";
    var open := r.run == Some(RunQueued) || r.run == Some(RunRunning);
    && (reply == Stale <==> !HoldsLease(r.job, claim, now))
    && (reply == RunNotFound <==> HoldsLease(r.job, claim, now) && stores && Readable(output) && !open)
    && (reply == OutputRejected <==>
          HoldsLease(r.job, claim, now) && stores && (!Readable(output) || (open && !output.rowsStore)))
  }

  /** An accepted completion finishes job and attempt, and with a scenario its run in the state the output names. */
  ghost predicate CompletesRow(r: Record, s: Record, client: Client, claim: Claim, output: Output, now: int,
                               reply: Reply) {
    && RepliesTo(r, client, claim, output, now, reply)
    && (reply != Accepted ==> s == r)
    && (reply == Accepted ==>
          && s.job == r.job.(state := Succeeded, lease := None, completedAt := Some(now))
          && Closes(r.attempts, s.attempts, claim.attempt, AttemptSucceeded) && s.issued == r.issued
          && if client == Python && r.job.kind == "scenario.revalue"
             then s.run.Some? && output.Output? && Tells(output.state, s.run.value)
             else s.run == r.run)
  }

  /** Whether a failed attempt is to be retried: the queue counts by the claim, the Python client by the row. */
  ghost predicate TriesAgain(r: Record, client: Client, claim: Claim, retryable: bool) {
    retryable && claim.attempt < (if client == Go then claim.maxAttempts else r.job.maxAttempts)
  }

  /** A job stopped for a retry at a time, or for good. */
  ghost predicate StopsJob(a: Job, b: Job, again: bool, at: int, now: int) {
    && SameHeader(a, b) && b.lease == None && b.availableAt == at
    && (again ==> b.state == RetryableFailed && b.completedAt == None)
    && (!again ==> b.state == Failed && b.completedAt == Some(now))
  }

  /** A run that is given back or, if it is still open, failed with its job. */
  ghost predicate SettlesRun(a: Option<RunState>, b: Option<RunState>, again: bool) {
    && (again ==> b == if a == Some(RunRunning) then Some(RunQueued) else a)
    && (!again ==> b == if a == Some(RunQueued) || a == Some(RunRunning) then Some(RunFailed) else a)
  }

  /** A failure: a retry after the delay, at once for the Python client, or the end of the job. */
  ghost predicate FailsRow(r: Record, s: Record, client: Client, claim: Claim, retryable: bool, delay: int, now: int) {
    var again := TriesAgain(r, client, claim, retryable);
    && (!HoldsLease(r.job, claim, now) ==> s == r)
    && (HoldsLease(r.job, claim, now) ==>
          && StopsJob(r.job, s.job, again, if client == Go then now + delay else now, now)
          && Closes(r.attempts, s.attempts, claim.attempt, if again then AttemptRetryable else AttemptFailed)
          && s.issued == r.issued
          && if client == Go then s.run == r.run else SettlesRun(r.run, s.run, again))
  }

  ghost predicate Ongoing(job: Job) {
    job.state == Queued || job.state == RetryableFailed || job.state == Running
  }

  /** The queue's cancel ends an ongoing job and its open attempts, not its run. */
  ghost predicate CancelsRow(r: Record, s: Record, now: int) {
    && s.run == r.run && s.issued == r.issued
    && (!Ongoing(r.job) ==> s == r)
    && (Ongoing(r.job) ==>
          && s.job == r.job.(state := Cancelled, lease := None, completedAt := Some(now))
          && ClosesAll(r.attempts, s.attempts))
  }

  /** The risk service's cancel ends an ongoing job and fails its open run, not its attempts. */
  ghost predicate CancelsRun(r: Record, s: Record, now: int) {
    && s.attempts == r.attempts && s.issued == r.issued
    && (r.run == None ==> s == r)
    && (r.run != None && Ongoing(r.job) ==>
        s.job == r.job.(state := Cancelled, lease := None, completedAt := Some(now)))
    && (!Ongoing(r.job) ==> s.job == r.job)
    && (r.run != None && (Ongoing(r.job) || r.job.state == Cancelled) ==> SettlesRun(r.run, s.run, false))
    && (!Ongoing(r.job) && r.job.state != Cancelled ==> s.run == r.run)
  }

  /** Recovery stops a running job whose lease has run out: a retry while attempts are left, otherwise the end. */
  ghost predicate RecoversRow(r: Record, s: Record, now: int) {
    var ranOut := r.job.state == Running && r.job.lease.Some? && r.job.lease.value.expiresAt <= now;
    var again := r.job.attemptCount < r.job.maxAttempts;
    && (!ranOut ==> s == r)
    && (ranOut ==>
          && StopsJob(r.job, s.job, again, now, now)
          && Closes(r.attempts, s.attempts, r.job.attemptCount, AttemptExpired) && s.issued == r.issued
          && if r.job.kind == "scenario.revalue" then SettlesRun(r.run, s.run, again) else s.run == r.run)
  }

  // ----- The transitions are these

  lemma CloseIs(attempts: map<nat, Attempt>, n: nat, outcome: Outcome)
    ensures Closes(attempts, Close(attempts, n, outcome), n, outcome)
    ensures ClosesAll(attempts, CloseAll(attempts, AttemptCancelled))
  {
    assert CloseAll(attempts, AttemptCancelled).Keys == attempts.Keys;
    if n in attempts && attempts[n].outcome.None? { assert Close(attempts, n, outcome).Keys == attempts.Keys; }
  }

  lemma ClaimIs(r: Record, client: Client, id: Id, worker: string, lease: int, now: int)
    ensures Waiting(r.job, now) ==>
              ClaimsRow(r, Evolve(r, id, ClaimJob(client, id, worker, lease), now), client, id, worker, lease, now)
    ensures !Waiting(r.job, now) ==> Evolve(r, id, ClaimJob(client, id, worker, lease), now) == r
  {
  }

  lemma RenewIs(r: Record, id: Id, claim: Claim, lease: int, now: int)
    requires claim.id == id
    ensures RenewsRow(r, Evolve(r, id, Renew(claim, lease), now), claim, lease, now)
  {
  }

  lemma CompleteIs(r: Record, id: Id, client: Client, claim: Claim, output: Output, now: int)
    requires claim.id == id
    ensures CompletesRow(r, Evolve(r, id, Complete(client, claim, output), now), client, claim, output, now,
                         CompleteReply(r, client, claim, output, now))
  {
    CloseIs(r.attempts, claim.attempt, AttemptSucceeded);
  }

  lemma FailIs(r: Record, id: Id, client: Client, claim: Claim, retryable: bool, delay: int, now: int)
    requires claim.id == id
    ensures FailsRow(r, Evolve(r, id, Fail(client, claim, retryable, delay), now), client, claim, retryable, delay, now)
  {
    CloseIs(r.attempts, claim.attempt, AttemptRetryable);
    CloseIs(r.attempts, claim.attempt, AttemptFailed);
  }

  lemma CancelIs(r: Record, id: Id, now: int)
    ensures CancelsRow(r, Evolve(r, id, Cancel(id), now), now)
    ensures CancelsRun(r, Evolve(r, id, CancelRun(id), now), now)
  {
    CloseIs(r.attempts, 0, AttemptCancelled);
  }

  lemma RecoverIs(r: Record, id: Id, now: int)
    ensures RecoversRow(r, Evolve(r, id, RecoverExpired, now), now)
  {
    CloseIs(r.attempts, r.job.attemptCount, AttemptExpired);
  }
}
