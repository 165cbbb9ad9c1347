/** What each statement on a collector schedule does to its row, claims and ingestion runs, told by their columns. */
module CollectorMeaning {
  import opened Results
  import opened IngestionRuns
  import opened Collector

  type Id = nat

  /** A schedule can be claimed: its retry, or else its next run, is due; no lease runs, and attempts are left. */
  ghost predicate Due(row: Schedule, now: int) {
    && row.active && row.attemptCount < row.maxAttempts
    && (row.retryAt.Some? ==> row.retryAt.value <= now)
    && (row.retryAt.None? ==> row.nextRunAt <= now)
    && (row.lease.Some? ==> row.lease.value.expiresAt <= now)
  }

  /** Of all schedules that are due and unlocked this one runs next: by the time of its next run, then its id. */
  ghost predicate FirstDue(rows: map<Id, Schedule>, locked: set<Id>, now: int, id: Id) {
    && id in rows && id !in locked && Due(rows[id], now)
    && forall i :: i in rows && i !in locked && Due(rows[i], now) ==>
         rows[id].nextRunAt < rows[i].nextRunAt || (rows[id].nextRunAt == rows[i].nextRunAt && id <= i)
  }

  /** The claim's own lease still runs. */
  ghost predicate LeaseRuns(row: Schedule, claim: Claim, now: int) {
    && row.lease.Some? && row.lease.value.owner == claim.owner && row.lease.value.token == claim.token
    && now < row.lease.value.expiresAt
  }

  // ----- The statements

  /** A claim counts an attempt and leases the schedule; the occurrence is the time of its next run. */
  ghost predicate ClaimsSchedule(s: State, t: State, claim: Claim, owner: string, token: nat, now: int) {
    && t.row == s.row.(lease := t.row.lease, attemptCount := s.row.attemptCount + 1)
    && t.row.lease == Some(Lease(owner, token, now + s.row.leaseSeconds))
    && claim == Claim(owner, token, s.row.attemptCount + 1, s.row.nextRunAt, now)
    && t.claims == s.claims + [claim] && t.completed == s.completed && t.runs == s.runs
  }

  /** Starting the run of an occurrence makes a running one or takes up a failed one; any other stays as it is. */
  ghost predicate StartsRun(s: State, t: State, claim: Claim, newRun: RunId) {
    && t.row == s.row && t.claims == s.claims && t.completed == s.completed
    && t.runs.Keys == s.runs.Keys + {claim.due}
    && (forall due :: due in s.runs && due != claim.due ==> t.runs[due] == s.runs[due])
    && (claim.due !in s.runs ==> t.runs[claim.due].id == newRun && t.runs[claim.due].status == RunRunning)
    && (claim.due in s.runs ==>
          && t.runs[claim.due].id == s.runs[claim.due].id
          && (s.runs[claim.due].status == RunFailed ==> t.runs[claim.due].status == RunRunning)
          && (s.runs[claim.due].status != RunFailed ==> t.runs[claim.due].status == s.runs[claim.due].status))
  }

  /** Ending the run of an occurrence, if there is one. */
  ghost predicate EndsRun(s: State, t: State, claim: Claim, succeeded: bool) {
    && t.row == s.row && t.claims == s.claims && t.completed == s.completed && t.runs.Keys == s.runs.Keys
    && (forall due :: due in s.runs && due != claim.due ==> t.runs[due] == s.runs[due])
    && (claim.due in s.runs ==>
          && t.runs[claim.due].id == s.runs[claim.due].id
          && (succeeded ==> t.runs[claim.due].status == RunSucceeded)
          && (!succeeded ==> t.runs[claim.due].status == RunFailed))
  }

  /** A completion by the lease holder moves the schedule on by its interval, with all attempts again before it. */
  ghost predicate CompletesSchedule(s: State, t: State, claim: Claim, read: int, now: int) {
    && t.claims == s.claims && t.runs == s.runs
    && (!LeaseRuns(s.row, claim, now) ==> t == s)
    && (LeaseRuns(s.row, claim, now) ==>
          && t.completed == s.completed + [claim.due]
          && t.row.nextRunAt == read + s.row.intervalSeconds && t.row.retryAt == None && t.row.lease == None
          && t.row.attemptCount == 0 && t.row.active == s.row.active && t.row.intervalSeconds == s.row.intervalSeconds
          && t.row.leaseSeconds == s.row.leaseSeconds && t.row.maxAttempts == s.row.maxAttempts)
  }

  /** A failure by the lease holder sets a retry after the interval; the last attempt switches the schedule off. */
  ghost predicate FailsSchedule(s: State, t: State, claim: Claim, read: int, now: int) {
    && t.claims == s.claims && t.runs == s.runs && t.completed == s.completed
    && (!LeaseRuns(s.row, claim, now) ==> t == s)
    && (LeaseRuns(s.row, claim, now) ==>
          && t.row == s.row.(retryAt := t.row.retryAt, lease := None, active := t.row.active)
          && t.row.retryAt == Some(read + s.row.intervalSeconds)
          && (t.row.active <==> s.row.active && claim.attempt < s.row.maxAttempts))
  }

  // ----- The transitions are these

  lemma DueIs(row: Schedule, now: int)
    ensures Claimable(row, now) <==> Due(row, now)
  {
  }

  lemma ClaimDueIs(s: State, owner: string, token: nat, now: int)
    ensures Due(s.row, now) ==>
              ClaimsSchedule(s, Next(s, ClaimDue(owner, token, now)),
                             Claim(owner, token, s.row.attemptCount + 1, s.row.nextRunAt, now), owner, token, now)
    ensures !Due(s.row, now) ==> Next(s, ClaimDue(owner, token, now)) == s
  {
  }

  lemma StartRunIs(s: State, claim: Claim, newRun: RunId, now: int)
    ensures StartsRun(s, Next(s, StartRun(claim, newRun, now)), claim, newRun)
  {
  }

  lemma EndRunIs(s: State, claim: Claim, succeeded: bool, now: int)
    ensures EndsRun(s, Next(s, EndRun(claim, succeeded, now)), claim, succeeded)
  {
  }

  lemma CompleteIs(s: State, claim: Claim, read: int, now: int)
    ensures CompletesSchedule(s, Next(s, Complete(claim, read, now)), claim, read, now)
  {
  }

  lemma FailIs(s: State, claim: Claim, read: int, now: int)
    ensures FailsSchedule(s, Next(s, Fail(claim, read, now)), claim, read, now)
  {
  }
}
