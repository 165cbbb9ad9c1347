/**
 * One risk job: its row, its attempt ledger and, for a scenario revaluation, the scenario run that
 * refers to it. Each transition is what one database transaction does to these rows.
 */
module JobRecords {
  import opened Results

  type Id = nat

  const SCENARIO := "scenario.revalue"

  datatype JobState = Queued | Running | Succeeded | RetryableFailed | Failed | Cancelled

  datatype Lease = Lease(owner: string, expiresAt: int)

  datatype Job = Job(
    kind: string,
    key: string,
    state: JobState,
    attemptCount: nat,
    maxAttempts: int,
    createdAt: int,
    availableAt: int,
    lease: Option<Lease>,
    completedAt: Option<int>)

  datatype Outcome = AttemptSucceeded | AttemptRetryable | AttemptFailed | AttemptCancelled | AttemptExpired

  /** A row of the ledger; it is open until it has an outcome. */
  datatype Attempt = Attempt(worker: string, leaseExpiresAt: int, outcome: Option<Outcome>)

  datatype RunState = RunQueued | RunRunning | RunValid | RunDegraded | RunBlocked | RunFailed

  /** What a worker holds after claiming a job. */
  datatype Claim = Claim(id: Id, worker: string, attempt: nat, maxAttempts: int)

  /** The rows of one job, and every claim ever handed out for it. */
  datatype Record = Record(job: Job, attempts: map<nat, Attempt>, run: Option<RunState>, issued: set<Claim>)

  /** The Go queue and the Python client run almost the same statements. */
  datatype Client = Go | Python

  /** The scenario output a worker hands in; rows are its position, attribution and metric rows. */
  datatype Output = NotAnObject | Output(state: string, rowsStore: bool)

  datatype Reply = Accepted | Stale | OutputRejected | RunNotFound

  // ----- Transitions

  predicate Claimable(job: Job, now: int) {
    (job.state.Queued? || job.state.RetryableFailed?) && job.availableAt <= now
  }

  predicate Active(state: JobState) {
    state.Queued? || state.RetryableFailed? || state.Running?
  }

  predicate OpenRun(run: Option<RunState>) {
    run == Some(RunQueued) || run == Some(RunRunning)
  }

  /** The row condition every write by a lease holder repeats. */
  predicate Live(job: Job, claim: Claim, now: int) {
    && job.state.Running?
    && job.lease.Some?
    && job.lease.value.owner == claim.worker
    && job.attemptCount == claim.attempt
    && job.lease.value.expiresAt > now
  }

  function Close(attempts: map<nat, Attempt>, n: nat, outcome: Outcome): map<nat, Attempt> {
    if n in attempts && attempts[n].outcome.None?
    then attempts[n := attempts[n].(outcome := Some(outcome))]
    else attempts
  }

  function CloseAll(attempts: map<nat, Attempt>, outcome: Outcome): map<nat, Attempt> {
    map n | n in attempts :: if attempts[n].outcome.None? then attempts[n].(outcome := Some(outcome)) else attempts[n]
  }

  function NextClaim(job: Job, id: Id, worker: string): Claim {
    Claim(id, worker, job.attemptCount + 1, job.maxAttempts)
  }

  function ClaimRecord(r: Record, client: Client, id: Id, worker: string, lease: int, now: int): Record {
    var n := r.job.attemptCount + 1;
    Record(
      r.job.(state := Running, attemptCount := n, lease := Some(Lease(worker, now + lease))),
      r.attempts[n := Attempt(worker, now + lease, None)],
      if client.Python? && r.job.kind == SCENARIO && r.run == Some(RunQueued) then Some(RunRunning) else r.run,
      r.issued + {NextClaim(r.job, id, worker)})
  }

  function RenewRecord(r: Record, claim: Claim, lease: int, now: int): Record {
    if Live(r.job, claim, now)
    then r.(job := r.job.(lease := Some(Lease(claim.worker, now + lease))))
    else r
  }

  function RunStateOf(state: string): Option<RunState> {
    if state == "valid" then Some(RunValid)
    else if state == "degraded" then Some(RunDegraded)
    else if state == "blocked" then Some(RunBlocked)
    else None
  }

  /** What completing a job replies; only the Python client stores the scenario's evidence with it. */
  function CompleteReply(r: Record, client: Client, claim: Claim, output: Output, now: int): Reply {
    if !Live(r.job, claim, now) then Stale
    else if client.Go? || r.job.kind != SCENARIO then Accepted
    else if output.NotAnObject? || RunStateOf(output.state).None? then OutputRejected
    else if !OpenRun(r.run) then RunNotFound
    else if !output.rowsStore then OutputRejected
    else Accepted
  }

  /** Anything but acceptance rolls the transaction back. */
  function CompleteRecord(r: Record, client: Client, claim: Claim, output: Output, now: int): Record {
    if !CompleteReply(r, client, claim, output, now).Accepted? then r
    else
      Record(
        r.job.(state := Succeeded, lease := None, completedAt := Some(now)),
        Close(r.attempts, claim.attempt, AttemptSucceeded),
        if client.Python? && r.job.kind == SCENARIO && output.Output? then RunStateOf(output.state) else r.run,
        r.issued)
  }

  /** The Go queue decides on retry by the claim it holds, the Python client by the row. */
  function Retries(r: Record, client: Client, claim: Claim, retryable: bool): bool {
    retryable && if client.Go? then claim.attempt < claim.maxAttempts else r.job.attemptCount < r.job.maxAttempts
  }

  function Requeued(run: Option<RunState>): Option<RunState> {
    if run == Some(RunRunning) then Some(RunQueued) else run
  }

  function Abandoned(run: Option<RunState>): Option<RunState> {
    if OpenRun(run) then Some(RunFailed) else run
  }

  function Stopped(job: Job, retry: bool, availableAt: int, now: int): Job {
    job.(state := if retry then RetryableFailed else Failed, availableAt := availableAt,
         lease := None, completedAt := if retry then None else Some(now))
  }

  function FailRecord(r: Record, client: Client, claim: Claim, retryable: bool, delay: int, now: int): Record {
    if !Live(r.job, claim, now) then r
    else
      var retry := Retries(r, client, claim, retryable);
      Record(
        Stopped(r.job, retry, if client.Go? then now + delay else now, now),
        Close(r.attempts, claim.attempt, if retry then AttemptRetryable else AttemptFailed),
        if client.Go? then r.run else if retry then Requeued(r.run) else Abandoned(r.run),
        r.issued)
  }

  function CancelledJob(job: Job, now: int): Job {
    job.(state := Cancelled, lease := None, completedAt := Some(now))
  }

  /** Cancelling through the queue closes the ledger and leaves the scenario run alone. */
  function CancelRecord(r: Record, now: int): Record {
    if !Active(r.job.state) then r
    else r.(job := CancelledJob(r.job, now), attempts := CloseAll(r.attempts, AttemptCancelled))
  }

  /** Cancelling a risk run closes the scenario run and leaves the ledger alone. */
  function CancelRunRecord(r: Record, now: int): Record {
    if r.run.None? then r
    else if Active(r.job.state) then r.(job := CancelledJob(r.job, now), run := Abandoned(r.run))
    else if r.job.state.Cancelled? then r.(run := Abandoned(r.run))
    else r
  }

  predicate Expired(job: Job, now: int) {
    job.state.Running? && job.lease.Some? && job.lease.value.expiresAt <= now
  }

  function RecoverRecord(r: Record, now: int): Record {
    if !Expired(r.job, now) then r
    else
      var retry := r.job.attemptCount < r.job.maxAttempts;
      Record(
        Stopped(r.job, retry, now, now),
        Close(r.attempts, r.job.attemptCount, AttemptExpired),
        if r.job.kind != SCENARIO then r.run else if retry then Requeued(r.run) else Abandoned(r.run),
        r.issued)
  }

  // ----- Steps on one record

  datatype Op =
    | Enqueue(id: Id, kind: string, key: string, maxAttempts: int, availableAt: int)
    | CreateRun(id: Id, key: string)
    | ClaimJob(client: Client, id: Id, worker: string, lease: int)
    | Renew(claim: Claim, lease: int)
    | Complete(client: Client, claim: Claim, output: Output)
    | Fail(client: Client, claim: Claim, retryable: bool, delay: int)
    | Cancel(id: Id)
    | CancelRun(id: Id)
    | RecoverExpired

  /** What an operation anywhere in the system does to the rows of job id. */
  function Evolve(r: Record, id: Id, op: Op, now: int): Record {
    match op
    case Enqueue(_, _, _, _, _) => r
    case CreateRun(_, _) => r
    case ClaimJob(client, i, worker, lease) =>
      if i == id && Claimable(r.job, now) then ClaimRecord(r, client, id, worker, lease, now) else r
    case Renew(claim, lease) => if claim.id == id then RenewRecord(r, claim, lease, now) else r
    case Complete(client, claim, output) => if claim.id == id then CompleteRecord(r, client, claim, output, now) else r
    case Fail(client, claim, retryable, delay) =>
      if claim.id == id then FailRecord(r, client, claim, retryable, delay, now) else r
    case Cancel(i) => if i == id then CancelRecord(r, now) else r
    case CancelRun(i) => if i == id then CancelRunRecord(r, now) else r
    case RecoverExpired => RecoverRecord(r, now)
  }

  /** The Go queue trusts the retry limit in the claim it is handed, so it must be one the queue issued. */
  predicate Admissible(r: Record, id: Id, op: Op) {
    op.Fail? && op.client.Go? && op.claim.id == id ==> op.claim in r.issued
  }

  function NewRecord(kind: string, key: string, maxAttempts: int, availableAt: int, run: Option<RunState>,
                     now: int): Record {
    Record(Job(kind, key, Queued, 0, if maxAttempts <= 0 then 3 else maxAttempts, now, availableAt, None, None),
           map[], run, {})
  }

  // ----- The ledger

  predicate Terminal(state: JobState) {
    !Active(state)
  }

  ghost predicate Retried(outcome: Option<Outcome>) {
    outcome == Some(AttemptRetryable) || outcome == Some(AttemptExpired)
  }

  /** How the newest attempt of a job in a given state ended. */
  ghost predicate Explains(outcome: Option<Outcome>, state: JobState) {
    match state
    case Queued => false
    case Running => outcome.None?
    case Succeeded => outcome == Some(AttemptSucceeded)
    case RetryableFailed => Retried(outcome)
    case Failed => outcome == Some(AttemptFailed) || outcome == Some(AttemptExpired)
    case Cancelled => outcome.None? || outcome == Some(AttemptCancelled) || Retried(outcome)
  }

  ghost predicate RowSound(job: Job) {
    && 1 <= job.maxAttempts
    && job.attemptCount <= job.maxAttempts
    && (job.state.Queued? || job.state.RetryableFailed? ==> job.attemptCount < job.maxAttempts)
    && (job.state.Running? <==> job.lease.Some?)
    && (Terminal(job.state) <==> job.completedAt.Some?)
    && (job.attemptCount == 0 ==> job.state.Queued? || job.state.Cancelled?)
    && (job.state.Queued? ==> job.attemptCount == 0)
  }

  /** The attempts are exactly 1..attempt_count: all but the newest ended in a retry, the newest explains the state. */
  ghost predicate Ledger(job: Job, attempts: map<nat, Attempt>) {
    && (forall n :: n in attempts <==> 1 <= n <= job.attemptCount)
    && (forall n :: 1 <= n < job.attemptCount ==> n in attempts && Retried(attempts[n].outcome))
    && (1 <= job.attemptCount ==>
          job.attemptCount in attempts && Explains(attempts[job.attemptCount].outcome, job.state))
    && (job.state.Running? && job.lease.Some? && job.attemptCount in attempts ==>
          attempts[job.attemptCount].worker == job.lease.value.owner)
  }

  ghost predicate ClaimsSound(r: Record, id: Id) {
    forall c :: c in r.issued ==>
      && c.id == id && c.maxAttempts == r.job.maxAttempts
      && 1 <= c.attempt <= r.job.attemptCount
      && c.attempt in r.attempts && r.attempts[c.attempt].worker == c.worker
  }

  ghost predicate Sound(r: Record, id: Id) {
    RowSound(r.job) && Ledger(r.job, r.attempts) && ClaimsSound(r, id)
  }

  /** An attempt is open exactly while its job runs. */
  ghost predicate OpenWhileRunning(r: Record) {
    forall n :: n in r.attempts && r.attempts[n].outcome.None? ==> r.job.state.Running?
  }

  /** The scenario run is in the state its job calls for; other jobs have none. */
  ghost predicate Coupled(r: Record) {
    if r.job.kind != SCENARIO then r.run.None?
    else
      match r.job.state
      case Queued => r.run == Some(RunQueued)
      case RetryableFailed => r.run == Some(RunQueued)
      case Running => r.run == Some(RunRunning)
      case Succeeded => r.run == Some(RunValid) || r.run == Some(RunDegraded) || r.run == Some(RunBlocked)
      case Failed => r.run == Some(RunFailed)
      case Cancelled => r.run == Some(RunFailed)
  }

  // ----- What every step keeps

  lemma ClaimKeepsSound(r: Record, client: Client, id: Id, worker: string, lease: int, now: int)
    requires Sound(r, id) && Claimable(r.job, now)
    ensures r.job.attemptCount + 1 !in r.attempts
    ensures Sound(ClaimRecord(r, client, id, worker, lease, now), id)
  {
  }

  lemma CompleteKeepsSound(r: Record, id: Id, client: Client, claim: Claim, output: Output, now: int)
    requires Sound(r, id)
    ensures Sound(CompleteRecord(r, client, claim, output, now), id)
  {
  }

  lemma IssuedClaimAgrees(r: Record, id: Id, client: Client, claim: Claim, retryable: bool, now: int)
    requires Sound(r, id) && Live(r.job, claim, now) && (client.Go? ==> claim in r.issued)
    ensures Retries(r, client, claim, retryable) <==> retryable && r.job.attemptCount < r.job.maxAttempts
  {
  }

  lemma FailKeepsSound(r: Record, id: Id, client: Client, claim: Claim, retryable: bool, delay: int, now: int)
    requires Sound(r, id) && (client.Go? ==> claim in r.issued)
    ensures Sound(FailRecord(r, client, claim, retryable, delay, now), id)
  {
    if Live(r.job, claim, now) { IssuedClaimAgrees(r, id, client, claim, retryable, now); }
  }

  lemma CancelKeepsSound(r: Record, id: Id, now: int)
    requires Sound(r, id)
    ensures Sound(CancelRecord(r, now), id)
  {
  }

  lemma CancelRunKeepsSound(r: Record, id: Id, now: int)
    requires Sound(r, id)
    ensures Sound(CancelRunRecord(r, now), id)
  {
  }

  lemma RecoverKeepsSound(r: Record, id: Id, now: int)
    requires Sound(r, id)
    ensures Sound(RecoverRecord(r, now), id)
  {
  }

  /** Every step of every client, both cancel paths included, keeps the ledger. */
  lemma EvolveKeepsSound(r: Record, id: Id, op: Op, now: int)
    requires Sound(r, id) && Admissible(r, id, op)
    ensures Sound(Evolve(r, id, op, now), id)
  {
    match op
    case ClaimJob(client, i, worker, lease) =>
      if i == id && Claimable(r.job, now) { ClaimKeepsSound(r, client, id, worker, lease, now); }
    case Complete(client, claim, output) => CompleteKeepsSound(r, id, client, claim, output, now);
    case Fail(client, claim, retryable, delay) =>
      if claim.id == id { FailKeepsSound(r, id, client, claim, retryable, delay, now); }
    case Cancel(_) => CancelKeepsSound(r, id, now);
    case CancelRun(_) => CancelRunKeepsSound(r, id, now);
    case RecoverExpired => RecoverKeepsSound(r, id, now);
    case Renew(_, _) =>
    case Enqueue(_, _, _, _, _) =>
    case CreateRun(_, _) =>
  }

  /** Without the cancel path of the risk service, an attempt is open exactly while its job runs. */
  lemma EvolveKeepsOpenWhileRunning(r: Record, id: Id, op: Op, now: int)
    requires Sound(r, id) && Admissible(r, id, op) && OpenWhileRunning(r) && !op.CancelRun?
    ensures OpenWhileRunning(Evolve(r, id, op, now))
  {
    EvolveKeepsSound(r, id, op, now);
    if op.Cancel? { assert forall n :: n in CancelRecord(r, now).attempts ==> n in r.attempts; }
  }

  /** Cancelling a run through the risk service leaves an attempt open exactly when its job was running. */
  lemma CancelRunOpensExactly(r: Record, id: Id, now: int)
    requires Sound(r, id) && OpenWhileRunning(r)
    ensures OpenWhileRunning(CancelRunRecord(r, now)) <==> !(r.run.Some? && r.job.state.Running?)
  {
    if r.job.state.Running? { assert r.job.attemptCount in r.attempts; }
  }

  // ----- Coupling

  /**
   * The steps that move a scenario job without moving its run: the Go queue's claim, completion, failure and cancel.
   */
  predicate Uncouples(r: Record, id: Id, op: Op, now: int) {
    r.job.kind == SCENARIO &&
    match op
    case ClaimJob(client, i, _, _) => client.Go? && i == id && Claimable(r.job, now)
    case Complete(client, claim, _) => client.Go? && claim.id == id && Live(r.job, claim, now)
    case Fail(client, claim, _, _) => client.Go? && claim.id == id && Live(r.job, claim, now)
    case Cancel(i) => i == id && Active(r.job.state)
    case _ => false
  }

  /** Job and run stay coupled through exactly the steps that do not uncouple them. */
  lemma CoupledExactly(r: Record, id: Id, op: Op, now: int)
    requires Sound(r, id) && Coupled(r)
    ensures Coupled(Evolve(r, id, op, now)) <==> !Uncouples(r, id, op, now)
  {
  }

  /** A job at work or waiting has its run open, if it has one at all. */
  ghost predicate RunOpen(r: Record) {
    Active(r.job.state) && r.run.Some? ==> OpenRun(r.run)
  }

  /** Every step of either client keeps it, coupled or not; and no step takes a run away. */
  lemma EvolveKeepsRunOpen(r: Record, id: Id, op: Op, now: int)
    requires RunOpen(r)
    ensures RunOpen(Evolve(r, id, op, now))
    ensures Evolve(r, id, op, now).run.Some? <==> r.run.Some?
  {
  }

  predicate AcceptableOutput(output: Output) {
    output.Output? && RunStateOf(output.state).Some?
  }

  /**
   * A completion misses its run exactly when a live Python claim hands in acceptable output for a scenario job that
   * has none.
   */
  lemma RunMissingExactly(r: Record, client: Client, claim: Claim, output: Output, now: int)
    requires RunOpen(r)
    ensures CompleteReply(r, client, claim, output, now).RunNotFound? <==>
              && Live(r.job, claim, now) && client.Python?
              && r.job.kind == SCENARIO && AcceptableOutput(output) && r.run.None?
  {
  }

  /** Cancelling the run of a job that the queue has cancelled couples the two again. */
  lemma CancelRunHeals(r: Record, id: Id, now: int, later: int)
    requires Sound(r, id) && Coupled(r) && r.job.kind == SCENARIO && Active(r.job.state)
    ensures var healed := CancelRunRecord(CancelRecord(r, now), later);
            Coupled(healed) && OpenWhileRunning(healed) && healed.job == CancelledJob(r.job, now)
  {
  }

  // ----- Progress and fencing

  /** How far a job has come: each state change moves it forward, by at most twice max_attempts in all. */
  ghost function Progress(job: Job): int {
    if Terminal(job.state) then 2 * job.maxAttempts
    else if job.state.Running? then 2 * job.attemptCount - 1
    else 2 * job.attemptCount
  }

  /** What no step undoes: terminal rows stay, counts only grow, closed attempts and issued claims stay. */
  ghost predicate Forward(r: Record, q: Record) {
    && q.job.kind == r.job.kind && q.job.key == r.job.key && q.job.maxAttempts == r.job.maxAttempts
    && r.job.attemptCount <= q.job.attemptCount
    && r.issued <= q.issued
    && (Terminal(r.job.state) ==> q.job == r.job)
    && (forall n :: n in r.attempts ==>
          && n in q.attempts && q.attempts[n].worker == r.attempts[n].worker
          && (r.attempts[n].outcome.Some? ==> q.attempts[n] == r.attempts[n]))
    && (r.run.Some? && !OpenRun(r.run) ==> q.run == r.run)
  }

  lemma EvolveForward(r: Record, id: Id, op: Op, now: int)
    requires Sound(r, id) && Admissible(r, id, op)
    ensures Forward(r, Evolve(r, id, op, now))
  {
  }

  lemma EvolveProgress(r: Record, id: Id, op: Op, now: int)
    requires Sound(r, id) && Admissible(r, id, op)
    ensures var q := Evolve(r, id, op, now);
            && 0 <= Progress(r.job) <= Progress(q.job) <= 2 * r.job.maxAttempts
            && (q.job.state != r.job.state ==> Progress(r.job) < Progress(q.job))
  {
  }

  /** After a retryable failure the Go queue keeps a job back for its delay, the Python client not at all. */
  lemma RetryWaits(r: Record, id: Id, client: Client, claim: Claim, delay: int, now: int, later: int)
    requires Sound(r, id) && Live(r.job, claim, now) && (client.Go? ==> claim in r.issued)
    ensures Claimable(FailRecord(r, client, claim, true, delay, now).job, later) <==>
              r.job.attemptCount < r.job.maxAttempts && now + (if client.Go? then delay else 0) <= later
  {
    IssuedClaimAgrees(r, id, client, claim, true, now);
  }

  /** The claim whose holder tries to write, if the operation is a lease holder's. */
  predicate WritesAs(op: Op, claim: Claim) {
    (op.Renew? || op.Complete? || op.Fail?) && op.claim == claim
  }

  /** A write by a lease holder changes something only if its claim is the newest and its lease still runs. */
  lemma OnlyLiveClaimWrites(r: Record, id: Id, op: Op, claim: Claim, now: int)
    requires Sound(r, id) && claim.id == id && WritesAs(op, claim) && Evolve(r, id, op, now) != r
    ensures r.job.state.Running? && claim.attempt == r.job.attemptCount
    ensures r.job.lease.value.owner == claim.worker && now < r.job.lease.value.expiresAt
    ensures r.attempts[claim.attempt].worker == claim.worker && r.attempts[claim.attempt].outcome.None?
    ensures forall other :: other in r.issued ==> other.attempt <= claim.attempt
  {
  }

  /** A lost claim: superseded, stopped, or past its lease. */
  ghost predicate Lost(r: Record, claim: Claim, now: int) {
    || claim.attempt < r.job.attemptCount
    || (claim.attempt == r.job.attemptCount && !Live(r.job, claim, now))
  }

  /** A lost claim writes nothing, and stays lost. */
  lemma LostStaysLost(r: Record, id: Id, op: Op, claim: Claim, now: int, later: int)
    requires Lost(r, claim, now) && now <= later
    ensures Lost(Evolve(r, id, op, later), claim, later)
    ensures claim.id == id && WritesAs(op, claim) ==> Evolve(r, id, op, later) == r
  {
  }
}
