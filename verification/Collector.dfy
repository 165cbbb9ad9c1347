/**
 * A collector schedule and the occurrences it hands out: token-fenced leases, retries with a limit, and
 * one ingestion run per occurrence.
 */
module Collector {
  import opened Results
  import opened IngestionRuns

  datatype Lease = Lease(owner: string, token: nat, expiresAt: int)

  datatype Schedule = Schedule(
    active: bool,
    intervalSeconds: int,
    leaseSeconds: int,
    maxAttempts: int,
    nextRunAt: int,
    retryAt: Option<int>,
    attemptCount: nat,
    lease: Option<Lease>)

  /** What a worker is handed; the time due identifies the occurrence of the schedule. */
  datatype Claim = Claim(owner: string, token: nat, attempt: nat, due: int, at: int)

  type RunId = nat

  datatype Run = Run(id: RunId, status: Status)

  /** The row, every claim and completion so far in order, and the ingestion run of each occurrence. */
  datatype State = State(row: Schedule, claims: seq<Claim>, completed: seq<int>, runs: map<int, Run>)

  // ----- Transitions

  function DueAt(row: Schedule): int {
    if row.retryAt.Some? then row.retryAt.value else row.nextRunAt
  }

  predicate Claimable(row: Schedule, now: int) {
    && row.active && DueAt(row) <= now
    && (row.lease.None? || row.lease.value.expiresAt <= now)
    && row.attemptCount < row.maxAttempts
  }

  /** The condition a lease holder's write repeats: owner and token match and the lease still runs. */
  predicate Holds(row: Schedule, claim: Claim, now: int) {
    && row.lease.Some?
    && row.lease.value.owner == claim.owner
    && row.lease.value.token == claim.token
    && row.lease.value.expiresAt > now
  }

  function Claimed(row: Schedule, owner: string, token: nat, now: int): Schedule {
    row.(lease := Some(Lease(owner, token, now + row.leaseSeconds)), attemptCount := row.attemptCount + 1)
  }

  function Completed(row: Schedule, next: int): Schedule {
    row.(nextRunAt := next, retryAt := None, lease := None, attemptCount := 0)
  }

  function Failed(row: Schedule, claim: Claim, retryAt: int): Schedule {
    row.(retryAt := Some(retryAt), active := row.active && claim.attempt < row.maxAttempts, lease := None)
  }

  /** The run of an occurrence: a new one, or the one there is, taken up again if it had failed. */
  function Started(runs: map<int, Run>, due: int, newRun: RunId): Run {
    if due in runs then runs[due].(status := Resumed(runs[due].status)) else Run(newRun, RunRunning)
  }

  /** A handler settles its run without asking who holds the schedule. */
  function Ended(run: Run, succeeded: bool): Run {
    run.(status := if succeeded then RunSucceeded else RunFailed)
  }

  datatype Event =
    | ClaimDue(owner: string, token: nat, now: int)
    | StartRun(claim: Claim, newRun: RunId, now: int)
    | Complete(claim: Claim, read: int, now: int)
    | Fail(claim: Claim, read: int, now: int)
    | EndRun(claim: Claim, succeeded: bool, now: int)

  /** One statement at time now; the worker read its clock a little earlier to set the next time due. */
  function Next(s: State, e: Event): State {
    match e
    case ClaimDue(owner, token, now) =>
      if Claimable(s.row, now)
      then s.(row := Claimed(s.row, owner, token, now),
              claims := s.claims + [Claim(owner, token, s.row.attemptCount + 1, s.row.nextRunAt, now)])
      else s
    case StartRun(claim, newRun, _) =>
      s.(runs := s.runs[claim.due := Started(s.runs, claim.due, newRun)])
    case Complete(claim, read, now) =>
      if Holds(s.row, claim, now)
      then s.(row := Completed(s.row, read + s.row.intervalSeconds), completed := s.completed + [claim.due])
      else s
    case Fail(claim, read, now) =>
      if Holds(s.row, claim, now) then s.(row := Failed(s.row, claim, read + s.row.intervalSeconds)) else s
    case EndRun(claim, succeeded, _) =>
      if claim.due in s.runs then s.(runs := s.runs[claim.due := Ended(s.runs[claim.due], succeeded)]) else s
  }

  function Execute(start: Schedule, events: seq<Event>): State {
    if events == [] then State(start, [], [], map[])
    else Next(Execute(start, events[..|events| - 1]), events[|events| - 1])
  }

  // ----- Histories

  ghost predicate TokenUsed(s: State, token: nat) {
    exists i :: 0 <= i < |s.claims| && s.claims[i].token == token
  }

  /** Lease tokens are never drawn twice; workers act on claims they hold, on one clock that never goes back. */
  ghost predicate Permitted(s: State, e: Event) {
    && (e.ClaimDue? ==> !TokenUsed(s, e.token))
    && (e.StartRun? ==> e.claim in s.claims && forall due :: due in s.runs ==> s.runs[due].id != e.newRun)
    && (e.EndRun? ==> e.claim in s.claims)
    && (e.Complete? || e.Fail? ==> e.claim in s.claims && e.claim.at <= e.read <= e.now)
  }

  ghost predicate History(start: Schedule, events: seq<Event>) {
    forall i :: 0 <= i < |events| ==> Permitted(Execute(start, events[..i]), events[i])
  }

  ghost predicate Fresh(row: Schedule) {
    row.intervalSeconds > 0 && row.maxAttempts > 0 && row.attemptCount == 0 && row.lease.None? && row.retryAt.None?
  }

  /** How often an occurrence has been claimed. */
  ghost function Claims(claims: seq<Claim>, due: int): nat {
    if claims == [] then 0
    else Claims(claims[..|claims| - 1], due) + if claims[|claims| - 1].due == due then 1 else 0
  }

  ghost predicate RowSound(s: State) {
    && s.row.intervalSeconds > 0 && s.row.maxAttempts > 0 && s.row.attemptCount <= s.row.maxAttempts
    && (s.row.retryAt.Some? ==> s.row.nextRunAt <= s.row.retryAt.value)
    && (s.row.lease.Some? ==>
          && s.claims != []
          && var last := s.claims[|s.claims| - 1];
             last.owner == s.row.lease.value.owner && last.token == s.row.lease.value.token
             && last.due == s.row.nextRunAt && last.attempt == s.row.attemptCount)
  }

  /** Claims are for the current or an earlier occurrence, after it fell due; no token is held twice. */
  ghost predicate ClaimsSound(s: State) {
    && (forall i :: 0 <= i < |s.claims| ==> s.claims[i].due <= s.row.nextRunAt && s.claims[i].due <= s.claims[i].at)
    && (forall i, j :: 0 <= i < j < |s.claims| ==> s.claims[i].token != s.claims[j].token)
  }

  ghost predicate CountsSound(s: State) {
    && Claims(s.claims, s.row.nextRunAt) == s.row.attemptCount
    && (forall due :: Claims(s.claims, due) <= s.row.maxAttempts)
    && (forall due :: due > s.row.nextRunAt ==> Claims(s.claims, due) == 0)
  }

  /** Occurrences complete in order, each before the next one falls due. */
  ghost predicate CompletionsSound(s: State) {
    && (forall i :: 0 <= i < |s.completed| ==> s.completed[i] < s.row.nextRunAt)
    && (forall i, j :: 0 <= i < j < |s.completed| ==> s.completed[i] < s.completed[j])
  }

  ghost predicate RunsSound(s: State) {
    && (forall a, b :: a in s.runs && b in s.runs && s.runs[a].id == s.runs[b].id ==> a == b)
  }

  ghost predicate Sound(s: State) {
    RowSound(s) && ClaimsSound(s) && CountsSound(s) && CompletionsSound(s) && RunsSound(s)
  }

  /** A live lease is the newest claim's, and only that claim matches it. */
  lemma HolderIsNewest(s: State, claim: Claim, now: int)
    requires RowSound(s) && ClaimsSound(s) && claim in s.claims && Holds(s.row, claim, now)
    ensures claim == s.claims[|s.claims| - 1]
    ensures claim.due == s.row.nextRunAt && claim.attempt == s.row.attemptCount
  {
    var i :| 0 <= i < |s.claims| && s.claims[i] == claim;
    assert i == |s.claims| - 1;
  }

  lemma ClaimKeepsSound(s: State, owner: string, token: nat, now: int)
    requires Sound(s) && !TokenUsed(s, token) && Claimable(s.row, now)
    ensures Sound(Next(s, ClaimDue(owner, token, now)))
  {
    var next := Next(s, ClaimDue(owner, token, now));
    assert next.claims[..|s.claims|] == s.claims;
    forall due ensures Claims(next.claims, due) == Claims(s.claims, due) + if due == s.row.nextRunAt then 1 else 0 {}
  }

  /** A completion moves the next time due strictly forward. */
  lemma CompleteKeepsSound(s: State, claim: Claim, read: int, now: int)
    requires Sound(s) && Permitted(s, Complete(claim, read, now)) && Holds(s.row, claim, now)
    ensures Sound(Next(s, Complete(claim, read, now)))
    ensures s.row.nextRunAt < Next(s, Complete(claim, read, now)).row.nextRunAt
  {
    HolderIsNewest(s, claim, now);
  }

  lemma FailKeepsSound(s: State, claim: Claim, read: int, now: int)
    requires Sound(s) && Permitted(s, Fail(claim, read, now)) && Holds(s.row, claim, now)
    ensures Sound(Next(s, Fail(claim, read, now)))
    ensures !Next(s, Fail(claim, read, now)).row.active <==> !s.row.active || s.row.attemptCount >= s.row.maxAttempts
  {
    HolderIsNewest(s, claim, now);
  }

  lemma NextKeepsSound(s: State, e: Event)
    requires Sound(s) && Permitted(s, e)
    ensures Sound(Next(s, e))
  {
    match e
    case ClaimDue(owner, token, now) => if Claimable(s.row, now) { ClaimKeepsSound(s, owner, token, now); }
    case Complete(claim, read, now) => if Holds(s.row, claim, now) { CompleteKeepsSound(s, claim, read, now); }
    case Fail(claim, read, now) => if Holds(s.row, claim, now) { FailKeepsSound(s, claim, read, now); }
    case StartRun(_, _, _) =>
    case EndRun(_, _, _) =>
  }

  lemma HistoryPrefix(start: Schedule, events: seq<Event>, k: nat)
    requires History(start, events) && k <= |events|
    ensures History(start, events[..k])
  {
    forall i | 0 <= i < k ensures Permitted(Execute(start, events[..k][..i]), events[..k][i]) {
      assert events[..k][..i] == events[..i];
    }
  }

  /**
   * Over every history of any number of workers: an occurrence is claimed at most max_attempts times,
   * completions are of strictly later and later occurrences, and no two occurrences share an ingestion run.
   */
  lemma {:induction false} AlwaysSound(start: Schedule, events: seq<Event>)
    requires Fresh(start) && History(start, events)
    ensures Sound(Execute(start, events))
  {
    if events != [] {
      var k := |events| - 1;
      HistoryPrefix(start, events, k);
      AlwaysSound(start, events[..k]);
      NextKeepsSound(Execute(start, events[..k]), events[k]);
    }
  }

  /** What no event undoes. */
  ghost predicate Forward(s: State, t: State) {
    && s.row.nextRunAt <= t.row.nextRunAt
    && s.claims <= t.claims
    && s.completed <= t.completed
    && (forall due :: due in s.runs ==> due in t.runs && t.runs[due].id == s.runs[due].id)
    && (|s.completed| < |t.completed| ==> s.row.nextRunAt < t.row.nextRunAt)
    && (forall i :: |s.claims| <= i < |t.claims| ==> s.row.nextRunAt <= t.claims[i].due)
  }

  lemma NextForward(s: State, e: Event)
    requires Sound(s) && Permitted(s, e)
    ensures Forward(s, Next(s, e))
  {
    if e.Complete? && Holds(s.row, e.claim, e.now) { CompleteKeepsSound(s, e.claim, e.read, e.now); }
  }

  lemma ForwardTransitive(r: State, s: State, t: State)
    requires Forward(r, s) && Forward(s, t)
    ensures Forward(r, t)
  {
    forall i | |r.claims| <= i < |t.claims| ensures r.row.nextRunAt <= t.claims[i].due {
      if i < |s.claims| { assert t.claims[i] == s.claims[i]; }
    }
  }

  lemma StepForward(start: Schedule, events: seq<Event>, k: nat, j: nat)
    requires Fresh(start) && History(start, events) && j == k + 1 <= |events|
    ensures Forward(Execute(start, events[..k]), Execute(start, events[..j]))
  {
    HistoryPrefix(start, events, k);
    AlwaysSound(start, events[..k]);
    NextForward(Execute(start, events[..k]), events[k]);
    assert events[..j][..k] == events[..k];
  }

  lemma {:induction false} AlwaysForward(start: Schedule, events: seq<Event>, i: nat, j: nat)
    requires Fresh(start) && History(start, events) && i <= j <= |events|
    ensures Forward(Execute(start, events[..i]), Execute(start, events[..j]))
    decreases j - i
  {
    if i < j {
      var k := j - 1;
      AlwaysForward(start, events, i, k);
      StepForward(start, events, k, j);
      ForwardTransitive(Execute(start, events[..i]), Execute(start, events[..k]), Execute(start, events[..j]));
    }
  }

  /** Once an occurrence has completed it is never claimed again, so no occurrence key is ever reused. */
  lemma CompletedNeverReclaimed(start: Schedule, events: seq<Event>, i: nat, j: nat, due: int, claim: Claim)
    requires Fresh(start) && History(start, events) && i <= j <= |events|
    requires due in Execute(start, events[..i]).completed
    requires claim in Execute(start, events[..j]).claims && claim !in Execute(start, events[..i]).claims
    ensures due < claim.due
  {
    var s, t := Execute(start, events[..i]), Execute(start, events[..j]);
    HistoryPrefix(start, events, i);
    AlwaysSound(start, events[..i]);
    AlwaysForward(start, events, i, j);
    var n :| 0 <= n < |t.claims| && t.claims[n] == claim;
    assert forall m :: 0 <= m < |s.claims| ==> t.claims[m] == s.claims[m];
  }

  /** Whether the k-th event completed an occurrence or failed an attempt for the holder of a claim. */
  ghost predicate Writes(start: Schedule, events: seq<Event>, k: nat, claim: Claim)
    requires k < |events|
  {
    var s, e := Execute(start, events[..k]), events[k];
    (e.Complete? || e.Fail?) && e.claim == claim && Holds(s.row, claim, e.now)
  }

  /** Once any newer claim exists, an older claim neither completes nor fails anything. */
  lemma NewerClaimFences(start: Schedule, events: seq<Event>, k: nat, older: Claim, newer: Claim, i: nat, j: nat)
    requires Fresh(start) && History(start, events) && k < |events|
    requires i < j < |Execute(start, events[..k]).claims|
    requires Execute(start, events[..k]).claims[i] == older && Execute(start, events[..k]).claims[j] == newer
    ensures !Writes(start, events, k, older)
  {
    HistoryPrefix(start, events, k);
    AlwaysSound(start, events[..k]);
    var s := Execute(start, events[..k]);
    if Writes(start, events, k, older) { HolderIsNewest(s, older, events[k].now); }
  }

  // ----- While a lease runs

  function After(s: State, events: seq<Event>): State {
    if events == [] then s else Next(After(s, events[..|events| - 1]), events[|events| - 1])
  }

  ghost predicate Frozen(s: State, t: State) {
    t.row == s.row && t.claims == s.claims && t.completed == s.completed
  }

  /** The claim's own completion or failure. */
  predicate Settles(e: Event, claim: Claim) {
    (e.Complete? || e.Fail?) && e.claim == claim
  }

  /** What all workers may do while a lease runs, before its holder settles it. */
  ghost predicate Meanwhile(s: State, events: seq<Event>, claim: Claim) {
    forall i :: 0 <= i < |events| ==>
      Permitted(After(s, events[..i]), events[i]) && Holds(s.row, claim, events[i].now) && !Settles(events[i], claim)
  }

  lemma MeanwhilePrefix(s: State, events: seq<Event>, claim: Claim, k: nat)
    requires Meanwhile(s, events, claim) && k <= |events|
    ensures Meanwhile(s, events[..k], claim)
  {
    forall i | 0 <= i < k
      ensures && Permitted(After(s, events[..k][..i]), events[..k][i]) && Holds(s.row, claim, events[..k][i].now)
              && !Settles(events[..k][i], claim)
    {
      assert events[..k][..i] == events[..i];
    }
  }

  lemma OthersChangeNothing(s: State, e: Event, claim: Claim)
    requires Sound(s) && claim in s.claims && Permitted(s, e) && Holds(s.row, claim, e.now) && !Settles(e, claim)
    ensures Frozen(s, Next(s, e)) && Sound(Next(s, e))
  {
    NextKeepsSound(s, e);
    HolderIsNewest(s, claim, e.now);
    if (e.Complete? || e.Fail?) && Holds(s.row, e.claim, e.now) { HolderIsNewest(s, e.claim, e.now); }
  }

  /** Until its holder settles a running lease, whatever anyone else does changes nothing of the schedule. */
  lemma {:induction false} LeaseProtects(s: State, events: seq<Event>, claim: Claim)
    requires Sound(s) && claim in s.claims && Meanwhile(s, events, claim)
    ensures Frozen(s, After(s, events)) && Sound(After(s, events))
  {
    if events != [] {
      var k := |events| - 1;
      MeanwhilePrefix(s, events, claim, k);
      LeaseProtects(s, events[..k], claim);
      OthersChangeNothing(After(s, events[..k]), events[k], claim);
    }
  }

  /** So a holder that completes while its lease runs completes its occurrence, whatever others did since its claim. */
  lemma HolderCompletes(s: State, events: seq<Event>, claim: Claim, read: int, now: int)
    requires Sound(s) && claim in s.claims && Meanwhile(s, events, claim) && Holds(s.row, claim, now)
    ensures var t := Next(After(s, events), Complete(claim, read, now));
            && t.row == Completed(s.row, read + s.row.intervalSeconds) && t.completed == s.completed + [s.row.nextRunAt]
  {
    LeaseProtects(s, events, claim);
    HolderIsNewest(s, claim, now);
  }

  // ----- Attempts used up

  /** Active, with every attempt used up and no lease running any more. */
  predicate Stuck(row: Schedule, now: int) {
    && row.active && row.attemptCount >= row.maxAttempts
    && (row.lease.None? || row.lease.value.expiresAt <= now)
  }

  /** What may happen from a state on, on a clock that has reached a time. */
  ghost predicate Continues(s: State, events: seq<Event>, since: int) {
    forall i :: 0 <= i < |events| ==> Permitted(After(s, events[..i]), events[i]) && since <= events[i].now
  }

  lemma ContinuesPrefix(s: State, events: seq<Event>, since: int, k: nat)
    requires Continues(s, events, since) && k <= |events|
    ensures Continues(s, events[..k], since)
  {
    forall i | 0 <= i < k ensures Permitted(After(s, events[..k][..i]), events[..k][i]) && since <= events[..k][i].now {
      assert events[..k][..i] == events[..i];
    }
  }

  /** A stuck schedule stays as it is whatever the workers do: never claimed, completed, failed or switched off. */
  lemma {:induction false} StuckForever(s: State, events: seq<Event>, since: int)
    requires Stuck(s.row, since) && Continues(s, events, since)
    ensures Frozen(s, After(s, events))
  {
    if events != [] {
      var k := |events| - 1;
      ContinuesPrefix(s, events, since, k);
      StuckForever(s, events[..k], since);
    }
  }

  lemma {:induction false} InactiveForever(s: State, events: seq<Event>, since: int)
    requires !s.row.active && Continues(s, events, since)
    ensures !After(s, events).row.active && After(s, events).claims == s.claims
  {
    if events != [] {
      var k := |events| - 1;
      ContinuesPrefix(s, events, since, k);
      InactiveForever(s, events[..k], since);
    }
  }

  /** Some continuation makes the schedule claimable. */
  ghost predicate Recoverable(s: State, since: int) {
    exists events, now :: since <= now && Continues(s, events, since) && Claimable(After(s, events).row, now)
  }

  lemma WaitingRecovers(s: State, since: int)
    requires s.row.active && s.row.attemptCount < s.row.maxAttempts
    ensures Recoverable(s, since)
  {
    var lease := if s.row.lease.Some? then s.row.lease.value.expiresAt else since;
    var later := if lease > since then lease else since;
    var now := if DueAt(s.row) > later then DueAt(s.row) else later;
    assert Continues(s, [], since) && Claimable(After(s, []).row, now);
  }

  lemma HolderRecovers(s: State, since: int)
    requires Sound(s) && s.row.active && s.row.lease.Some? && s.row.lease.value.expiresAt > since
    requires forall i :: 0 <= i < |s.claims| ==> s.claims[i].at <= since
    ensures Recoverable(s, since)
  {
    var last := s.claims[|s.claims| - 1];
    var done := Event.Complete(last, since, since);
    assert [done][..0] == [] && last in s.claims;
    assert Continues(s, [done], since);
    assert Claimable(After(s, [done]).row, since + s.row.intervalSeconds);
  }

  /**
   * A schedule can be claimed again exactly while it is active and not stuck. A worker that stops on its last attempt
   * leaves it stuck: the claim refuses it for good, and only a failure by the holder would have switched it off.
   */
  lemma RecoverableExactly(s: State, since: int)
    requires Sound(s) && forall i :: 0 <= i < |s.claims| ==> s.claims[i].at <= since
    ensures Recoverable(s, since) <==> s.row.active && !Stuck(s.row, since)
  {
    if s.row.active && !Stuck(s.row, since) {
      if s.row.attemptCount < s.row.maxAttempts { WaitingRecovers(s, since); } else { HolderRecovers(s, since); }
    }
    if Recoverable(s, since) {
      var events, now :| since <= now && Continues(s, events, since) && Claimable(After(s, events).row, now);
      if Stuck(s.row, since) { StuckForever(s, events, since); }
      if !s.row.active { InactiveForever(s, events, since); }
    }
  }

  const ONE_ATTEMPT := Schedule(true, 3600, 60, 1, 0, None, 0, None)
  const CLAIM_ONLY := [Event.ClaimDue("worker", 0, 0)]

  /** A worker claims the only attempt and stops; after a minute the schedule is active but out of reach for good. */
  lemma CrashOnLastAttemptSticks(more: seq<Event>)
    requires Continues(Execute(ONE_ATTEMPT, CLAIM_ONLY), more, 60)
    ensures Fresh(ONE_ATTEMPT) && History(ONE_ATTEMPT, CLAIM_ONLY)
    ensures var end := After(Execute(ONE_ATTEMPT, CLAIM_ONLY), more);
            end.row.active && end.completed == [] && forall now :: now >= 60 ==> !Claimable(end.row, now)
  {
    assert CLAIM_ONLY[..0] == [];
    var s := Execute(ONE_ATTEMPT, CLAIM_ONLY);
    assert s.row == Claimed(ONE_ATTEMPT, "worker", 0, 0);
    StuckForever(s, more, 60);
  }

  lemma Follows(r: State, s: State, e: Event)
    requires Sound(s) && Forward(r, s) && Permitted(s, e)
    ensures Sound(Next(s, e)) && Forward(r, Next(s, e))
  {
    NextKeepsSound(s, e);
    NextForward(s, e);
    ForwardTransitive(r, s, Next(s, e));
  }
}
