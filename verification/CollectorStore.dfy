/** The table of collector schedules, its statements, and one pass of a worker over it. */
module CollectorStore {
  import opened Results
  import opened IngestionRuns
  import opened Collector
  import opened ClaimOrder
  import opened CollectorMeaning

  /** Every schedule of the table with its history. */
  type Table = map<Id, State>

  function Candidates(rows: map<Id, Schedule>, locked: set<Id>, now: int): (ids: set<Id>)
    ensures ids <= rows.Keys
  {
    set id | id in rows && Claimable(rows[id], now) && id !in locked
  }

  /** ORDER BY next_run_at, id. */
  function ClaimKeys(rows: map<Id, Schedule>): (keys: map<Id, Key>)
    ensures keys.Keys == rows.Keys
  {
    map id | id in rows :: Key(rows[id].nextRunAt, 0)
  }

  /** The candidates are the unlocked schedules that are due, and the first of them in claim order runs next. */
  lemma CandidatesDue(rows: map<Id, Schedule>, locked: set<Id>, now: int)
    ensures forall i :: i in Candidates(rows, locked, now) <==> i in rows && i !in locked && Due(rows[i], now)
    ensures forall id :: IsFirst(ClaimKeys(rows), Candidates(rows, locked, now), id) ==> FirstDue(rows, locked, now, id)
  {
  }

  // ----- One pass of a worker

  datatype Outcome = HandlerError | Incomplete | Done

  /** What a handler did: whether and how it settled its ingestion run, and what it returned. */
  datatype Handled = Handled(ended: Option<bool>, outcome: Outcome)

  /** The moments of a pass: its claim, the clock reading for the next time due, and its last statement. */
  datatype Times = Times(now: int, read: int, later: int)

  /** The claim a schedule hands out next. */
  function NextClaim(row: Schedule, owner: string, token: nat, now: int): Claim {
    Claim(owner, token, row.attemptCount + 1, row.nextRunAt, now)
  }

  function Handling(claim: Claim, newRun: RunId, ended: Option<bool>, at: Times): seq<Event> {
    [Event.ClaimDue(claim.owner, claim.token, at.now)] + [Event.StartRun(claim, newRun, at.now)]
    + if ended.Some? then [EndRun(claim, ended.value, at.later)] else []
  }

  /** The events of a pass that claimed a schedule. */
  function Pass(claim: Claim, newRun: RunId, handled: Handled, at: Times): seq<Event> {
    Handling(claim, newRun, handled.ended, at)
    + match handled.outcome
      case HandlerError => [Event.Fail(claim, at.read, at.later)]
      case Incomplete => []
      case Done => [Event.Complete(claim, at.read, at.later)]
  }

  lemma AfterMore(s: State, events: seq<Event>, e: Event)
    ensures After(s, events + [e]) == Next(After(s, events), e)
  {
    assert (events + [e])[..|events|] == events;
  }

  ghost function Group(rows: map<Id, Schedule>, claims: map<Id, seq<Claim>>, completed: map<Id, seq<int>>,
                       runs: map<Id, map<int, Run>>): (t: Table)
    requires rows.Keys == claims.Keys == completed.Keys == runs.Keys
    ensures t.Keys == rows.Keys
  {
    map id | id in rows :: State(rows[id], claims[id], completed[id], runs[id])
  }

  lemma GroupWrite(rows: map<Id, Schedule>, claims: map<Id, seq<Claim>>, completed: map<Id, seq<int>>,
                   runs: map<Id, map<int, Run>>, id: Id, s: State)
    requires rows.Keys == claims.Keys == completed.Keys == runs.Keys && id in rows
    ensures rows[id := s.row].Keys == claims[id := s.claims].Keys == completed[id := s.completed].Keys ==
            runs[id := s.runs].Keys
    ensures Group(rows[id := s.row], claims[id := s.claims], completed[id := s.completed], runs[id := s.runs]) ==
            Group(rows, claims, completed, runs)[id := s]
  {
    var t := Group(rows[id := s.row], claims[id := s.claims], completed[id := s.completed], runs[id := s.runs]);
    var u := Group(rows, claims, completed, runs)[id := s];
    assert rows[id := s.row].Keys == rows.Keys;
    forall other | other in t ensures t[other] == u[other] {}
    assert t.Keys == u.Keys;
  }

  /** One more event on the schedule of a pass. */
  lemma OneMore(before: Table, id: Id, events: seq<Event>, e: Event, t: Table, next: Table)
    requires id in before && t == before[id := After(before[id], events)] && next == t[id := Next(t[id], e)]
    ensures next == before[id := After(before[id], events + [e])]
  {
    AfterMore(before[id], events, e);
  }

  class Store {
    var rows: map<Id, Schedule>
    var runs: map<Id, map<int, Run>>
    ghost var claims: map<Id, seq<Claim>>
    ghost var completed: map<Id, seq<int>>

    ghost predicate Valid()
      reads this
    {
      rows.Keys == runs.Keys == claims.Keys == completed.Keys
    }

    ghost function View(): (t: Table)
      requires Valid()
      reads this
      ensures t.Keys == rows.Keys
    {
      Group(rows, claims, completed, runs)
    }

    constructor (schedules: map<Id, Schedule>)
      ensures Valid() && View() == map id | id in schedules :: Execute(schedules[id], [])
    {
      rows := schedules;
      runs := map id | id in schedules :: map[];
      claims := map id | id in schedules :: [];
      completed := map id | id in schedules :: [];
    }

    method Write(id: Id, row: Schedule, occurrences: map<int, Run>, ghost handed: seq<Claim>, ghost done: seq<int>)
      requires Valid() && id in rows
      modifies this
      ensures Valid() && View() == old(View())[id := State(row, handed, done, occurrences)]
      ensures rows == old(rows)[id := row] && runs == old(runs)[id := occurrences]
    {
      GroupWrite(rows, claims, completed, runs, id, State(row, handed, done, occurrences));
      rows, runs := rows[id := row], runs[id := occurrences];
      claims, completed := claims[id := handed], completed[id := done];
    }

    /**
     * Claims the first schedule that is due, not leased, has attempts left and is not locked by another transaction.
     */
    method ClaimDue(owner: string, lease: int, token: nat, locked: set<Id>, now: int)
      returns (ok: bool, claimed: Option<(Id, Claim)>)
      requires Valid()
      modifies this
      ensures Valid()
      ensures ok <==> owner != "" && lease > 0
      ensures claimed.None? ==> View() == old(View())
      ensures var candidates := Candidates(old(rows), locked, now);
              if !ok || candidates == {} then claimed.None?
              else
                && claimed.Some? && IsFirst(ClaimKeys(old(rows)), candidates, claimed.value.0)
                && claimed.value.1 == NextClaim(old(rows)[claimed.value.0], owner, token, now)
                && var id := claimed.value.0;
                   View() == old(View())[id := Next(old(View())[id], Event.ClaimDue(owner, token, now))]
      ensures ok && claimed.None? ==> forall i :: i in old(rows) && i !in locked ==> !Due(old(rows)[i], now)
      ensures claimed.Some? ==>
                && FirstDue(old(rows), locked, now, claimed.value.0) && claimed.value.0 in View()
                && ClaimsSchedule(old(View())[claimed.value.0], View()[claimed.value.0], claimed.value.1, owner, token,
                                  now)
    {
      if owner == "" || lease <= 0 {
        return false, None;
      }
      var candidates := Candidates(rows, locked, now);
      CandidatesDue(rows, locked, now);
      if candidates == {} {
        return true, None;
      }
      var id := ChooseFirst(ClaimKeys(rows), candidates);
      var claim := NextClaim(rows[id], owner, token, now);
      ClaimDueIs(View()[id], owner, token, now);
      Write(id, Claimed(rows[id], owner, token, now), runs[id], claims[id] + [claim], completed[id]);
      return true, Some((id, claim));
    }

    /** Starts the ingestion run of an occurrence, or takes up the one there is. */
    method StartRun(id: Id, claim: Claim, newRun: RunId, now: int) returns (run: Run, duplicate: bool)
      requires Valid() && id in rows
      modifies this
      ensures Valid() && View() == old(View())[id := Next(old(View())[id], Event.StartRun(claim, newRun, now))]
      ensures rows == old(rows)
      ensures duplicate <==> claim.due in old(runs)[id]
      ensures run.id == if duplicate then old(runs)[id][claim.due].id else newRun
      ensures run.status.RunSucceeded? <==> duplicate && old(runs)[id][claim.due].status.RunSucceeded?
      ensures StartsRun(old(View())[id], View()[id], claim, newRun)
    {
      StartRunIs(View()[id], claim, newRun, now);
      duplicate := claim.due in runs[id];
      run := Started(runs[id], claim.due, newRun);
      Write(id, rows[id], runs[id][claim.due := run], claims[id], completed[id]);
    }

    /** Settles an ingestion run; nothing checks that its worker still holds the schedule. */
    method FinishRun(id: Id, claim: Claim, succeeded: bool, now: int)
      requires Valid() && id in rows
      modifies this
      ensures Valid() && View() == old(View())[id := Next(old(View())[id], EndRun(claim, succeeded, now))]
      ensures rows == old(rows)
      ensures EndsRun(old(View())[id], View()[id], claim, succeeded)
    {
      EndRunIs(View()[id], claim, succeeded, now);
      var occurrences := runs[id];
      if claim.due in occurrences {
        occurrences := occurrences[claim.due := Ended(occurrences[claim.due], succeeded)];
      }
      Write(id, rows[id], occurrences, claims[id], completed[id]);
    }

    method Complete(id: Id, claim: Claim, read: int, now: int) returns (ok: bool)
      requires Valid() && id in rows
      modifies this
      ensures Valid() && View() == old(View())[id := Next(old(View())[id], Event.Complete(claim, read, now))]
      ensures ok <==> LeaseRuns(old(rows)[id], claim, now)
      ensures CompletesSchedule(old(View())[id], View()[id], claim, read, now)
    {
      CompleteIs(View()[id], claim, read, now);
      ok := Holds(rows[id], claim, now);
      if ok {
        Write(id, Completed(rows[id], read + rows[id].intervalSeconds), runs[id], claims[id],
              completed[id] + [claim.due]);
      }
    }

    method Fail(id: Id, claim: Claim, read: int, now: int) returns (ok: bool)
      requires Valid() && id in rows
      modifies this
      ensures Valid() && View() == old(View())[id := Next(old(View())[id], Event.Fail(claim, read, now))]
      ensures ok <==> LeaseRuns(old(rows)[id], claim, now)
      ensures FailsSchedule(old(View())[id], View()[id], claim, read, now)
    {
      FailIs(View()[id], claim, read, now);
      ok := Holds(rows[id], claim, now);
      if ok {
        Write(id, Failed(rows[id], claim, read + rows[id].intervalSeconds), runs[id], claims[id], completed[id]);
      }
    }

    /** The handler's part of a pass: it finds its run and may settle it. */
    method Handle(id: Id, claim: Claim, newRun: RunId, ended: Option<bool>, at: Times, ghost before: Table)
      requires Valid() && id in rows && id in before
      requires View() == before[id := After(before[id], [Event.ClaimDue(claim.owner, claim.token, at.now)])]
      modifies this
      ensures Valid() && rows == old(rows)
      ensures View() == before[id := After(before[id], Handling(claim, newRun, ended, at))]
    {
      ghost var first := [Event.ClaimDue(claim.owner, claim.token, at.now)];
      ghost var start := Event.StartRun(claim, newRun, at.now);
      var run, duplicate := StartRun(id, claim, newRun, at.now);
      OneMore(before, id, first, start, old(View()), View());
      label L:
      if ended.Some? {
        FinishRun(id, claim, ended.value, at.later);
        OneMore(before, id, first + [start], EndRun(claim, ended.value, at.later), old@L(View()), View());
      }
    }

    /** The last statement of a pass. */
    method Settle(id: Id, claim: Claim, newRun: RunId, handled: Handled, at: Times, ghost before: Table)
      returns (ok: bool)
      requires Valid() && id in rows && id in before
      requires View() == before[id := After(before[id], Handling(claim, newRun, handled.ended, at))]
      modifies this
      ensures Valid() && View() == before[id := After(before[id], Pass(claim, newRun, handled, at))]
      ensures ok <==> handled.outcome.Done? && Holds(old(rows)[id], claim, at.later)
    {
      ghost var so := Handling(claim, newRun, handled.ended, at);
      if handled.outcome.HandlerError? {
        var failed := Fail(id, claim, at.read, at.later);
        OneMore(before, id, so, Event.Fail(claim, at.read, at.later), old(View()), View());
        return false;
      }
      if handled.outcome.Incomplete? {
        assert Pass(claim, newRun, handled, at) == so;
        return false;
      }
      ok := Complete(id, claim, at.read, at.later);
      OneMore(before, id, so, Event.Complete(claim, at.read, at.later), old(View()), View());
    }

    /**
     * Claims the first due schedule, handles and settles it, when no other worker comes in between. It succeeds when
     * there is nothing to do, or when the handler is done while the lease still runs.
     */
    method RunOnce(owner: string, lease: int, token: nat, locked: set<Id>, newRun: RunId, handled: Handled, at: Times)
      returns (ok: bool)
      requires Valid()
      modifies this
      ensures Valid()
      ensures if owner == "" || Candidates(old(rows), locked, at.now) == {}
              then View() == old(View()) && (ok <==> owner != "")
              else exists id ::
                     && IsFirst(ClaimKeys(old(rows)), Candidates(old(rows), locked, at.now), id)
                     && PassedOver(old(View()), View(), id, owner, token, newRun, handled, at)
                     && (ok <==> handled.outcome.Done? && at.later < at.now + old(rows)[id].leaseSeconds)
    {
      var valid, claimed := ClaimDue(owner, if lease <= 0 then 120 else lease, token, locked, at.now);
      if claimed.None? {
        return valid;
      }
      var id, claim := claimed.value.0, claimed.value.1;
      ghost var before := old(View());
      OneMore(before, id, [], Event.ClaimDue(owner, token, at.now), before, View());
      Handle(id, claim, newRun, handled.ended, at, before);
      ok := Settle(id, claim, newRun, handled, at, before);
    }
  }

  /** Exactly one schedule changed, by the events of a pass. */
  ghost predicate PassedOver(before: Table, after: Table, id: Id, owner: string, token: nat, newRun: RunId,
                             handled: Handled, at: Times) {
    && id in before
    && after ==
       before[id := After(before[id], Pass(NextClaim(before[id].row, owner, token, at.now), newRun, handled, at))]
  }

  // ----- The whole table

  datatype TableEvent = TableEvent(id: Id, event: Event)

  function NextTable(t: Table, e: TableEvent): Table {
    if e.id in t then t[e.id := Next(t[e.id], e.event)] else t
  }

  function ExecuteTable(start: map<Id, Schedule>, events: seq<TableEvent>): Table {
    if events == [] then map id | id in start :: Execute(start[id], [])
    else NextTable(ExecuteTable(start, events[..|events| - 1]), events[|events| - 1])
  }

  /** An event may happen to its schedule, and a run it starts is new to the whole table. */
  ghost predicate PermittedInTable(t: Table, e: TableEvent) {
    && e.id in t && Permitted(t[e.id], e.event)
    && (e.event.StartRun? ==> forall id, due :: id in t && due in t[id].runs ==> t[id].runs[due].id != e.event.newRun)
  }

  ghost predicate TableHistory(start: map<Id, Schedule>, events: seq<TableEvent>) {
    forall i :: 0 <= i < |events| ==> PermittedInTable(ExecuteTable(start, events[..i]), events[i])
  }

  /** No two occurrences, of one schedule or of two, share an ingestion run. */
  ghost predicate OneRunEach(t: Table) {
    forall a, b, x, y ::
      a in t && b in t && x in t[a].runs && y in t[b].runs && t[a].runs[x].id == t[b].runs[y].id ==> a == b && x == y
  }

  lemma NextRuns(s: State, e: Event, due: int)
    requires due in Next(s, e).runs
    ensures if due in s.runs then Next(s, e).runs[due].id == s.runs[due].id
            else e.StartRun? && due == e.claim.due && Next(s, e).runs[due].id == e.newRun
  {
  }

  lemma NextOneRunEach(t: Table, e: TableEvent)
    requires OneRunEach(t) && PermittedInTable(t, e)
    ensures OneRunEach(NextTable(t, e))
  {
    var u := NextTable(t, e);
    forall a, b, x, y | a in u && b in u && x in u[a].runs && y in u[b].runs && u[a].runs[x].id == u[b].runs[y].id
      ensures a == b && x == y
    {
      if a == e.id { NextRuns(t[a], e.event, x); }
      if b == e.id { NextRuns(t[b], e.event, y); }
    }
  }

  /**
   * Over every history of the table every schedule keeps its guarantees, and no two occurrences share an ingestion
   * run.
   */
  lemma {:induction false} TableAlwaysSound(start: map<Id, Schedule>, events: seq<TableEvent>)
    requires (forall id :: id in start ==> Fresh(start[id])) && TableHistory(start, events)
    ensures var t := ExecuteTable(start, events);
            t.Keys == start.Keys && (forall id :: id in t ==> Sound(t[id])) && OneRunEach(t)
  {
    if events == [] {
      forall id | id in start ensures Sound(Execute(start[id], [])) { AlwaysSound(start[id], []); }
    } else {
      var k := |events| - 1;
      var t := ExecuteTable(start, events[..k]);
      TablePrefix(start, events, k);
      TableAlwaysSound(start, events[..k]);
      assert PermittedInTable(t, events[k]);
      NextKeepsSound(t[events[k].id], events[k].event);
      NextOneRunEach(t, events[k]);
    }
  }

  lemma TablePrefix(start: map<Id, Schedule>, events: seq<TableEvent>, k: nat)
    requires TableHistory(start, events) && k <= |events|
    ensures TableHistory(start, events[..k])
  {
    forall i | 0 <= i < k ensures PermittedInTable(ExecuteTable(start, events[..k][..i]), events[..k][i]) {
      assert events[..k][..i] == events[..i];
    }
  }

  // ----- What a pass leaves behind

  ghost predicate PassPermitted(s: State, token: nat, newRun: RunId, at: Times) {
    && Sound(s) && Claimable(s.row, at.now) && !TokenUsed(s, token) && at.now <= at.read <= at.later
    && forall due :: due in s.runs ==> s.runs[due].id != newRun
  }

  lemma HandlingKeepsSound(s: State, owner: string, token: nat, newRun: RunId, ended: Option<bool>, at: Times,
                           claim: Claim)
    requires PassPermitted(s, token, newRun, at) && claim == NextClaim(s.row, owner, token, at.now)
    ensures var t := After(s, Handling(claim, newRun, ended, at));
            && Sound(t) && Forward(s, t) && claim in t.claims
            && t.row == Claimed(s.row, owner, token, at.now) && t.completed == s.completed
  {
    var e, f := Event.ClaimDue(owner, token, at.now), Event.StartRun(claim, newRun, at.now);
    AfterMore(s, [], e);
    AfterMore(s, [e], f);
    var t := Next(s, e);
    NextKeepsSound(s, e);
    NextForward(s, e);
    assert claim == t.claims[|s.claims|];
    Follows(s, t, f);
    var u := Next(t, f);
    if ended.Some? {
      AfterMore(s, [e] + [f], EndRun(claim, ended.value, at.later));
      Follows(s, u, EndRun(claim, ended.value, at.later));
    } else {
      assert Handling(claim, newRun, ended, at) == [e] + [f];
    }
  }

  /** The row and completions a pass leaves, given when its last statement comes and what the handler returned. */
  ghost predicate Settled(s: State, t: State, owner: string, token: nat, outcome: Outcome, at: Times) {
    var inTime := at.later < at.now + s.row.leaseSeconds;
    if inTime && outcome.Done? then
      && t.row == Completed(s.row, at.read + s.row.intervalSeconds)
      && t.completed == s.completed + [s.row.nextRunAt] && s.row.nextRunAt < t.row.nextRunAt
    else if inTime && outcome.HandlerError? then
      && t.completed == s.completed && t.row.lease.None? && t.row.retryAt == Some(at.read + s.row.intervalSeconds)
      && (t.row.active <==> s.row.attemptCount + 1 < s.row.maxAttempts)
    else
      && t.completed == s.completed && t.row == Claimed(s.row, owner, token, at.now)
      && (Stuck(t.row, at.now + s.row.leaseSeconds) <==> s.row.attemptCount + 1 == s.row.maxAttempts)
  }

  lemma DoneSettles(s: State, t: State, owner: string, token: nat, at: Times, claim: Claim)
    requires claim == NextClaim(s.row, owner, token, at.now) && t.row == Claimed(s.row, owner, token, at.now)
    requires t.completed == s.completed && Claimable(s.row, at.now)
    requires s.row.nextRunAt <= at.now <= at.read && s.row.intervalSeconds > 0
    ensures Settled(s, Next(t, Event.Complete(claim, at.read, at.later)), owner, token, Done, at)
  {
  }

  lemma ErrorSettles(s: State, t: State, owner: string, token: nat, at: Times, claim: Claim)
    requires claim == NextClaim(s.row, owner, token, at.now) && t.row == Claimed(s.row, owner, token, at.now)
    requires t.completed == s.completed && Claimable(s.row, at.now)
    ensures Settled(s, Next(t, Event.Fail(claim, at.read, at.later)), owner, token, HandlerError, at)
  {
  }

  /**
   * A pass keeps every guarantee of the schedule. While its lease runs, a handler that is done completes the occurrence
   * and moves the schedule on, and one that fails sets a retry or, on the last attempt, switches the schedule off. A
   * handler that stops short or comes too late leaves only its claim, which on the last attempt leaves the schedule
   * stuck.
   */
  lemma PassSettles(s: State, owner: string, token: nat, newRun: RunId, handled: Handled, at: Times, claim: Claim)
    requires PassPermitted(s, token, newRun, at) && claim == NextClaim(s.row, owner, token, at.now)
    ensures var t := After(s, Pass(claim, newRun, handled, at));
            Sound(t) && Forward(s, t) && Settled(s, t, owner, token, handled.outcome, at)
  {
    var so := Handling(claim, newRun, handled.ended, at);
    var t := After(s, so);
    HandlingKeepsSound(s, owner, token, newRun, handled.ended, at, claim);
    PassKeepsSound(s, t, so, newRun, handled, at, claim);
    if handled.outcome.HandlerError? { ErrorSettles(s, t, owner, token, at, claim); }
    if handled.outcome.Done? { DoneSettles(s, t, owner, token, at, claim); }
  }

  function Last(handled: Handled, claim: Claim, at: Times): Option<Event> {
    match handled.outcome
    case HandlerError => Some(Event.Fail(claim, at.read, at.later))
    case Incomplete => None
    case Done => Some(Event.Complete(claim, at.read, at.later))
  }

  lemma PassKeepsSound(s: State, t: State, so: seq<Event>, newRun: RunId, handled: Handled, at: Times, claim: Claim)
    requires so == Handling(claim, newRun, handled.ended, at) && t == After(s, so)
    requires Sound(t) && Forward(s, t) && claim in t.claims && claim.at <= at.read <= at.later
    ensures var end := After(s, Pass(claim, newRun, handled, at));
            && Sound(end) && Forward(s, end)
            && end == if Last(handled, claim, at).None? then t else Next(t, Last(handled, claim, at).value)
  {
    var e := Last(handled, claim, at);
    if e.None? {
      assert Pass(claim, newRun, handled, at) == so;
    } else {
      assert Pass(claim, newRun, handled, at) == so + [e.value];
      AfterMore(s, so, e.value);
      Follows(s, t, e.value);
    }
  }
}
