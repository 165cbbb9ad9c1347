/** Reconciling an account's external statement with a valuation, in units of 10^-18. */
module Reconciliation {
  import opened Results
  import opened Decimals
  import opened DecimalText
  import Subsets

  datatype Stored = NoText | Unreadable | Units(value: int)

  /** A snapshot line joined with its valuation line, if it has one. */
  datatype Row = Row(line: string, account: string, valued: bool, amount: Stored, valid: bool)

  /** The lines of a snapshot and their accounts. */
  type Snapshot = map<string, string>

  datatype Check = Check(line: string, external: int)

  datatype Valuation = Valuation(valid: bool, currency: string, cutoff: int)

  datatype Request = Request(account: string, currency: string, cutoff: int, externalNav: int, checks: seq<Check>,
                             complete: bool)

  datatype LineCheck = LineCheck(line: string, external: int, valuation: int, difference: int)

  datatype LineState = NoChecks | Partial | Complete

  datatype Checkpoint = Checkpoint(
    externalNav: int,
    valuationNav: int,
    difference: int,
    relative: Option<int>,
    tolerance: int,
    reconciled: bool,
    lineState: LineState,
    lines: seq<LineCheck>)

  datatype Conflict =
    | LineCheckDuplicate
    | ValuationNotValid
    | CurrencyMismatch
    | CutoffMismatch
    | AccountHasNoLines
    | AccountNotInSnapshot
    | ValuationLineDuplicate
    | AccountLinesIncomplete
    | LineCheckUnknown
    | LineCheckCrossAccount
    | LineCheckTotalMismatch
    | LineCheckIncomplete

  // ----- Sums over maps

  ghost function SumMap(m: map<string, int>): int {
    if m == map[] then 0
    else
      var k :| k in m;
      m[k] + SumMap(m - {k})
  }

  /** Taking out any key takes out its amount, whichever key the sum starts from. */
  lemma {:induction false} SumMapWithout(m: map<string, int>, k: string)
    requires k in m
    ensures SumMap(m) == m[k] + SumMap(m - {k})
    decreases |m|
  {
    var first :| first in m && SumMap(m) == m[first] + SumMap(m - {first});
    if first != k {
      SumMapWithout(m - {first}, k);
      assert (m - {first}) - {k} == (m - {k}) - {first};
      assert first in m - {k};
      SumMapWithout(m - {k}, first);
    }
  }

  function SumExternal(checks: seq<Check>): int {
    if checks == [] then 0 else SumExternal(checks[..|checks| - 1]) + checks[|checks| - 1].external
  }

  ghost function SumDifferences(lines: seq<LineCheck>): int {
    if lines == [] then 0 else SumDifferences(lines[..|lines| - 1]) + lines[|lines| - 1].difference
  }

  ghost function SumValuations(checks: seq<Check>, amounts: map<string, int>): int
    requires forall i :: 0 <= i < |checks| ==> checks[i].line in amounts
  {
    if checks == [] then 0
    else SumValuations(checks[..|checks| - 1], amounts) + amounts[checks[|checks| - 1].line]
  }

  ghost function Lines(checks: seq<Check>): set<string> {
    set i | 0 <= i < |checks| :: checks[i].line
  }

  ghost predicate Distinct(checks: seq<Check>) {
    forall i, j :: 0 <= i < j < |checks| ==> checks[i].line != checks[j].line
  }

  lemma {:induction false} DistinctLines(checks: seq<Check>)
    requires Distinct(checks)
    ensures |Lines(checks)| == |checks|
  {
    if checks != [] {
      var n := |checks| - 1;
      DistinctLines(checks[..n]);
      assert Lines(checks) == Lines(checks[..n]) + {checks[n].line};
    }
  }

  lemma LastCheck(checks: seq<Check>, n: nat)
    requires |checks| == n + 1 && Distinct(checks)
    ensures Lines(checks) == Lines(checks[..n]) + {checks[n].line} && checks[n].line !in Lines(checks[..n])
  {
  }

  lemma RestNamed(checks: seq<Check>, n: nat, amounts: map<string, int>, rest: map<string, int>)
    requires |checks| == n + 1 && Distinct(checks) && Lines(checks) == amounts.Keys
    requires rest == amounts - {checks[n].line}
    ensures Lines(checks[..n]) == rest.Keys
    ensures forall i :: 0 <= i < n ==> checks[..n][i].line in rest
  {
    LastCheck(checks, n);
    forall i | 0 <= i < n ensures checks[..n][i].line in rest { assert checks[..n][i].line in Lines(checks[..n]); }
  }

  /** Checks of distinct lines that cover a map add up its amounts. */
  lemma {:induction false} ValuationsAddUp(checks: seq<Check>, amounts: map<string, int>)
    requires Distinct(checks) && Lines(checks) == amounts.Keys
    requires forall i :: 0 <= i < |checks| ==> checks[i].line in amounts
    ensures SumValuations(checks, amounts) == SumMap(amounts)
  {
    if checks == [] {
      NoKeys(amounts);
    } else {
      var n := |checks| - 1;
      var rest := amounts - {checks[n].line};
      RestNamed(checks, n, amounts, rest);
      ValuationsAddUp(checks[..n], rest);
      SumMapWithout(amounts, checks[n].line);
      SameValuations(checks[..n], amounts, rest);
    }
  }

  lemma {:induction false} SameValuations(checks: seq<Check>, a: map<string, int>, b: map<string, int>)
    requires forall i :: 0 <= i < |checks| ==>
              checks[i].line in a && checks[i].line in b && a[checks[i].line] == b[checks[i].line]
    ensures SumValuations(checks, a) == SumValuations(checks, b)
  {
    if checks != [] { SameValuations(checks[..|checks| - 1], a, b); }
  }

  // ----- The account's lines

  predicate Usable(r: Row) {
    r.valued && r.amount.Units? && r.valid
  }

  ghost function Expected(rows: seq<Row>, account: string): set<string> {
    set i | 0 <= i < |rows| && rows[i].account == account :: rows[i].line
  }

  ghost function Valued(rows: seq<Row>, line: string): nat {
    if rows == [] then 0
    else Valued(rows[..|rows| - 1], line) + if rows[|rows| - 1].valued && rows[|rows| - 1].line == line then 1 else 0
  }

  /** A usable valuation line of the account with this amount. */
  ghost predicate Backed(rows: seq<Row>, account: string, line: string, n: int) {
    exists i :: 0 <= i < |rows| && rows[i] == Row(line, account, true, Units(n), true)
  }

  /** A left join of the snapshot's lines with the valuation's. */
  ghost predicate Joined(rows: seq<Row>, snapshot: Snapshot) {
    && (forall i :: 0 <= i < |rows| ==> rows[i].line in snapshot && snapshot[rows[i].line] == rows[i].account)
    && (forall line :: line in snapshot ==> exists i :: 0 <= i < |rows| && rows[i].line == line)
  }

  ghost predicate HasAmount(rows: seq<Row>, account: string, line: string) {
    exists n :: Backed(rows, account, line, n)
  }

  /** Every line of the account has exactly one valuation line, and that one is usable. */
  ghost predicate EachValuedOnce(rows: seq<Row>, account: string) {
    forall line :: line in Expected(rows, account) ==> Valued(rows, line) == 1 && HasAmount(rows, account, line)
  }

  /** The account's lines and their amounts, each from the one valuation line of a line of the snapshot. */
  ghost predicate AccountLines(rows: seq<Row>, account: string, amounts: map<string, int>) {
    && amounts.Keys == Expected(rows, account)
    && (forall line :: line in amounts ==> Valued(rows, line) == 1)
    && (forall line :: line in amounts ==> Backed(rows, account, line, amounts[line]))
  }

  lemma {:induction false} ValuedAt(rows: seq<Row>, line: string, i: nat)
    requires i < |rows| && rows[i].valued && rows[i].line == line
    ensures Valued(rows, line) >= 1
  {
    if i < |rows| - 1 { ValuedAt(rows[..|rows| - 1], line, i); }
  }

  lemma {:induction false} ValuedTwice(rows: seq<Row>, line: string, i: nat, j: nat)
    requires i < j < |rows| && rows[i].valued && rows[i].line == line && rows[j].valued && rows[j].line == line
    ensures Valued(rows, line) >= 2
  {
    var n := |rows| - 1;
    if j < n { ValuedTwice(rows[..n], line, i, j); } else { ValuedAt(rows[..n], line, i); }
  }

  lemma BackedOnce(rows: seq<Row>, account: string, line: string, m: int, n: int)
    requires Backed(rows, account, line, m) && Backed(rows, account, line, n) && Valued(rows, line) == 1
    ensures m == n
  {
    var i :| 0 <= i < |rows| && rows[i] == Row(line, account, true, Units(m), true);
    var j :| 0 <= j < |rows| && rows[j] == Row(line, account, true, Units(n), true);
    if i < j { ValuedTwice(rows, line, i, j); } else if j < i { ValuedTwice(rows, line, j, i); }
  }

  /** The rows leave no choice of the account's amounts. */
  lemma AmountsUnique(rows: seq<Row>, account: string, a: map<string, int>, b: map<string, int>)
    requires AccountLines(rows, account, a) && AccountLines(rows, account, b)
    ensures a == b
  {
    forall line | line in a ensures line in b && a[line] == b[line] {
      assert line in b.Keys;
      BackedOnce(rows, account, line, a[line], b[line]);
    }
    assert a.Keys == b.Keys;
  }

  /** What one pass over the rows collects: usable lines of all accounts, of this one, its line ids, and row counts. */
  datatype Scan = Scan(all: map<string, (string, int)>, account: map<string, int>, expected: set<string>,
                       counts: map<string, nat>)

  function Count(counts: map<string, nat>, line: string): nat {
    if line in counts then counts[line] else 0
  }

  ghost predicate Counted(rows: seq<Row>, counts: map<string, nat>) {
    forall line :: Valued(rows, line) == Count(counts, line)
  }

  /** Every line with a usable row is collected, with its account and the amount of such a row. */
  ghost predicate Collected(rows: seq<Row>, all: map<string, (string, int)>) {
    && (forall i :: 0 <= i < |rows| && Usable(rows[i]) ==> rows[i].line in all)
    && (forall line :: line in all ==> Backed(rows, all[line].0, line, all[line].1))
  }

  /** The collected lines of the account are those among all collected lines. */
  ghost predicate Agree(all: map<string, (string, int)>, account: string, amounts: map<string, int>) {
    && (forall line :: line in amounts ==> line in all && all[line] == (account, amounts[line]))
    && (forall line :: line in all && all[line].0 == account ==> line in amounts)
  }

  ghost predicate Scanned(rows: seq<Row>, account: string, s: Scan) {
    && s.expected == Expected(rows, account)
    && Counted(rows, s.counts)
    && Collected(rows, s.all)
    && Agree(s.all, account, s.account)
  }

  function ScanRow(s: Scan, r: Row, account: string): Scan {
    var expected := if r.account == account then s.expected + {r.line} else s.expected;
    var counts := if r.valued then s.counts[r.line := Count(s.counts, r.line) + 1] else s.counts;
    if !Usable(r) then s.(expected := expected, counts := counts)
    else
      Scan(s.all[r.line := (r.account, r.amount.value)],
           if r.account == account then s.account[r.line := r.amount.value] else s.account,
           expected, counts)
  }

  lemma BackedGrows(rows: seq<Row>, r: Row, account: string, line: string, n: int)
    requires Backed(rows, account, line, n)
    ensures Backed(rows + [r], account, line, n)
  {
    var i :| 0 <= i < |rows| && rows[i] == Row(line, account, true, Units(n), true);
    assert (rows + [r])[i] == rows[i];
  }

  lemma CollectedNext(rows: seq<Row>, r: Row, account: string, s: Scan)
    requires Collected(rows, s.all)
    ensures Collected(rows + [r], ScanRow(s, r, account).all)
  {
    var t := ScanRow(s, r, account);
    forall line | line in t.all ensures Backed(rows + [r], t.all[line].0, line, t.all[line].1) {
      if Usable(r) && line == r.line {
        assert (rows + [r])[|rows|] == Row(line, r.account, true, Units(t.all[line].1), true);
      } else {
        BackedGrows(rows, r, s.all[line].0, line, s.all[line].1);
      }
    }
  }

  lemma AgreeNext(rows: seq<Row>, r: Row, account: string, s: Scan, snapshot: Snapshot)
    requires Agree(s.all, account, s.account) && Collected(rows, s.all)
    requires r.line in snapshot && snapshot[r.line] == r.account
    requires forall i :: 0 <= i < |rows| ==> rows[i].line in snapshot && snapshot[rows[i].line] == rows[i].account
    ensures Agree(ScanRow(s, r, account).all, account, ScanRow(s, r, account).account)
  {
    if r.line in s.all {
      var i :| 0 <= i < |rows| && rows[i] == Row(r.line, s.all[r.line].0, true, Units(s.all[r.line].1), true);
      assert s.all[r.line].0 == r.account;
    }
  }

  lemma CountedNext(rows: seq<Row>, r: Row, account: string, s: Scan)
    requires Counted(rows, s.counts)
    ensures Counted(rows + [r], ScanRow(s, r, account).counts)
  {
    assert (rows + [r])[..|rows|] == rows;
  }

  lemma ExpectedNext(rows: seq<Row>, r: Row, account: string)
    ensures Expected(rows + [r], account) == Expected(rows, account) + if r.account == account then {r.line} else {}
  {
    var more := rows + [r];
    assert more[|rows|] == r;
    forall i | 0 <= i < |rows| ensures more[i] == rows[i] {}
  }

  lemma ScannedNext(rows: seq<Row>, i: nat, account: string, s: Scan, snapshot: Snapshot)
    requires Joined(rows, snapshot) && i < |rows| && Scanned(rows[..i], account, s)
    ensures Scanned(rows[..i + 1], account, ScanRow(s, rows[i], account))
  {
    assert rows[..i + 1] == rows[..i] + [rows[i]];
    ExpectedNext(rows[..i], rows[i], account);
    CountedNext(rows[..i], rows[i], account, s);
    CollectedNext(rows[..i], rows[i], account, s);
    AgreeNext(rows[..i], rows[i], account, s, snapshot);
  }

  method ScanRows(rows: seq<Row>, account: string, ghost snapshot: Snapshot) returns (s: Scan)
    requires Joined(rows, snapshot)
    ensures Scanned(rows, account, s)
  {
    s := Scan(map[], map[], {}, map[]);
    for i := 0 to |rows|
      invariant Scanned(rows[..i], account, s)
    {
      ScannedNext(rows, i, account, s, snapshot);
      s := ScanRow(s, rows[i], account);
    }
    assert rows[..|rows|] == rows;
  }

  lemma AmountCollected(rows: seq<Row>, account: string, s: Scan, line: string, snapshot: Snapshot)
    requires Joined(rows, snapshot) && Scanned(rows, account, s)
    ensures HasAmount(rows, account, line) <==> line in s.account
  {
    if line in s.account { assert Backed(rows, account, line, s.account[line]); }
    if HasAmount(rows, account, line) {
      var n :| Backed(rows, account, line, n);
      var i :| 0 <= i < |rows| && rows[i] == Row(line, account, true, Units(n), true);
      assert Usable(rows[i]) && line in s.all;
      var j :| 0 <= j < |rows| && rows[j] == Row(line, s.all[line].0, true, Units(s.all[line].1), true);
    }
  }

  /** Checks that every line of the account has exactly one usable valuation line. */
  method CheckLines(rows: seq<Row>, account: string, s: Scan, ghost snapshot: Snapshot)
    returns (conflict: Option<Conflict>)
    requires Joined(rows, snapshot) && Scanned(rows, account, s)
    ensures conflict.None? <==> Expected(rows, account) != {} && EachValuedOnce(rows, account)
    ensures conflict.None? ==> AccountLines(rows, account, s.account)
    ensures conflict == Some(AccountHasNoLines) <==> Expected(rows, account) == {}
    ensures conflict.Some? && Expected(rows, account) != {} ==>
              exists line :: Faulty(rows, account, line, conflict.value)
  {
    if s.expected == {} {
      return Some(AccountHasNoLines);
    }
    ghost var line;
    conflict, line := FindConflict(s);
    if conflict.Some? {
      ConflictIsFault(rows, account, s, line, snapshot);
    } else {
      KeysExpected(rows, account, s);
    }
  }

  /** The first conflict of a line that the loop comes across. */
  method FindConflict(s: Scan) returns (conflict: Option<Conflict>, ghost line: string)
    ensures conflict.None? ==> forall l :: l in s.expected ==> LineConflict(s, l).None?
    ensures conflict.Some? ==> line in s.expected && conflict == LineConflict(s, line)
  {
    var left := s.expected;
    line := "";
    while left != {}
      invariant left <= s.expected
      invariant forall l :: l in s.expected && l !in left ==> LineConflict(s, l).None?
      decreases left
    {
      var next :| next in left;
      if LineConflict(s, next).Some? {
        return LineConflict(s, next), next;
      }
      left := left - {next};
    }
    conflict := None;
  }

  function LineConflict(s: Scan, line: string): Option<Conflict> {
    if Count(s.counts, line) > 1 then Some(ValuationLineDuplicate)
    else if Count(s.counts, line) == 0 || line !in s.account then Some(AccountLinesIncomplete)
    else None
  }

  lemma ConflictIsFault(rows: seq<Row>, account: string, s: Scan, line: string, snapshot: Snapshot)
    requires Joined(rows, snapshot) && Scanned(rows, account, s) && line in s.expected && LineConflict(s, line).Some?
    ensures Faulty(rows, account, line, LineConflict(s, line).value) && !EachValuedOnce(rows, account)
  {
    AmountCollected(rows, account, s, line, snapshot);
    assert Valued(rows, line) == Count(s.counts, line);
  }

  /** A line of the account that keeps it from being reconciled, and how. */
  ghost predicate Faulty(rows: seq<Row>, account: string, line: string, conflict: Conflict) {
    && line in Expected(rows, account)
    && (conflict == ValuationLineDuplicate || conflict == AccountLinesIncomplete)
    && (conflict == ValuationLineDuplicate <==> Valued(rows, line) > 1)
    && (conflict == AccountLinesIncomplete ==> Valued(rows, line) == 0 || !HasAmount(rows, account, line))
  }

  lemma KeysExpected(rows: seq<Row>, account: string, s: Scan)
    requires Scanned(rows, account, s)
    requires forall line :: line in s.expected ==> LineConflict(s, line).None?
    ensures AccountLines(rows, account, s.account) && EachValuedOnce(rows, account)
  {
    forall line | line in s.account
      ensures line in Expected(rows, account) && Backed(rows, account, line, s.account[line])
    {
      assert Backed(rows, account, line, s.account[line]);
      var i :| 0 <= i < |rows| && rows[i] == Row(line, account, true, Units(s.account[line]), true);
    }
    forall line | line in Expected(rows, account) ensures Valued(rows, line) == 1 && HasAmount(rows, account, line) {
      assert Valued(rows, line) == Count(s.counts, line);
      assert Backed(rows, account, line, s.account[line]);
    }
    assert s.account.Keys == Expected(rows, account);
  }

  // ----- Totals

  lemma NoKeys(m: map<string, int>)
    ensures m.Keys == {} ==> m == map[]
  {
    if m.Keys == {} { assert m == map[]; }
  }

  method SumAmounts(amounts: map<string, int>) returns (sum: int)
    ensures sum == SumMap(amounts)
  {
    sum := 0;
    var left := amounts;
    while left != map[]
      invariant sum + SumMap(left) == SumMap(amounts)
      decreases |left|
    {
      NoKeys(left);
      var line :| line in left;
      SumMapWithout(left, line);
      sum := sum + left[line];
      left := left - {line};
    }
  }

  method HasDuplicate(checks: seq<Check>) returns (duplicate: bool)
    ensures duplicate <==> !Distinct(checks)
  {
    var seen: set<string> := {};
    for i := 0 to |checks|
      invariant Distinct(checks[..i]) && seen == Lines(checks[..i])
    {
      assert checks[..i + 1] == checks[..i] + [checks[i]];
      if checks[i].line in seen {
        var k :| 0 <= k < i && checks[..i][k].line == checks[i].line;
        assert checks[k].line == checks[i].line;
        return true;
      }
      assert Lines(checks[..i + 1]) == Lines(checks[..i]) + {checks[i].line};
      seen := seen + {checks[i].line};
    }
    assert checks[..|checks|] == checks;
    return false;
  }

  /** One reported line per check: its amount, the valuation's and their difference. */
  ghost predicate Compared(checks: seq<Check>, lines: seq<LineCheck>, amounts: map<string, int>) {
    && |lines| == |checks|
    && forall i :: 0 <= i < |checks| ==>
         && checks[i].line in amounts
         && lines[i] == LineCheck(checks[i].line, checks[i].external, amounts[checks[i].line],
                                  checks[i].external - amounts[checks[i].line])
  }

  lemma ComparedNext(checks: seq<Check>, i: nat, lines: seq<LineCheck>, amounts: map<string, int>)
    requires i < |checks| && Compared(checks[..i], lines, amounts) && checks[i].line in amounts
    ensures var c := checks[i];
            Compared(checks[..i + 1],
                     lines + [LineCheck(c.line, c.external, amounts[c.line], c.external - amounts[c.line])], amounts)
    ensures SumExternal(checks[..i + 1]) == SumExternal(checks[..i]) + checks[i].external
  {
    assert checks[..i + 1][..i] == checks[..i];
  }

  /** The first check of a line that is not the account's, and how it is refused. */
  ghost predicate FirstStranger(checks: seq<Check>, i: int, amounts: map<string, int>, snapshot: Snapshot,
                                conflict: Conflict) {
    && 0 <= i < |checks| && checks[i].line !in amounts
    && (forall k :: 0 <= k < i ==> checks[k].line in amounts)
    && (checks[i].line in snapshot ==> conflict == LineCheckCrossAccount)
    && (checks[i].line !in snapshot ==> conflict == LineCheckUnknown)
  }

  /** Checks of the account's lines only. */
  ghost predicate Names(checks: seq<Check>, amounts: map<string, int>) {
    forall i :: 0 <= i < |checks| ==> checks[i].line in amounts
  }

  /** How a check of a line that is not the account's is refused. */
  function Refusal(line: string, snapshot: Snapshot): Conflict {
    if line in snapshot then LineCheckCrossAccount else LineCheckUnknown
  }

  /** The amount a check is compared with: the line among all collected ones, which must be of the account. */
  function FindLine(line: string, account: string, s: Scan, snapshot: Snapshot): Result<int, Conflict> {
    if line !in s.all then
      Err(if line in snapshot && snapshot[line] != account then LineCheckCrossAccount else LineCheckUnknown)
    else if s.all[line].0 != account then Err(LineCheckCrossAccount)
    else Ok(s.all[line].1)
  }

  function Found(line: string, amounts: map<string, int>, snapshot: Snapshot): Result<int, Conflict> {
    if line in amounts then Ok(amounts[line]) else Err(Refusal(line, snapshot))
  }

  ghost predicate Finds(account: string, s: Scan, snapshot: Snapshot) {
    forall line :: FindLine(line, account, s, snapshot) == Found(line, s.account, snapshot)
  }

  lemma FindsLines(rows: seq<Row>, account: string, s: Scan, snapshot: Snapshot)
    requires Joined(rows, snapshot) && Scanned(rows, account, s) && s.account.Keys == Expected(rows, account)
    ensures Finds(account, s, snapshot)
  {
    forall line ensures FindLine(line, account, s, snapshot) == Found(line, s.account, snapshot) {
      KnownLine(rows, account, s, snapshot, line);
    }
  }

  method CompareLines(checks: seq<Check>, account: string, s: Scan, snapshot: Snapshot)
    returns (r: Result<seq<LineCheck>, Conflict>, total: int)
    requires Finds(account, s, snapshot)
    ensures r.Ok? <==> Names(checks, s.account)
    ensures r.Ok? ==> Compared(checks, r.value, s.account) && total == SumExternal(checks)
    ensures r.Err? ==> exists i :: FirstStranger(checks, i, s.account, snapshot, r.error)
  {
    var lines: seq<LineCheck> := [];
    total := 0;
    for i := 0 to |checks|
      invariant Compared(checks[..i], lines, s.account) && total == SumExternal(checks[..i])
    {
      var check := checks[i];
      var amount := FindLine(check.line, account, s, snapshot);
      if amount.Err? {
        StrangerFound(checks, i, lines, s.account, snapshot);
        return Err(amount.error), total;
      }
      ComparedNext(checks, i, lines, s.account);
      lines := lines + [LineCheck(check.line, check.external, amount.value, check.external - amount.value)];
      total := total + check.external;
    }
    assert checks[..|checks|] == checks;
    return Ok(lines), total;
  }

  lemma StrangerFound(checks: seq<Check>, i: nat, lines: seq<LineCheck>, amounts: map<string, int>, snapshot: Snapshot)
    requires i < |checks| && Compared(checks[..i], lines, amounts) && checks[i].line !in amounts
    ensures FirstStranger(checks, i, amounts, snapshot, Refusal(checks[i].line, snapshot)) && !Names(checks, amounts)
  {
    forall k | 0 <= k < i ensures checks[k].line in amounts { assert checks[..i][k] == checks[k]; }
  }

  lemma KnownLine(rows: seq<Row>, account: string, s: Scan, snapshot: Snapshot, line: string)
    requires Joined(rows, snapshot) && Scanned(rows, account, s) && s.account.Keys == Expected(rows, account)
    ensures line in s.all ==> line in snapshot
    ensures line in snapshot && snapshot[line] == account ==> line in s.account
  {
    if line in s.all {
      var i :| 0 <= i < |rows| && rows[i] == Row(line, s.all[line].0, true, Units(s.all[line].1), true);
    }
    if line in snapshot && snapshot[line] == account {
      var i :| 0 <= i < |rows| && rows[i].line == line;
      assert line in Expected(rows, account);
    }
  }

  // ----- The checkpoint

  /** The greater of 0.01 and one basis point of the external NAV. */
  function DefaultTolerance(externalNav: int): int {
    var floor, bp := UNIT / 100, Rational(Abs(externalNav), 10000 * UNIT);
    if Abs(externalNav) > 10000 * floor then RoundUnits(bp) else floor
  }

  lemma TenThousandth(a: int)
    requires a >= 0
    ensures -5000 <= 10000 * RoundUnits(Rational(a, 10000 * UNIT)) - a <= 5000
  {
    var x := Rational(a, 10000 * UNIT);
    RoundsHalfAway(x);
    assert DecimalText.Units(x) == a as real / 10000.0;
    RoundNearest(DecimalText.Units(x));
  }

  /** The default tolerance is one basis point of the NAV to the nearest unit, but never less than 0.01. */
  lemma DefaultToleranceIs(externalNav: int)
    ensures DefaultTolerance(externalNav) >= UNIT / 100
    ensures Abs(externalNav) <= 100 * UNIT ==> DefaultTolerance(externalNav) == UNIT / 100
    ensures Abs(externalNav) > 100 * UNIT ==> -5000 <= 10000 * DefaultTolerance(externalNav) - Abs(externalNav) <= 5000
  {
    TenThousandth(Abs(externalNav));
  }

  ghost predicate Reported(c: Checkpoint, rows: seq<Row>, q: Request, amounts: map<string, int>) {
    && AccountLines(rows, q.account, amounts)
    && c.externalNav == q.externalNav
    && c.valuationNav == SumMap(amounts)
    && c.difference == Abs(q.externalNav - c.valuationNav)
    && ShareOf(c.relative, c.difference, q.externalNav)
    && (c.reconciled <==> c.difference <= c.tolerance)
    && Distinct(q.checks)
    && Compared(q.checks, c.lines, amounts)
    && (c.lineState == NoChecks <==> q.checks == [])
    && (c.lineState == Complete <==> Lines(q.checks) == Expected(rows, q.account))
    && (c.lineState == Complete ==> SumExternal(q.checks) == q.externalNav)
  }

  /** A difference as a share of the external NAV, to the nearest unit; there is none of a NAV of nothing. */
  ghost predicate ShareOf(share: Option<int>, difference: int, externalNav: int) {
    && (share.None? <==> externalNav == 0)
    && (share.Some? ==>
          -Abs(externalNav) <= 2 * (share.value * Abs(externalNav) - difference * UNIT) <= Abs(externalNav))
  }

  lemma NearestShare(n: int, d: int, units: int)
    requires d > 0 && units == RoundHalfAway(n as real / d as real)
    ensures -d <= 2 * (units * d - n) <= d
  {
    var x, product := n as real / d as real, units * d;
    RoundNearest(x);
    assert Times(x, d as real) == n as real;
    ScaledError(units as real, x, d as real);
    assert product as real == Times(units as real, d as real);
    WholeBounds(product, n, d);
  }

  lemma WholeBounds(product: int, n: int, d: int)
    requires -0.5 * d as real <= product as real - n as real <= 0.5 * d as real
    ensures -d <= 2 * (product - n) <= d
  {
  }

  lemma RelativeIs(difference: int, externalNav: int)
    ensures ShareOf(Relative(difference, externalNav), difference, externalNav)
  {
    if externalNav != 0 {
      var x := Rational(difference, Abs(externalNav));
      RoundsHalfAway(x);
      NearestShare(difference * UNIT, Abs(externalNav), RoundUnits(x));
    }
  }

  /** The difference as a share of the external NAV, in units. */
  function Relative(difference: int, externalNav: int): Option<int> {
    if externalNav == 0 then None else Some(RoundUnits(Rational(difference, Abs(externalNav))))
  }

  /** The valuation is one the request can be reconciled with; the first reason why it is not. */
  function Mismatch(v: Valuation, q: Request): Option<Conflict> {
    if !v.valid then Some(ValuationNotValid)
    else if v.currency != q.currency then Some(CurrencyMismatch)
    else if v.cutoff != q.cutoff then Some(CutoffMismatch)
    else None
  }

  /**
   * When a request is accepted: its checks name lines of the account, none twice; every line of the account is valued
   * once; and if the checks name them all they add up to the external NAV, otherwise they need not be complete.
   */
  ghost predicate Accepts(v: Valuation, rows: seq<Row>, q: Request) {
    && Distinct(q.checks) && v.valid && v.currency == q.currency && v.cutoff == q.cutoff
    && Expected(rows, q.account) != {} && EachValuedOnce(rows, q.account)
    && ChecksFit(rows, q)
  }

  ghost predicate ChecksFit(rows: seq<Row>, q: Request) {
    && Lines(q.checks) <= Expected(rows, q.account)
    && if Lines(q.checks) == Expected(rows, q.account) then SumExternal(q.checks) == q.externalNav else !q.complete
  }

  /** As many distinct checks of the account's lines as there are lines name them all. */
  lemma CompleteExactly(checks: seq<Check>, amounts: map<string, int>)
    requires Distinct(checks) && Names(checks, amounts)
    ensures |checks| == |amounts| <==> Lines(checks) == amounts.Keys
  {
    DistinctLines(checks);
    assert Lines(checks) <= amounts.Keys;
    assert |amounts.Keys| == |amounts|;
    if |checks| == |amounts| { Subsets.SubsetSize(Lines(checks), amounts.Keys); }
  }

  /** What checks of lines of the account come to: complete, partial or none. */
  function StateOf(checks: seq<Check>, lines: nat): LineState {
    if checks == [] then NoChecks else if |checks| == lines then Complete else Partial
  }

  /** Why checks of lines of the account are refused, if they are: a wrong total, or lines left out. */
  function Objection(q: Request, state: LineState, total: int): Option<Conflict> {
    if state == Complete && total != q.externalNav then Some(LineCheckTotalMismatch)
    else if state != Complete && q.complete then Some(LineCheckIncomplete)
    else None
  }

  lemma StateExactly(q: Request, rows: seq<Row>, amounts: map<string, int>)
    requires Distinct(q.checks) && Names(q.checks, amounts) && amounts.Keys == Expected(rows, q.account) != {}
    ensures Lines(q.checks) <= Expected(rows, q.account)
    ensures StateOf(q.checks, |amounts|) == NoChecks <==> q.checks == []
    ensures StateOf(q.checks, |amounts|) == Complete <==> Lines(q.checks) == Expected(rows, q.account)
  {
    NamesExactly(q.checks, amounts);
    CompleteExactly(q.checks, amounts);
  }

  /** The checks against the account's lines, and the state they leave. */
  method CheckState(q: Request, rows: seq<Row>, s: Scan, snapshot: Snapshot)
    returns (r: Result<(LineState, seq<LineCheck>), Conflict>)
    requires Finds(q.account, s, snapshot) && s.account.Keys == Expected(rows, q.account) != {} && Distinct(q.checks)
    ensures r.Ok? <==> ChecksFit(rows, q)
    ensures r.Ok? ==> Compared(q.checks, r.value.1, s.account) && (r.value.0 == NoChecks <==> q.checks == [])
    ensures r.Ok? ==> (r.value.0 == Complete <==> Lines(q.checks) == Expected(rows, q.account))
    ensures r.Err? ==> Refused(q, rows, s.account, snapshot, r.error)
  {
    var lines, total := CompareLines(q.checks, q.account, s, snapshot);
    if lines.Err? {
      NamesExactly(q.checks, s.account);
      return Err(lines.error);
    }
    var state := StateOf(q.checks, |s.account|);
    StateExactly(q, rows, s.account);
    if Objection(q, state, total).Some? {
      return Err(Objection(q, state, total).value);
    }
    return Ok((state, lines.value));
  }

  lemma NamesExactly(checks: seq<Check>, amounts: map<string, int>)
    ensures Lines(checks) <= amounts.Keys <==> Names(checks, amounts)
    ensures checks == [] ==> Lines(checks) == {}
  {
    forall i | 0 <= i < |checks| ensures checks[i].line in Lines(checks) {}
  }

  /** Why checks are refused: a line that is not the account's, a wrong total, or lines left out. */
  ghost predicate Refused(q: Request, rows: seq<Row>, amounts: map<string, int>, snapshot: Snapshot,
                          conflict: Conflict) {
    match conflict
    case LineCheckTotalMismatch =>
      Lines(q.checks) == Expected(rows, q.account) && SumExternal(q.checks) != q.externalNav
    case LineCheckIncomplete => q.complete && Lines(q.checks) < Expected(rows, q.account)
    case _ => exists i :: FirstStranger(q.checks, i, amounts, snapshot, conflict)
  }

  /** Which conflict a refused request is answered with, in the order of the checks. */
  ghost predicate Explained(v: Valuation, rows: seq<Row>, snapshot: Snapshot, inPortfolio: bool, q: Request,
                            conflict: Conflict) {
    if !Distinct(q.checks) then conflict == LineCheckDuplicate
    else if !v.valid then conflict == ValuationNotValid
    else if v.currency != q.currency then conflict == CurrencyMismatch
    else if v.cutoff != q.cutoff then conflict == CutoffMismatch
    else if Expected(rows, q.account) == {} then
      conflict == if inPortfolio then AccountHasNoLines else AccountNotInSnapshot
    else if !EachValuedOnce(rows, q.account) then exists line :: Faulty(rows, q.account, line, conflict)
    else exists amounts :: AccountLines(rows, q.account, amounts) && Refused(q, rows, amounts, snapshot, conflict)
  }

  function Tolerance(configured: Option<int>, externalNav: int): int {
    if configured.Some? then configured.value else DefaultTolerance(externalNav)
  }

  /** The comparison once the account's lines are known to be good. */
  method Reconcile(rows: seq<Row>, snapshot: Snapshot, q: Request, configured: Option<int>, s: Scan)
    returns (r: Result<Checkpoint, Conflict>)
    requires Finds(q.account, s, snapshot) && AccountLines(rows, q.account, s.account)
    requires Distinct(q.checks) && Expected(rows, q.account) != {}
    ensures r.Ok? <==> ChecksFit(rows, q)
    ensures r.Ok? ==> Reported(r.value, rows, q, s.account)
    ensures r.Ok? && configured.Some? ==> r.value.tolerance == configured.value
    ensures r.Ok? && configured.None? ==> r.value.tolerance == DefaultTolerance(q.externalNav)
    ensures r.Err? ==> Refused(q, rows, s.account, snapshot, r.error)
  {
    var nav := SumAmounts(s.account);
    var tolerance, difference := Tolerance(configured, q.externalNav), Abs(q.externalNav - nav);
    RelativeIs(difference, q.externalNav);
    var checked := CheckState(q, rows, s, snapshot);
    if checked.Err? {
      return Err(checked.error);
    }
    return Ok(Checkpoint(q.externalNav, nav, difference, Relative(difference, q.externalNav), tolerance,
                         difference <= tolerance,
                         checked.value.0, checked.value.1));
  }

  method Create(v: Valuation, rows: seq<Row>, snapshot: Snapshot, inPortfolio: bool, q: Request,
                configured: Option<int>)
    returns (r: Result<Checkpoint, Conflict>)
    requires Joined(rows, snapshot)
    ensures r.Ok? <==> Accepts(v, rows, q)
    ensures r.Ok? && configured.Some? ==> r.value.tolerance == configured.value
    ensures r.Ok? && configured.None? ==> r.value.tolerance == DefaultTolerance(q.externalNav)
    ensures r.Ok? ==> exists amounts :: Reported(r.value, rows, q, amounts)
    ensures r.Err? ==> Explained(v, rows, snapshot, inPortfolio, q, r.error)
  {
    var duplicate := HasDuplicate(q.checks);
    if duplicate {
      return Err(LineCheckDuplicate);
    }
    if Mismatch(v, q).Some? {
      return Err(Mismatch(v, q).value);
    }
    var s := ScanRows(rows, q.account, snapshot);
    var conflict := CheckLines(rows, q.account, s, snapshot);
    if conflict.Some? {
      return Err(if conflict.value.AccountHasNoLines? && !inPortfolio then AccountNotInSnapshot else conflict.value);
    }
    FindsLines(rows, q.account, s, snapshot);
    r := Reconcile(rows, snapshot, q, configured, s);
  }

  // ----- Conservation

  lemma {:induction false} DifferencesAddUp(checks: seq<Check>, lines: seq<LineCheck>, amounts: map<string, int>)
    requires Compared(checks, lines, amounts)
    ensures SumDifferences(lines) == SumExternal(checks) - SumValuations(checks, amounts)
  {
    if checks != [] {
      var n := |checks| - 1;
      DifferencesAddUp(checks[..n], lines[..n], amounts);
    }
  }

  /**
   * Complete line checks conserve value: they name every line of the account in the snapshot exactly once, and
   * their differences add up exactly to the external NAV less the valuation NAV.
   */
  lemma CompleteConserves(c: Checkpoint, rows: seq<Row>, q: Request, amounts: map<string, int>)
    requires Reported(c, rows, q, amounts) && c.lineState == Complete
    ensures Lines(q.checks) == Expected(rows, q.account) && |Lines(q.checks)| == |q.checks|
    ensures SumDifferences(c.lines) == c.externalNav - c.valuationNav
  {
    DistinctLines(q.checks);
    ValuationsAddUp(q.checks, amounts);
    DifferencesAddUp(q.checks, c.lines, amounts);
  }
}
