/** Sets of days in order. */
module Days {

  /** A calendar day by its number, counted from a Monday. */
  datatype Day = Day(n: int)

  ghost predicate Ascending(days: seq<Day>) {
    forall i, j :: 0 <= i < j < |days| ==> days[i].n < days[j].n
  }

  ghost predicate Lists(days: seq<Day>, s: set<Day>) {
    Ascending(days) && |days| == |s| && forall d :: d in days <==> d in s
  }

  lemma {:induction false} LeastExists(s: set<Day>)
    requires s != {}
    ensures exists m :: m in s && forall d :: d in s ==> m.n <= d.n
  {
    var x :| x in s;
    var rest := s - {x};
    if rest == {} {
      assert s == {x};
    } else {
      LeastExists(rest);
      var m :| m in rest && forall d :: d in rest ==> m.n <= d.n;
      var least := if x.n < m.n then x else m;
      forall d | d in s ensures least.n <= d.n { assert d == x || d in rest; }
    }
  }

  method SortDays(s: set<Day>) returns (days: seq<Day>)
    ensures Lists(days, s)
  {
    days := [];
    var left := s;
    while left != {}
      invariant left <= s && Ascending(days) && |days| + |left| == |s|
      invariant forall d :: d in days <==> d in s - left
      invariant forall i, d :: 0 <= i < |days| && d in left ==> days[i].n < d.n
      decreases left
    {
      LeastExists(left);
      var m :| m in left && forall d :: d in left ==> m.n <= d.n;
      days := days + [m];
      left := left - {m};
    }
  }

  // ----- One pass over neighbouring days

  /** A pass is described by the calendar's successor and by the value of a pair of neighbours. */
  type Successor = Day -> Day
  type Change = (Day, Day) -> real

  ghost predicate Adjacent(days: seq<Day>, i: int, next: Successor) {
    0 < i < |days| && next(days[i - 1]) == days[i]
  }

  ghost function Entry(days: seq<Day>, i: int, change: Change): real {
    if 0 < i < |days| then change(days[i - 1], days[i]) else 0.0
  }

  lemma AtStep(days: seq<Day>, j: nat, k: nat, next: Successor, change: Change)
    requires k == j + 1 < |days|
    ensures Adjacent(days, k, next) <==> next(days[j]) == days[k]
    ensures Entry(days, k, change) == change(days[j], days[k])
  {
  }

  ghost predicate Listed(d: Day, days: seq<Day>, k: nat, next: Successor) {
    exists i :: i < k && Adjacent(days, i, next) && days[i] == d
  }

  ghost predicate OnlyListed(series: map<Day, real>, days: seq<Day>, k: nat, next: Successor) {
    forall d :: d in series ==> Listed(d, days, k, next)
  }

  ghost predicate Valued(series: map<Day, real>, days: seq<Day>, k: nat, next: Successor, change: Change) {
    forall i :: i < k && Adjacent(days, i, next) ==> days[i] in series && series[days[i]] == Entry(days, i, change)
  }

  /** One entry for each of the first k days that follows its predecessor on the calendar. */
  ghost predicate Entries(series: map<Day, real>, days: seq<Day>, k: nat, next: Successor, change: Change) {
    OnlyListed(series, days, k, next) && Valued(series, days, k, next, change)
  }

  lemma ListedBefore(d: Day, days: seq<Day>, k: nat, next: Successor)
    requires Ascending(days) && k < |days| && Listed(d, days, k, next)
    ensures d != days[k] && Listed(d, days, k + 1, next)
  {
    var i :| i < k && Adjacent(days, i, next) && days[i] == d;
    assert i < k + 1;
  }

  lemma EntriesSkip(series: map<Day, real>, days: seq<Day>, k: nat, next: Successor, change: Change)
    requires k < |days| && Ascending(days) && Entries(series, days, k, next, change) && !Adjacent(days, k, next)
    ensures Entries(series, days, k + 1, next, change)
  {
    forall d | d in series ensures Listed(d, days, k + 1, next) { ListedBefore(d, days, k, next); }
  }

  lemma ListAdd(series: map<Day, real>, days: seq<Day>, k: nat, next: Successor, x: real)
    requires k < |days| && Ascending(days) && OnlyListed(series, days, k, next) && Adjacent(days, k, next)
    ensures days[k] !in series && OnlyListed(series[days[k] := x], days, k + 1, next)
  {
    forall d | d in series ensures d != days[k] && Listed(d, days, k + 1, next) { ListedBefore(d, days, k, next); }
    assert Listed(days[k], days, k + 1, next) by { assert k < k + 1; }
  }

  lemma ValueAdd(series: map<Day, real>, days: seq<Day>, k: nat, next: Successor, change: Change, x: real)
    requires k < |days| && Ascending(days) && Valued(series, days, k, next, change) && x == Entry(days, k, change)
    ensures Valued(series[days[k] := x], days, k + 1, next, change)
  {
  }

  lemma EntriesAdd(series: map<Day, real>, days: seq<Day>, k: nat, next: Successor, change: Change, x: real)
    requires k < |days| && Ascending(days) && Entries(series, days, k, next, change) && Adjacent(days, k, next)
    requires x == Entry(days, k, change)
    ensures days[k] !in series && Entries(series[days[k] := x], days, k + 1, next, change)
  {
    ListAdd(series, days, k, next, x);
    ValueAdd(series, days, k, next, change, x);
  }

  /** A listed day comes right after another day of the list, its predecessor on the calendar. */
  lemma ListedFollows(d: Day, days: seq<Day>, k: nat, next: Successor) returns (i: nat, j: nat)
    requires Listed(d, days, k, next)
    ensures j == i + 1 && j < |days| && j < k && days[j] == d && next(days[i]) == d
  {
    var n :| n < k && Adjacent(days, n, next) && days[n] == d;
    i, j := n - 1, n;
  }
}
