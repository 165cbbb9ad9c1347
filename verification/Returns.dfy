/** Log returns on an observation calendar, their alignment across instruments, and the drawdown of a NAV history. */
module Returns {
  import opened Results
  import opened Decimals
  import opened Days

  datatype Calendar = BusinessDaily | CryptoDaily

  datatype Price = Missing | NotFinite | Finite(value: real)

  type Prices = map<Day, Price>

  predicate Weekend(d: Day) {
    d.n % 7 >= 5
  }

  predicate OnCalendar(d: Day, calendar: Calendar) {
    calendar.CryptoDaily? || !Weekend(d)
  }

  predicate ValidPrice(p: Price) {
    p.Finite? && p.value > 0.0
  }

  // ----- The calendar

  /** The first day of the calendar after a day. */
  function NextDay(d: Day, calendar: Calendar): (next: Day)
    ensures d.n < next.n && OnCalendar(next, calendar)
    ensures forall e: Day :: d.n < e.n < next.n ==> !OnCalendar(e, calendar)
  {
    if OnCalendar(Day(d.n + 1), calendar) then Day(d.n + 1)
    else if OnCalendar(Day(d.n + 2), calendar) then Day(d.n + 2)
    else Day(d.n + 3)
  }

  method NextCalendarDate(d: Day, calendar: Calendar) returns (next: Day)
    ensures next == NextDay(d, calendar)
  {
    next := Day(d.n + 1);
    while calendar.BusinessDaily? && Weekend(next)
      invariant d.n < next.n <= NextDay(d, calendar).n
      invariant forall e: Day :: d.n < e.n < next.n ==> !OnCalendar(e, calendar)
      decreases NextDay(d, calendar).n - next.n
    {
      next := Day(next.n + 1);
    }
  }

  // ----- Observations

  function ValidDays(prices: Prices, calendar: Calendar): set<Day> {
    set d | d in prices && OnCalendar(d, calendar) && ValidPrice(prices[d])
  }

  /** A day with a price that counts: finite, positive and, on the business calendar, on a weekday. */
  ghost predicate Quoted(prices: Prices, calendar: Calendar, d: Day) {
    && d in prices && prices[d].Finite? && prices[d].value > 0.0
    && (calendar == BusinessDaily ==> d.n % 7 < 5)
  }

  /** The day after, or on the business calendar the Monday after a Friday. */
  ghost predicate Follows(previous: Day, d: Day, calendar: Calendar) {
    d.n == previous.n + if calendar == BusinessDaily && previous.n % 7 == 4 then 3 else 1
  }

  /** A day has a return exactly when it and the calendar day before it have prices that count. */
  ghost predicate HasReturn(prices: Prices, calendar: Calendar, d: Day, previous: Day) {
    Quoted(prices, calendar, d) && Quoted(prices, calendar, previous) && Follows(previous, d, calendar)
  }

  lemma NextIs(previous: Day, d: Day, calendar: Calendar)
    requires OnCalendar(previous, calendar)
    ensures NextDay(previous, calendar) == d <==> Follows(previous, d, calendar)
  {
  }

  lemma QuotedIs(prices: Prices, calendar: Calendar, d: Day)
    ensures Quoted(prices, calendar, d) <==> d in ValidDays(prices, calendar)
  {
  }

  lemma HasReturnIs(prices: Prices, calendar: Calendar, d: Day, previous: Day)
    ensures HasReturn(prices, calendar, d, previous) <==>
              && d in ValidDays(prices, calendar) && previous in ValidDays(prices, calendar)
              && NextDay(previous, calendar) == d
  {
    QuotedIs(prices, calendar, d);
    QuotedIs(prices, calendar, previous);
    if previous in ValidDays(prices, calendar) { NextIs(previous, d, calendar); }
  }

  /** The log of the price change between two days. */
  function LogReturn(prices: Prices, log: real -> real, previous: Day, d: Day): real {
    if previous in prices && d in prices && ValidPrice(prices[previous]) && ValidPrice(prices[d])
    then log(prices[d].value / prices[previous].value) else 0.0
  }

  ghost predicate IsReturns(series: map<Day, real>, prices: Prices, calendar: Calendar, log: real -> real) {
    && (forall d :: d in series <==> exists previous :: HasReturn(prices, calendar, d, previous))
    && (forall d, previous :: HasReturn(prices, calendar, d, previous) ==>
          d in series && series[d] == log(prices[d].value / prices[previous].value))
  }

  lemma LogReturnIs(prices: Prices, calendar: Calendar, log: real -> real, previous: Day, d: Day)
    requires HasReturn(prices, calendar, d, previous)
    ensures LogReturn(prices, log, previous, d) == log(prices[d].value / prices[previous].value)
  {
  }

  /** Neighbours on the calendar are neighbours in any ascending list of its days. */
  lemma CalendarNeighbours(days: seq<Day>, calendar: Calendar, i: nat, j: nat)
    requires Ascending(days) && i < |days| && j < |days| && NextDay(days[i], calendar) == days[j]
    requires forall k :: 0 <= k < |days| ==> OnCalendar(days[k], calendar)
    ensures j == i + 1
  {
    assert i < j;
    assert days[i + 1].n >= days[j].n;
  }

  // ----- The one-pass computation

  function Changes(prices: Prices, log: real -> real): Change {
    (previous: Day, d: Day) => LogReturn(prices, log, previous, d)
  }

  function Calendars(calendar: Calendar): Successor {
    (d: Day) => NextDay(d, calendar)
  }

  /** One pass over the sorted observations, counting the pairs that are not calendar neighbours. */
  method ScanReturns(days: seq<Day>, prices: Prices, calendar: Calendar, log: real -> real)
    returns (series: map<Day, real>, missing: nat)
    requires Ascending(days)
    ensures Entries(series, days, |days|, Calendars(calendar), Changes(prices, log))
    ensures |series| + missing == if |days| == 0 then 0 else |days| - 1
  {
    series, missing := map[], 0;
    if |days| == 0 {
      return;
    }
    var k := 1;
    while k < |days|
      invariant 1 <= k <= |days| && Entries(series, days, k, Calendars(calendar), Changes(prices, log))
      invariant |series| + missing == k - 1
    {
      var previous := days[k - 1];
      var next := NextCalendarDate(previous, calendar);
      AtStep(days, k - 1, k, Calendars(calendar), Changes(prices, log));
      if next == days[k] {
        var change := LogReturn(prices, log, previous, days[k]);
        EntriesAdd(series, days, k, Calendars(calendar), Changes(prices, log), change);
        series := series[days[k] := change];
      } else {
        EntriesSkip(series, days, k, Calendars(calendar), Changes(prices, log));
        missing := missing + 1;
      }
      k := k + 1;
    }
  }

  lemma EntryHasReturn(days: seq<Day>, prices: Prices, calendar: Calendar, d: Day)
    requires Lists(days, ValidDays(prices, calendar)) && Listed(d, days, |days|, Calendars(calendar))
    ensures exists previous :: HasReturn(prices, calendar, d, previous)
  {
    var i, j := ListedFollows(d, days, |days|, Calendars(calendar));
    assert days[i] in days && days[j] in days;
    HasReturnIs(prices, calendar, d, days[i]);
    assert HasReturn(prices, calendar, d, days[i]);
  }

  lemma ReturnIsEntry(series: map<Day, real>, days: seq<Day>, prices: Prices, calendar: Calendar, log: real -> real,
                      d: Day, previous: Day)
    requires Lists(days, ValidDays(prices, calendar)) && HasReturn(prices, calendar, d, previous)
    requires Entries(series, days, |days|, Calendars(calendar), Changes(prices, log))
    ensures d in series && series[d] == log(prices[d].value / prices[previous].value)
  {
    HasReturnIs(prices, calendar, d, previous);
    LogReturnIs(prices, calendar, log, previous, d);
    assert d in days && previous in days;
    var i :| 0 <= i < |days| && days[i] == previous;
    var j :| 0 <= j < |days| && days[j] == d;
    forall k | 0 <= k < |days| ensures OnCalendar(days[k], calendar) { assert days[k] in days; }
    CalendarNeighbours(days, calendar, i, j);
    AtStep(days, i, j, Calendars(calendar), Changes(prices, log));
  }

  lemma PassIsDefinition(series: map<Day, real>, days: seq<Day>, prices: Prices, calendar: Calendar, log: real -> real)
    requires Lists(days, ValidDays(prices, calendar))
    requires Entries(series, days, |days|, Calendars(calendar), Changes(prices, log))
    ensures IsReturns(series, prices, calendar, log)
  {
    forall d, previous | HasReturn(prices, calendar, d, previous)
      ensures d in series && series[d] == log(prices[d].value / prices[previous].value)
    {
      ReturnIsEntry(series, days, prices, calendar, log, d, previous);
    }
    forall d | d in series ensures exists previous :: HasReturn(prices, calendar, d, previous) {
      EntryHasReturn(days, prices, calendar, d);
    }
  }

  /** The returns of an instrument, and how many neighbouring observations have a gap between them. */
  method ComputeLogReturns(prices: Prices, calendar: Calendar, log: real -> real)
    returns (series: map<Day, real>, missing: nat)
    ensures IsReturns(series, prices, calendar, log)
    ensures var n := |ValidDays(prices, calendar)|; |series| + missing == if n == 0 then 0 else n - 1
  {
    var days := SortDays(ValidDays(prices, calendar));
    series, missing := ScanReturns(days, prices, calendar, log);
    PassIsDefinition(series, days, prices, calendar, log);
  }

  // ----- Alignment

  /** The prices of an instrument on the days both have one, as the aligned computation keeps them. */
  function Shared(prices: Prices, other: Prices): Prices {
    map d | d in prices && d in other && ValidPrice(prices[d]) && ValidPrice(other[d]) :: prices[d]
  }

  method ComputeAlignedLogReturns(left: Prices, right: Prices, calendar: Calendar, log: real -> real)
    returns (a: map<Day, real>, b: map<Day, real>)
    ensures IsReturns(a, Shared(left, right), calendar, log) && IsReturns(b, Shared(right, left), calendar, log)
  {
    var missing;
    a, missing := ComputeLogReturns(Shared(left, right), calendar, log);
    b, missing := ComputeLogReturns(Shared(right, left), calendar, log);
  }

  lemma SharedDays(left: Prices, right: Prices, calendar: Calendar)
    ensures ValidDays(Shared(left, right), calendar) == ValidDays(left, calendar) * ValidDays(right, calendar)
  {
  }

  lemma SameDaysSameReturn(a: Prices, b: Prices, calendar: Calendar, d: Day, previous: Day)
    requires ValidDays(a, calendar) == ValidDays(b, calendar)
    ensures HasReturn(a, calendar, d, previous) <==> HasReturn(b, calendar, d, previous)
  {
    HasReturnIs(a, calendar, d, previous);
    HasReturnIs(b, calendar, d, previous);
  }

  /** Returns depend on the valid days and their prices only. */
  lemma SameDaysSameReturns(series: map<Day, real>, a: Prices, b: Prices, calendar: Calendar, log: real -> real)
    requires IsReturns(series, a, calendar, log) && ValidDays(a, calendar) == ValidDays(b, calendar)
    requires forall d :: d in ValidDays(a, calendar) ==> a[d] == b[d]
    ensures IsReturns(series, b, calendar, log)
  {
    forall d, previous | HasReturn(b, calendar, d, previous)
      ensures d in series && series[d] == log(b[d].value / b[previous].value)
    {
      SameDaysSameReturn(a, b, calendar, d, previous);
      QuotedIs(a, calendar, d);
      QuotedIs(a, calendar, previous);
    }
    forall d | d in series ensures exists previous :: HasReturn(b, calendar, d, previous) {
      var previous :| HasReturn(a, calendar, d, previous);
      SameDaysSameReturn(a, b, calendar, d, previous);
    }
  }

  lemma ReturnAgrees(a: map<Day, real>, b: map<Day, real>, prices: Prices, calendar: Calendar, log: real -> real,
                     d: Day, previous: Day)
    requires IsReturns(a, prices, calendar, log) && IsReturns(b, prices, calendar, log)
    requires HasReturn(prices, calendar, d, previous)
    ensures d in a && d in b && a[d] == b[d]
  {
  }

  lemma ReturnsAgree(a: map<Day, real>, b: map<Day, real>, prices: Prices, calendar: Calendar, log: real -> real,
                     d: Day)
    requires IsReturns(a, prices, calendar, log) && IsReturns(b, prices, calendar, log) && d in a
    ensures d in b && a[d] == b[d]
  {
    var previous :| HasReturn(prices, calendar, d, previous);
    ReturnAgrees(a, b, prices, calendar, log, d, previous);
  }

  lemma SameSeries(a: map<Day, real>, b: map<Day, real>)
    requires (forall d :: d in a ==> d in b && a[d] == b[d]) && (forall d :: d in b ==> d in a)
    ensures a == b
  {
  }

  /** The definition leaves no choice: an instrument has one series of returns. */
  lemma ReturnsUnique(a: map<Day, real>, b: map<Day, real>, prices: Prices, calendar: Calendar, log: real -> real)
    requires IsReturns(a, prices, calendar, log) && IsReturns(b, prices, calendar, log)
    ensures a == b
  {
    AllReturnsAgree(a, b, prices, calendar, log);
    AllReturnsAgree(b, a, prices, calendar, log);
    SameSeries(a, b);
  }

  lemma AllReturnsAgree(a: map<Day, real>, b: map<Day, real>, prices: Prices, calendar: Calendar, log: real -> real)
    requires IsReturns(a, prices, calendar, log) && IsReturns(b, prices, calendar, log)
    ensures forall d :: d in a ==> d in b && a[d] == b[d]
  {
    forall d | d in a ensures d in b && a[d] == b[d] { ReturnsAgree(a, b, prices, calendar, log, d); }
  }

  lemma CachedIsAligned(cached: map<Day, real>, left: Prices, right: Prices, calendar: Calendar, log: real -> real)
    requires IsReturns(cached, left, calendar, log) && ValidDays(left, calendar) == ValidDays(right, calendar)
    ensures IsReturns(cached, Shared(left, right), calendar, log)
  {
    SharedDays(left, right, calendar);
    SameDaysSameReturns(cached, left, Shared(left, right), calendar, log);
  }

  lemma NothingShared(left: Prices, right: Prices, calendar: Calendar, log: real -> real)
    requires ValidDays(left, calendar) * ValidDays(right, calendar) == {}
    ensures IsReturns(map[], Shared(left, right), calendar, log)
  {
    SharedDays(left, right, calendar);
    forall d ensures !Quoted(Shared(left, right), calendar, d) { QuotedIs(Shared(left, right), calendar, d); }
  }

  /** A day with a return for a pair: both have prices that count on it and on the calendar day before. */
  ghost predicate PairHasReturn(left: Prices, right: Prices, calendar: Calendar, d: Day, previous: Day) {
    && Quoted(left, calendar, d) && Quoted(right, calendar, d)
    && Quoted(left, calendar, previous) && Quoted(right, calendar, previous) && Follows(previous, d, calendar)
  }

  /** One of a pair of series: its own log returns, on the days the pair has one. */
  ghost predicate IsPairSeries(series: map<Day, real>, own: Prices, other: Prices, calendar: Calendar,
                               log: real -> real) {
    && (forall d :: d in series <==> exists previous :: PairHasReturn(own, other, calendar, d, previous))
    && (forall d, previous :: PairHasReturn(own, other, calendar, d, previous) ==>
          d in series && series[d] == log(own[d].value / own[previous].value))
  }

  lemma SharedHasReturn(own: Prices, other: Prices, calendar: Calendar, d: Day, previous: Day)
    ensures PairHasReturn(own, other, calendar, d, previous) <==> HasReturn(Shared(own, other), calendar, d, previous)
  {
  }

  lemma SharedIsPair(series: map<Day, real>, own: Prices, other: Prices, calendar: Calendar, log: real -> real)
    requires IsReturns(series, Shared(own, other), calendar, log)
    ensures IsPairSeries(series, own, other, calendar, log)
  {
    forall d, previous | PairHasReturn(own, other, calendar, d, previous)
      ensures d in series && series[d] == log(own[d].value / own[previous].value)
    {
      SharedHasReturn(own, other, calendar, d, previous);
    }
    forall d | d in series ensures exists previous :: PairHasReturn(own, other, calendar, d, previous) {
      var previous :| HasReturn(Shared(own, other), calendar, d, previous);
      SharedHasReturn(own, other, calendar, d, previous);
    }
  }

  /**
   * The pair of return series behind a correlation. Whichever shortcut is taken, cached returns for equal valid
   * days or nothing for none in common, the result is the aligned computation's.
   */
  method PairReturns(left: Prices, right: Prices, cachedLeft: map<Day, real>, cachedRight: map<Day, real>,
                     calendar: Calendar, log: real -> real)
    returns (a: map<Day, real>, b: map<Day, real>)
    requires IsReturns(cachedLeft, left, calendar, log) && IsReturns(cachedRight, right, calendar, log)
    ensures IsReturns(a, Shared(left, right), calendar, log) && IsReturns(b, Shared(right, left), calendar, log)
    ensures IsPairSeries(a, left, right, calendar, log) && IsPairSeries(b, right, left, calendar, log)
  {
    var l, r := ValidDays(left, calendar), ValidDays(right, calendar);
    if l * r == {} {
      NothingShared(left, right, calendar, log);
      NothingShared(right, left, calendar, log);
      a, b := map[], map[];
    } else if l == r {
      CachedIsAligned(cachedLeft, left, right, calendar, log);
      CachedIsAligned(cachedRight, right, left, calendar, log);
      a, b := cachedLeft, cachedRight;
    } else {
      a, b := ComputeAlignedLogReturns(left, right, calendar, log);
    }
    SharedIsPair(a, left, right, calendar, log);
    SharedIsPair(b, right, left, calendar, log);
  }

  // ----- Returns add up

  /** Days without a gap between them. */
  ghost predicate Gapless(days: seq<Day>, prices: Prices, calendar: Calendar) {
    && (forall i :: 0 <= i < |days| ==> Quoted(prices, calendar, days[i]))
    && (forall i, j :: 0 <= i && j == i + 1 < |days| ==> Follows(days[i], days[j], calendar))
  }

  ghost predicate InSeries(days: seq<Day>, series: map<Day, real>) {
    forall i :: 0 < i < |days| ==> days[i] in series
  }

  /** The sum of the returns of all days but the first. */
  ghost function SumReturns(days: seq<Day>, series: map<Day, real>): real
    requires InSeries(days, series)
  {
    if |days| <= 1 then 0.0 else SumReturns(days[..|days| - 1], series) + series[days[|days| - 1]]
  }

  /** A logarithm turns products of positive numbers into sums. */
  ghost predicate IsLog(log: real -> real) {
    forall x, y :: x > 0.0 && y > 0.0 ==> log(Times(x, y)) == log(x) + log(y)
  }

  lemma LogOfOne(log: real -> real, x: real)
    requires IsLog(log) && x > 0.0
    ensures log(x / x) == 0.0
  {
    assert x / x == 1.0;
    assert log(Times(1.0, 1.0)) == log(1.0) + log(1.0);
  }

  lemma LogOfQuotients(log: real -> real, x: real, y: real, z: real)
    requires IsLog(log) && x > 0.0 && y > 0.0 && z > 0.0
    ensures log(y / x) + log(z / y) == log(z / x)
  {
    QuotientsJoin(x, y, z);
    assert log(Times(y / x, z / y)) == log(y / x) + log(z / y);
  }

  lemma QuotientsJoin(x: real, y: real, z: real)
    requires x > 0.0 && y > 0.0 && z > 0.0
    ensures y / x > 0.0 && z / y > 0.0 && Times(y / x, z / y) == z / x
  {
    var a, b, c := y / x, z / y, z / x;
    assert a * x == y && b * y == z && c * x == z;
    Chained(a, b, c, x, y, z);
  }

  lemma Chained(a: real, b: real, c: real, x: real, y: real, z: real)
    requires x > 0.0 && y > 0.0 && z > 0.0 && Times(a, x) == y && Times(b, y) == z && Times(c, x) == z
    ensures Times(a, b) == c
  {
    assert Times(Times(a, b), x) == Times(b, Times(a, x));
    assert (a * b - c) * x == 0.0;
  }

  /** Over days without a gap the returns of an instrument add up to the log of its last price over its first. */
  lemma {:induction false} ReturnsAddUp(days: seq<Day>, series: map<Day, real>, prices: Prices, calendar: Calendar,
                                        log: real -> real)
    requires IsReturns(series, prices, calendar, log) && Gapless(days, prices, calendar) && days != [] && IsLog(log)
    ensures InSeries(days, series)
    ensures SumReturns(days, series) == log(prices[days[|days| - 1]].value / prices[days[0]].value)
  {
    var n := |days| - 1;
    if n == 0 {
      LogOfOne(log, prices[days[0]].value);
    } else {
      var m := n - 1;
      ReturnsAddUp(days[..n], series, prices, calendar, log);
      assert HasReturn(prices, calendar, days[n], days[m]);
      forall i | 0 < i < |days| ensures days[i] in series { if i < n { assert days[..n][i] == days[i]; } }
      LogOfQuotients(log, prices[days[0]].value, prices[days[m]].value, prices[days[n]].value);
    }
  }

  // ----- Drawdown

  /** The fall from an earlier value to a later one. */
  ghost function Fall(v: seq<real>, i: nat, j: nat): real
    requires i <= j < |v| && v[i] != 0.0
  {
    v[j] / v[i] - 1.0
  }

  ghost predicate Positive(v: seq<real>) {
    forall i :: 0 <= i < |v| ==> v[i] > 0.0
  }

  ghost predicate IsMaximumDrawdown(m: real, v: seq<real>)
    requires Positive(v)
  {
    && (forall i, j :: 0 <= i <= j < |v| ==> m <= Fall(v, i, j))
    && exists i, j :: 0 <= i <= j < |v| && m == Fall(v, i, j)
  }

  lemma FromHigherFallsFurther(x: real, low: real, high: real)
    requires x > 0.0 && 0.0 < low <= high
    ensures x / high <= x / low
  {
    var a, b := x / high, x / low;
    assert a * high == x && b * low == x;
    ScaleOrder(high, low, b);
    ScaleOrder(b, a, high);
  }

  /** The one-pass running peak finds the worst fall over all earlier and later values. */
  method MaximumDrawdown(v: seq<real>) returns (maximum: real)
    requires Positive(v) && v != []
    ensures IsMaximumDrawdown(maximum, v)
  {
    var peak, at := v[0], 0;
    maximum := 0.0;
    ghost var p, q := 0, 0;
    assert Fall(v, 0, 0) == 0.0;
    for k := 0 to |v|
      invariant at < |v| && at <= k && peak == v[at] && forall i :: 0 <= i < k ==> v[i] <= peak
      invariant 0 <= p <= q < |v| && maximum == Fall(v, p, q) && q <= k
      invariant forall i, j :: 0 <= i <= j < k ==> maximum <= Fall(v, i, j)
    {
      if v[k] > peak {
        peak, at := v[k], k;
      }
      var fall := v[k] / peak - 1.0;
      if fall < maximum {
        maximum, p, q := fall, at, k;
      }
      forall i | 0 <= i <= k ensures maximum <= Fall(v, i, k) {
        FromHigherFallsFurther(v[k], v[i], peak);
      }
    }
  }
}
