/** The attribution report of a scenario and the job handler that relies on it. */
module AttributionReport {
  import opened Results
  import opened Decimals
  import opened Subsets
  import opened Shapley
  import opened Allocation
  import opened Scenario
  import opened Attribution

  /** 0.00000001 in units of 10^-18. */
  const DEFAULT_TOLERANCE := 10000000000

  /** A hundred-millionth. */
  lemma DefaultToleranceIs()
    ensures DEFAULT_TOLERANCE as real * 100000000.0 == SCALE
  {
  }

  /** Rounds at the reconciliation boundary, where the default decimal context applies. */
  function QuantizeStorage(units: real): Result<int, Failure> {
    var n := RoundHalfAway(units);
    if Fits(n, CONTEXT_LIMIT) then Ok(n) else Err(ScenarioInvalid)
  }

  function SumShares(names: seq<string>, shares: map<string, int>): int
    requires forall f :: f in names ==> f in shares
  {
    if names == [] then 0 else SumShares(names[..|names| - 1], shares) + shares[names[|names| - 1]]
  }

  /** A total split into a baseline, one rounded share per factor, and what is left over. */
  datatype Split = Split(total: Option<int>, baseline: int, shares: map<string, int>, residual: Option<int>)

  datatype Report = Report(names: seq<string>, state: State, portfolio: Split, lines: seq<Split>, reconciles: bool)

  /** The shares are the rounded ordering averages of v, and the residual is exactly what they miss. */
  ghost predicate Explains(split: Split, names: seq<string>, v: Game) {
    && split.shares.Keys == Elements(names)
    && (forall f :: f in names ==> split.shares[f] == RoundHalfAway(OrderingAverage(names, v, f)))
    && split.baseline == RoundHalfAway(v({}))
    && (split.residual.Some? <==> split.total.Some?)
    && (split.total.Some? ==>
        split.residual.value == split.total.value - (split.baseline + SumShares(names, split.shares)))
  }

  /** Every number of a split has at most 28 digits, the sum of its baseline and shares included. */
  ghost predicate SplitFits(split: Split, names: seq<string>) {
    && split.shares.Keys == Elements(names)
    && (forall f :: f in names ==> Fits(split.shares[f], CONTEXT_LIMIT))
    && Fits(split.baseline, CONTEXT_LIMIT)
    && Fits(split.baseline + SumShares(names, split.shares), CONTEXT_LIMIT)
    && (split.total.Some? ==> Fits(split.total.value, CONTEXT_LIMIT))
    && (split.residual.Some? ==> Fits(split.residual.value, CONTEXT_LIMIT))
  }

  ghost predicate SplitOf(split: Split, names: seq<string>, v: Game, total: Option<int>) {
    Explains(split, names, v) && split.total == total && SplitFits(split, names)
  }

  /** A total can be split: every subset has a value, and no number of the split is too long. */
  ghost predicate Splittable(names: seq<string>, value: ValueFunction, total: Option<int>) {
    AllValued(value, names) && exists split :: SplitOf(split, names, Worth(value), total)
  }

  // ----- The rounding bound

  lemma {:induction false} RoundedSumBound(names: seq<string>, h: string -> real, shares: map<string, int>)
    requires forall f :: f in names ==> f in shares && shares[f] == RoundHalfAway(h(f))
    ensures -(|names| as real) <= 2.0 * (SumShares(names, shares) as real - ElemSum(names, h)) <= |names| as real
  {
    if names != [] {
      var n := |names| - 1;
      var rest, last := names[..n], names[n];
      assert names == rest + [last];
      ElemSumSnoc(rest, last, h);
      RoundedSumBound(rest, h, shares);
      RoundNearest(h(last));
    }
  }

  /** Rounding n shares of an integral total leaves at most n/2 units unexplained. */
  lemma ResidualBound(split: Split, names: seq<string>, v: Game)
    requires Distinct(names) && Explains(split, names, v)
    requires split.total.Some? && split.total.value as real == v(Elements(names))
    requires split.baseline as real == v({})
    ensures -|names| <= 2 * split.residual.value <= |names|
  {
    Efficiency(names, v);
    RoundedSumBound(names, Averages(names, v), split.shares);
  }

  // ----- Computing the report

  method ListFactors(factors: set<string>) returns (names: seq<string>)
    ensures Distinct(names) && Elements(names) == factors
  {
    var left := factors;
    names := [];
    while left != {}
      invariant left <= factors && Elements(names) == factors - left
      invariant Distinct(names)
      decreases left
    {
      var f :| f in left;
      assert f !in names by { assert f !in Elements(names); }
      assert Elements(names + [f]) == Elements(names) + {f};
      names := names + [f];
      left := left - {f};
    }
  }

  method RoundShares(names: seq<string>, exact: map<string, real>)
    returns (r: Result<map<string, int>, Failure>, sum: int)
    requires Distinct(names) && exact.Keys == Elements(names)
    ensures r.Ok? ==> r.value.Keys == Elements(names) && sum == SumShares(names, r.value)
    ensures r.Ok? ==> forall f :: f in names ==>
              r.value[f] == RoundHalfAway(exact[f]) && Fits(r.value[f], CONTEXT_LIMIT)
    ensures r.Err? ==>
              r.error == ScenarioInvalid && exists f :: f in names && !Fits(RoundHalfAway(exact[f]), CONTEXT_LIMIT)
  {
    var shares: map<string, int> := map[];
    sum := 0;
    for i := 0 to |names|
      invariant Rounded(names, i, exact, shares) && sum == SumShares(names[..i], shares)
    {
      assert names[i] in Elements(names);
      var share := QuantizeStorage(exact[names[i]]);
      if share.Err? {
        assert names[i] in names && !Fits(RoundHalfAway(exact[names[i]]), CONTEXT_LIMIT);
        return Err(ScenarioInvalid), sum;
      }
      RoundedNext(names, i, exact, shares, share.value);
      shares := shares[names[i] := share.value];
      sum := sum + share.value;
    }
    assert names[..|names|] == names;
    r := Ok(shares);
  }

  /** The shares of the first i names are there, rounded and short enough. */
  ghost predicate Rounded(names: seq<string>, i: nat, exact: map<string, real>, shares: map<string, int>) {
    && i <= |names| && shares.Keys == Elements(names[..i])
    && (forall f :: f in names[..i] ==> f in shares)
    && (forall f :: f in shares ==>
        f in exact && shares[f] == RoundHalfAway(exact[f]) && Fits(shares[f], CONTEXT_LIMIT))
  }

  lemma RoundedNext(names: seq<string>, i: nat, exact: map<string, real>, shares: map<string, int>, n: int)
    requires Distinct(names) && i < |names| && Rounded(names, i, exact, shares) && names[i] in exact
    requires n == RoundHalfAway(exact[names[i]]) && Fits(n, CONTEXT_LIMIT)
    ensures Rounded(names, i + 1, exact, shares[names[i] := n])
    ensures SumShares(names[..i + 1], shares[names[i] := n]) == SumShares(names[..i], shares) + n
  {
    RoundedFrame(names, i, exact, shares, names[..i], names[..i + 1], names[i], n);
    SumSharesNext(names[..i], names[..i + 1], shares, names[i], n);
  }

  lemma RoundedFrame(names: seq<string>, i: nat, exact: map<string, real>, shares: map<string, int>,
                     before: seq<string>, more: seq<string>, x: string, n: int)
    requires Distinct(names) && i < |names| && Rounded(names, i, exact, shares)
    requires before == names[..i] && more == names[..i + 1] && x == names[i] && x in exact
    requires n == RoundHalfAway(exact[x]) && Fits(n, CONTEXT_LIMIT)
    ensures more == before + [x] && x !in before && (forall f :: f in before ==> f in shares)
    ensures Rounded(names, i + 1, exact, shares[x := n])
  {
    ElementsSnoc(before, x);
  }

  lemma ElementsSnoc(t: seq<string>, x: string)
    ensures Elements(t + [x]) == Elements(t) + {x}
  {
  }

  lemma SumSharesNext(before: seq<string>, more: seq<string>, shares: map<string, int>, x: string, n: int)
    requires more == before + [x] && x !in before && forall f :: f in before ==> f in shares
    ensures forall f :: f in more ==> f in shares[x := n]
    ensures SumShares(more, shares[x := n]) == SumShares(before, shares) + n
  {
    assert more[..|more| - 1] == before;
    SumSharesFrame(before, shares, x, n);
  }

  /** The shares and the baseline leave no choice of the split. */
  lemma SplitUnique(a: Split, b: Split, names: seq<string>, v: Game, total: Option<int>)
    requires Explains(a, names, v) && Explains(b, names, v) && a.total == b.total == total
    ensures a == b
  {
    forall f | f in a.shares ensures f in b.shares && a.shares[f] == b.shares[f] { assert f in Elements(names); }
    assert a.shares == b.shares;
  }

  /** The split of a total, once its shares are rounded. */
  function SplitWith(total: Option<int>, baseline: int, shares: map<string, int>, sum: int): Split {
    Split(total, baseline, shares, if total.Some? then Some(total.value - (baseline + sum)) else None)
  }

  lemma NotSplittable(names: seq<string>, v: Game, total: Option<int>, split: Split)
    requires Explains(split, names, v) && split.total == total
    ensures (exists other :: SplitOf(other, names, v, total)) <==> SplitFits(split, names)
  {
    if other :| SplitOf(other, names, v, total) {
      SplitUnique(other, split, names, v, total);
    }
    if SplitFits(split, names) { assert SplitOf(split, names, v, total); }
  }

  lemma LongShare(names: seq<string>, v: Game, total: Option<int>, f: string)
    requires f in names && !Fits(RoundHalfAway(OrderingAverage(names, v, f)), CONTEXT_LIMIT)
    ensures !exists split :: SplitOf(split, names, v, total)
  {
  }

  lemma LongBaseline(names: seq<string>, v: Game, total: Option<int>)
    requires !Fits(RoundHalfAway(v({})), CONTEXT_LIMIT)
    ensures !exists split :: SplitOf(split, names, v, total)
  {
  }

  method SplitTotal(names: seq<string>, value: ValueFunction, total: Option<int>, maxFactors: int)
    returns (r: Result<Split, Failure>)
    ensures r.Ok? <==> ValidFactors(names, maxFactors) && Splittable(names, value, total)
    ensures r.Ok? ==> SplitOf(r.value, names, Worth(value), total)
    ensures !ValidFactors(names, maxFactors) ==> r == Err(AttributionInvalid)
    ensures r.Err? && r.error.AttributionInvalid? ==>
              || !ValidFactors(names, maxFactors)
              || exists S :: S <= Elements(names) && value(S) == Err(AttributionInvalid)
  {
    var allocation := ShapleyAllocate(names, value, maxFactors);
    if allocation.Err? {
      return Err(allocation.error);
    }
    r := RoundSplit(names, value({}).value, allocation.value, total, Worth(value));
  }

  method RoundSplit(names: seq<string>, empty: real, exact: map<string, real>, total: Option<int>, ghost v: Game)
    returns (r: Result<Split, Failure>)
    requires Distinct(names) && exact.Keys == Elements(names) && empty == v({})
    requires forall f :: f in names ==> exact[f] == OrderingAverage(names, v, f)
    ensures r.Ok? <==> exists split :: SplitOf(split, names, v, total)
    ensures r.Ok? ==> SplitOf(r.value, names, v, total)
    ensures r.Err? ==> r.error == ScenarioInvalid
  {
    var baseline := QuantizeStorage(empty);
    if baseline.Err? {
      LongBaseline(names, v, total);
      return Err(ScenarioInvalid);
    }
    var shares, sum := RoundShares(names, exact);
    if shares.Err? {
      var f :| f in names && !Fits(RoundHalfAway(exact[f]), CONTEXT_LIMIT);
      LongShare(names, v, total, f);
      return Err(ScenarioInvalid);
    }
    var split := SplitWith(total, baseline.value, shares.value, sum);
    NotSplittable(names, v, total, split);
    if !Fits(baseline.value + sum, CONTEXT_LIMIT)
       || (total.Some? && (!Fits(total.value, CONTEXT_LIMIT) || !Fits(split.residual.value, CONTEXT_LIMIT))) {
      return Err(ScenarioInvalid);
    }
    return Ok(split);
  }

  lemma {:induction false} SumSharesFrame(names: seq<string>, shares: map<string, int>, f: string, n: int)
    requires f !in names && forall g :: g in names ==> g in shares
    ensures SumShares(names, shares[f := n]) == SumShares(names, shares)
  {
    if names != [] { SumSharesFrame(names[..|names| - 1], shares, f, n); }
  }

  function LineTotal(e: Evaluation, index: nat, currency: Currency): Option<int> {
    if index < |e.positions| && e.positions[index].Valid? then Some(Pnl(e.positions[index], currency)) else None
  }

  ghost predicate LinesExplained(lines: seq<Split>, names: seq<string>, values: seq<ValueFunction>,
                                 totals: seq<Option<int>>) {
    && |lines| == |values| == |totals|
    && forall i :: 0 <= i < |lines| ==> SplitOf(lines[i], names, Worth(values[i]), totals[i])
  }

  ghost predicate LinesSplittable(names: seq<string>, values: seq<ValueFunction>, totals: seq<Option<int>>) {
    |values| == |totals| && forall i :: 0 <= i < |values| ==> Splittable(names, values[i], totals[i])
  }

  method SplitLines(names: seq<string>, values: seq<ValueFunction>, totals: seq<Option<int>>, maxFactors: int)
    returns (r: Result<seq<Split>, Failure>)
    requires ValidFactors(names, maxFactors) && |values| == |totals|
    ensures r.Ok? <==> LinesSplittable(names, values, totals)
    ensures r.Ok? ==> LinesExplained(r.value, names, values, totals)
    ensures r.Err? && r.error.AttributionInvalid? ==>
              exists i, S :: 0 <= i < |values| && values[i](S) == Err(AttributionInvalid)
  {
    var lines: seq<Split> := [];
    for i := 0 to |values|
      invariant LinesUpTo(lines, i, names, values, totals)
    {
      var line := SplitTotal(names, values[i], totals[i], maxFactors);
      if line.Err? {
        return Err(line.error);
      }
      LinesNext(lines, i, line.value, names, values, totals);
      lines := lines + [line.value];
    }
    return Ok(lines);
  }

  ghost predicate LinesUpTo(lines: seq<Split>, n: nat, names: seq<string>, values: seq<ValueFunction>,
                            totals: seq<Option<int>>) {
    && |values| == |totals| && n == |lines| <= |values|
    && forall i :: 0 <= i < |lines| ==>
          SplitOf(lines[i], names, Worth(values[i]), totals[i]) && Splittable(names, values[i], totals[i])
  }

  lemma LinesNext(lines: seq<Split>, n: nat, line: Split, names: seq<string>, values: seq<ValueFunction>,
                  totals: seq<Option<int>>)
    requires LinesUpTo(lines, n, names, values, totals) && n < |values|
    requires SplitOf(line, names, Worth(values[n]), totals[n]) && Splittable(names, values[n], totals[n])
    ensures LinesUpTo(lines + [line], n + 1, names, values, totals)
  {
    var more := lines + [line];
    forall i | 0 <= i < |more|
      ensures SplitOf(more[i], names, Worth(values[i]), totals[i]) && Splittable(names, values[i], totals[i])
    {
      if i < n { assert more[i] == lines[i]; }
    }
  }

  /** What a report says about a portfolio value function and the values of its lines. */
  ghost predicate Reports(report: Report, portfolio: ValueFunction, total: Option<int>,
                          values: seq<ValueFunction>, totals: seq<Option<int>>, tolerance: int) {
    && Distinct(report.names)
    && AllValued(portfolio, report.names)
    && SplitOf(report.portfolio, report.names, Worth(portfolio), total)
    && LinesExplained(report.lines, report.names, values, totals)
    && (report.reconciles <==>
          report.portfolio.residual.Some? && -tolerance <= report.portfolio.residual.value <= tolerance)
  }

  method BuildReport(names: seq<string>, portfolio: ValueFunction, total: Option<int>, values: seq<ValueFunction>,
                     totals: seq<Option<int>>, state: State, tolerance: int, maxFactors: int)
    returns (r: Result<Report, Failure>)
    requires ValidFactors(names, maxFactors) && |values| == |totals|
    ensures r.Ok? <==> Splittable(names, portfolio, total) && LinesSplittable(names, values, totals)
    ensures r.Ok? ==> Reports(r.value, portfolio, total, values, totals, tolerance)
    ensures r.Ok? ==> r.value.names == names && r.value.state == state
    ensures r.Err? && r.error.AttributionInvalid? ==>
              || (exists S :: portfolio(S) == Err(AttributionInvalid))
              || (exists i, S :: 0 <= i < |values| && values[i](S) == Err(AttributionInvalid))
  {
    var whole := SplitTotal(names, portfolio, total, maxFactors);
    if whole.Err? {
      return Err(whole.error);
    }
    var lines := SplitLines(names, values, totals, maxFactors);
    if lines.Err? {
      return Err(lines.error);
    }
    var residual := whole.value.residual;
    var reconciles := residual.Some? && -tolerance <= residual.value <= tolerance;
    return Ok(Report(names, state, whole.value, lines.value, reconciles));
  }

  function PositionValues(payload: Payload, currency: Currency): seq<ValueFunction> {
    seq(|payload.positions|, i requires 0 <= i => PositionValue(payload, currency, i))
  }

  function LineTotals(payload: Payload, e: Evaluation, currency: Currency): seq<Option<int>> {
    seq(|payload.positions|, i requires 0 <= i => LineTotal(e, i, currency))
  }

  // ----- The order of the factors does not matter

  ghost function AsReals(shares: map<string, int>): string -> real {
    f => if f in shares then shares[f] as real else 0.0
  }

  lemma {:induction false} SumSharesIsElemSum(names: seq<string>, shares: map<string, int>)
    requires forall f :: f in names ==> f in shares
    ensures SumShares(names, shares) as real == ElemSum(names, AsReals(shares))
  {
    if names != [] {
      var n := |names| - 1;
      assert names == names[..n] + [names[n]];
      SumSharesIsElemSum(names[..n], shares);
      ElemSumSnoc(names[..n], names[n], AsReals(shares));
    }
  }

  lemma SumSharesReordered(names: seq<string>, other: seq<string>, shares: map<string, int>)
    requires Distinct(names) && Distinct(other) && Elements(names) == Elements(other) == shares.Keys
    ensures (forall f :: f in names ==> f in shares) && (forall f :: f in other ==> f in shares)
    ensures SumShares(names, shares) == SumShares(other, shares)
  {
    forall f | f in names ensures f in shares { assert f in Elements(names); }
    forall f | f in other ensures f in shares { assert f in Elements(other); }
    SumSharesIsElemSum(names, shares);
    SumSharesIsElemSum(other, shares);
    ElemSumReordered(names, other, AsReals(shares));
  }

  /** A split explains a total whichever way the factors are listed. */
  lemma SplitReordered(split: Split, names: seq<string>, other: seq<string>, v: Game, total: Option<int>)
    requires Distinct(names) && Distinct(other) && Elements(names) == Elements(other) && SplitOf(split, names, v, total)
    ensures SplitOf(split, other, v, total)
  {
    SumSharesReordered(names, other, split.shares);
    forall f | f in other ensures f in names && split.shares[f] == RoundHalfAway(OrderingAverage(other, v, f)) {
      assert f in Elements(names);
      ShareReordered(names, other, v, f);
    }
  }

  lemma SplittableReordered(names: seq<string>, other: seq<string>, value: ValueFunction, total: Option<int>)
    requires Distinct(names) && Distinct(other) && Elements(names) == Elements(other) && Splittable(names, value, total)
    ensures Splittable(other, value, total)
  {
    var split :| SplitOf(split, names, Worth(value), total);
    SplitReordered(split, names, other, Worth(value), total);
  }

  /** The portfolio and every line of a scenario can be split, in some listing of its factors and so in all of them. */
  ghost predicate Attributable(payload: Payload, e: Evaluation, currency: Currency) {
    exists names :: Distinct(names) && Elements(names) == FactorNames(payload.shocks) &&
      AttributableBy(names, payload, e, currency)
  }

  ghost predicate AttributableBy(names: seq<string>, payload: Payload, e: Evaluation, currency: Currency) {
    && Splittable(names, PortfolioValue(payload, currency), Portfolio(e, currency))
    && LinesSplittable(names, PositionValues(payload, currency), LineTotals(payload, e, currency))
  }

  lemma AttributableAnyway(names: seq<string>, payload: Payload, e: Evaluation, currency: Currency)
    requires Distinct(names) && Elements(names) == FactorNames(payload.shocks)
    ensures Attributable(payload, e, currency) <==> AttributableBy(names, payload, e, currency)
  {
    if Attributable(payload, e, currency) {
      var other :| Distinct(other) && Elements(other) == FactorNames(payload.shocks) &&
        AttributableBy(other, payload, e, currency);
      SplittableReordered(other, names, PortfolioValue(payload, currency), Portfolio(e, currency));
      var values, totals := PositionValues(payload, currency), LineTotals(payload, e, currency);
      forall i | 0 <= i < |values| ensures Splittable(names, values[i], totals[i]) {
        SplittableReordered(other, names, values[i], totals[i]);
      }
    }
  }

  /** The evaluation a report refers to: the one given, or that of the payload. */
  function ReferenceOf(payload: Payload, scenarioResult: Option<Evaluation>): Result<Evaluation, Failure> {
    if scenarioResult.Some? then Ok(scenarioResult.value) else Evaluate(payload)
  }

  /** The report of a scenario: the whole portfolio first, then line by line. */
  method AttributeScenario(payload: Payload, currency: Currency, tolerance: int, maxFactors: int,
                           scenarioResult: Option<Evaluation>)
    returns (r: Result<Report, Failure>)
    ensures r == Err(AttributionInvalid) <==>
              tolerance < 0 || |FactorNames(payload.shocks)| > 8 || |FactorNames(payload.shocks)| > maxFactors
    ensures r.Ok? <==>
              && tolerance >= 0 && |FactorNames(payload.shocks)| <= 8 && |FactorNames(payload.shocks)| <= maxFactors
              && Referable(payload, currency, scenarioResult)
    ensures r.Ok? ==> ReferenceOf(payload, scenarioResult).Ok?
    ensures r.Ok? ==>
              var e := ReferenceOf(payload, scenarioResult).value;
              && Reports(r.value, PortfolioValue(payload, currency), Portfolio(e, currency),
                         PositionValues(payload, currency), LineTotals(payload, e, currency), tolerance)
              && Elements(r.value.names) == FactorNames(payload.shocks)
              && r.value.state == e.state
  {
    if tolerance < 0 {
      return Err(AttributionInvalid);
    }
    var names := ListFactors(FactorNames(payload.shocks));
    ElementsSize(names);
    if |names| > MAX_SUPPORTED_FACTORS || |names| > maxFactors {
      return Err(AttributionInvalid);
    }
    FactorNamesNonEmpty(payload.shocks, names);
    var evaluated := Reference(payload, scenarioResult);
    if evaluated.Err? {
      return Err(evaluated.error);
    }
    var e := evaluated.value;
    AttributableAnyway(names, payload, e, currency);
    r := BuildReport(names, PortfolioValue(payload, currency), Portfolio(e, currency),
                     PositionValues(payload, currency), LineTotals(payload, e, currency),
                     e.state, tolerance, maxFactors);
    PortfolioErrors(payload, currency);
    PositionErrors(payload, currency);
  }

  ghost predicate Referable(payload: Payload, currency: Currency, scenarioResult: Option<Evaluation>) {
    var e := ReferenceOf(payload, scenarioResult);
    e.Ok? && Attributable(payload, e.value, currency)
  }

  method Reference(payload: Payload, scenarioResult: Option<Evaluation>) returns (r: Result<Evaluation, Failure>)
    ensures r == ReferenceOf(payload, scenarioResult)
    ensures r.Err? ==> r.error == ScenarioInvalid
  {
    EvaluateErrors(payload);
    if scenarioResult.Some? {
      return Ok(scenarioResult.value);
    }
    r := EvaluateScenario(payload);
  }

  lemma FactorNamesNonEmpty(shocks: Shocks, names: seq<string>)
    requires Elements(names) == FactorNames(shocks)
    ensures forall i :: 0 <= i < |names| ==> names[i] != ""
  {
    forall i | 0 <= i < |names| ensures names[i] != "" { assert names[i] in Elements(names); }
  }

  lemma EvaluateErrors(payload: Payload)
    ensures Evaluate(payload).Err? ==> Evaluate(payload).error == ScenarioInvalid
  {
  }

  lemma ValueErrors(payload: Payload, currency: Currency, i: nat)
    ensures PortfolioAt(payload, currency) != Err(AttributionInvalid)
    ensures PositionAt(payload, currency, i) != Err(AttributionInvalid)
  {
    EvaluateErrors(payload);
  }

  lemma PortfolioErrors(payload: Payload, currency: Currency)
    ensures forall S :: PortfolioValue(payload, currency)(S) != Err(AttributionInvalid)
  {
    forall S ensures PortfolioAt(PayloadFor(payload, S), currency) != Err(AttributionInvalid) {
      ValueErrors(PayloadFor(payload, S), currency, 0);
    }
  }

  lemma PositionErrors(payload: Payload, currency: Currency)
    ensures forall i, S :: 0 <= i < |payload.positions| ==>
              PositionValues(payload, currency)[i](S) != Err(AttributionInvalid)
  {
    forall i, S | 0 <= i < |payload.positions|
      ensures PositionAt(PayloadFor(payload, S), currency, i) != Err(AttributionInvalid)
    {
      ValueErrors(PayloadFor(payload, S), currency, i);
    }
  }
}
