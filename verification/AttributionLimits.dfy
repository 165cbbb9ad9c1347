/**
 * Which valid scenarios have an attribution report. Amounts are stored with up to 38 digits but attributed in a context
 * of 28, so the report of a valid scenario can fail; these are the exact guard and conditions on the amounts alone.
 */
module AttributionLimits {
  import opened Results
  import opened Decimals
  import opened Subsets
  import opened Shapley
  import opened Allocation
  import opened Scenario
  import opened Attribution
  import opened AttributionReport
  import opened AttributionLaws

  // ----- The guard of one split

  ghost function RoundedSum(names: seq<string>, h: string -> real): int {
    if names == [] then 0 else RoundedSum(names[..|names| - 1], h) + RoundHalfAway(h(names[|names| - 1]))
  }

  /** No rounded share is too long, nor is their sum. */
  ghost predicate SharesFit(names: seq<string>, v: Game) {
    && (forall f :: f in names ==> Fits(RoundHalfAway(OrderingAverage(names, v, f)), CONTEXT_LIMIT))
    && Fits(RoundedSum(names, Averages(names, v)), CONTEXT_LIMIT)
  }

  ghost predicate TotalFits(total: Option<int>) {
    total.Some? ==> Fits(total.value, CONTEXT_LIMIT)
  }

  lemma {:induction false} SumSharesRounded(names: seq<string>, h: string -> real, shares: map<string, int>)
    requires forall f :: f in names ==> f in shares && shares[f] == RoundHalfAway(h(f))
    ensures SumShares(names, shares) == RoundedSum(names, h)
  {
    if names != [] { SumSharesRounded(names[..|names| - 1], h, shares); }
  }

  ghost function RoundedShares(names: seq<string>, v: Game): map<string, int> {
    map f | f in Elements(names) :: RoundHalfAway(OrderingAverage(names, v, f))
  }

  /** The only split there can be, for a game that starts at zero. */
  ghost function SplitFor(names: seq<string>, v: Game, total: Option<int>): Split {
    SplitWith(total, 0, RoundedShares(names, v), RoundedSum(names, Averages(names, v)))
  }

  lemma SplitForExplains(names: seq<string>, v: Game, total: Option<int>)
    requires v({}) == 0.0
    ensures Explains(SplitFor(names, v, total), names, v) && SplitFor(names, v, total).total == total
    ensures SumShares(names, SplitFor(names, v, total).shares) == RoundedSum(names, Averages(names, v))
  {
    var shares := RoundedShares(names, v);
    forall f | f in names
      ensures f in shares && shares[f] == RoundHalfAway(Averages(names, v)(f))
    {
      assert f in Elements(names);
    }
    SumSharesRounded(names, Averages(names, v), shares);
    RoundInteger(0);
  }

  /** A game that starts at zero and ends at its total can be split exactly when its shares and its total fit. */
  lemma SplitExactly(names: seq<string>, v: Game, total: Option<int>)
    requires Distinct(names) && |names| <= MAX_SUPPORTED_FACTORS && v({}) == 0.0
    requires total.Some? ==> total.value as real == v(Elements(names))
    ensures (exists split :: SplitOf(split, names, v, total)) <==> SharesFit(names, v) && TotalFits(total)
  {
    var split := SplitFor(names, v, total);
    SplitForExplains(names, v, total);
    NotSplittable(names, v, total, split);
    if total.Some? { ResidualBound(split, names, v); }
    ShareByShare(names, v);
  }

  lemma ShareByShare(names: seq<string>, v: Game)
    ensures RoundedShares(names, v).Keys == Elements(names)
    ensures forall f :: f in names ==>
              f in RoundedShares(names, v) && RoundedShares(names, v)[f] == RoundHalfAway(OrderingAverage(names, v, f))
  {
    forall f | f in names ensures f in RoundedShares(names, v) { assert f in Elements(names); }
  }

  // ----- The guard of a report

  /** Every subset of the shocks evaluates. */
  ghost predicate AllEvaluate(payload: Payload) {
    forall S :: S <= FactorNames(payload.shocks) ==> Evaluate(PayloadFor(payload, S)).Ok?
  }

  ghost predicate LineFits(payload: Payload, currency: Currency, names: seq<string>, i: nat)
    requires i < |payload.positions|
  {
    && SharesFit(names, Worth(PositionValue(payload, currency, i)))
    && PnlFits(PositionResult(payload.positions[i], payload), currency)
  }

  predicate PnlFits(outcome: Outcome, currency: Currency) {
    outcome.Valid? ==> Fits(Pnl(outcome, currency), CONTEXT_LIMIT)
  }

  lemma ValuedExactly(q: Payload, currency: Currency, i: nat)
    ensures PortfolioAt(q, currency).Ok? <==> Evaluate(q).Ok?
    ensures PositionAt(q, currency, i).Ok? <==> Evaluate(q).Ok?
  {
  }

  lemma AllValuedExactly(payload: Payload, currency: Currency, names: seq<string>, i: nat)
    requires Elements(names) == FactorNames(payload.shocks)
    ensures AllValued(PortfolioValue(payload, currency), names) <==> AllEvaluate(payload)
    ensures AllValued(PositionValue(payload, currency, i), names) <==> AllEvaluate(payload)
  {
    forall S ensures PortfolioValue(payload, currency)(S).Ok? <==> Evaluate(PayloadFor(payload, S)).Ok? {
      ValuedExactly(PayloadFor(payload, S), currency, i);
    }
    forall S ensures PositionValue(payload, currency, i)(S).Ok? <==> Evaluate(PayloadFor(payload, S)).Ok? {
      ValuedExactly(PayloadFor(payload, S), currency, i);
    }
  }

  lemma PortfolioSplitExactly(payload: Payload, currency: Currency, names: seq<string>)
    requires Evaluate(payload).Ok? && Distinct(names) && |names| <= MAX_SUPPORTED_FACTORS
    requires Elements(names) == FactorNames(payload.shocks) && AllEvaluate(payload)
    ensures var v := PortfolioValue(payload, currency);
            Splittable(names, v, Portfolio(Evaluate(payload).value, currency)) <==> SharesFit(names, Worth(v))
  {
    AllValuedExactly(payload, currency, names, 0);
    EndpointsOfPortfolio(payload, currency, names);
    TotalFitsAlready(payload, currency);
    SplitExactly(names, Worth(PortfolioValue(payload, currency)), Portfolio(Evaluate(payload).value, currency));
  }

  lemma TotalFitsAlready(payload: Payload, currency: Currency)
    requires Evaluate(payload).Ok?
    ensures TotalFits(Portfolio(Evaluate(payload).value, currency))
  {
  }

  lemma LineSplitExactly(payload: Payload, currency: Currency, names: seq<string>, i: nat)
    requires Evaluate(payload).Ok? && Distinct(names) && |names| <= MAX_SUPPORTED_FACTORS && i < |payload.positions|
    requires Elements(names) == FactorNames(payload.shocks) && AllEvaluate(payload)
    ensures Splittable(names, PositionValue(payload, currency, i), LineTotal(Evaluate(payload).value, i, currency)) <==>
              LineFits(payload, currency, names, i)
  {
    AllValuedExactly(payload, currency, names, i);
    EndpointsOfPosition(payload, currency, names, i);
    LineTotalIs(payload, currency, i);
    SplitExactly(names, Worth(PositionValue(payload, currency, i)), LineTotal(Evaluate(payload).value, i, currency));
  }

  ghost predicate LinesFit(payload: Payload, currency: Currency, names: seq<string>) {
    forall i :: 0 <= i < |payload.positions| ==> LineFits(payload, currency, names, i)
  }

  lemma LinesSplitExactly(payload: Payload, currency: Currency, names: seq<string>)
    requires Evaluate(payload).Ok? && Distinct(names) && |names| <= MAX_SUPPORTED_FACTORS
    requires Elements(names) == FactorNames(payload.shocks) && AllEvaluate(payload)
    ensures LinesSplittable(names, PositionValues(payload, currency),
                            LineTotals(payload, Evaluate(payload).value, currency)) <==>
              LinesFit(payload, currency, names)
  {
    var e := Evaluate(payload).value;
    forall i | 0 <= i < |payload.positions|
      ensures Splittable(names, PositionValues(payload, currency)[i], LineTotals(payload, e, currency)[i]) <==>
                LineFits(payload, currency, names, i)
    {
      LineSplitExactly(payload, currency, names, i);
    }
  }

  /**
   * A scenario has a report exactly when every subset of its shocks evaluates, no rounded share or sum of shares of the
   * portfolio and its lines is too long, and no line's P&L is: the other numbers of the report always fit.
   */
  lemma AttributableExactly(payload: Payload, currency: Currency, names: seq<string>)
    requires Evaluate(payload).Ok? && Distinct(names) && |names| <= MAX_SUPPORTED_FACTORS
    requires Elements(names) == FactorNames(payload.shocks)
    ensures Attributable(payload, Evaluate(payload).value, currency) <==>
              && AllEvaluate(payload) && SharesFit(names, Worth(PortfolioValue(payload, currency)))
              && LinesFit(payload, currency, names)
  {
    AttributableAnyway(names, payload, Evaluate(payload).value, currency);
    AllValuedExactly(payload, currency, names, 0);
    if AllEvaluate(payload) {
      PortfolioSplitExactly(payload, currency, names);
      LinesSplitExactly(payload, currency, names);
    }
  }

  // ----- Conditions on the amounts

  /** In every subset of the shocks the portfolio and each line gain or lose at most m. */
  ghost predicate Moderate(payload: Payload, currency: Currency, m: int) {
    && (forall S :: S <= FactorNames(payload.shocks) ==> ModerateTotal(PayloadFor(payload, S), currency, m))
    && (forall S, i :: S <= FactorNames(payload.shocks) && 0 <= i < |payload.positions| ==>
          -m <= Pnl(PositionResult(payload.positions[i], PayloadFor(payload, S)), currency) <= m)
  }

  ghost predicate ModerateTotal(payload: Payload, currency: Currency, m: int) {
    -m <= TotalPnl(Outcomes(payload.positions, payload), currency) <= m
  }

  lemma ShareOfModerate(names: seq<string>, v: Game, f: string, m: int)
    requires Distinct(names) && f in names && m >= 0 && Bounded(v, Elements(names), m as real)
    ensures -2 * m <= RoundHalfAway(OrderingAverage(names, v, f)) <= 2 * m
  {
    ShareBounded(names, v, f, m as real);
    RoundMonotone(OrderingAverage(names, v, f), (2 * m) as real);
    RoundMonotone((-2 * m) as real, OrderingAverage(names, v, f));
    RoundInteger(2 * m);
    RoundInteger(-2 * m);
  }

  lemma SumOfModerate(names: seq<string>, v: Game, m: int)
    requires Distinct(names) && v({}) == 0.0 && Bounded(v, Elements(names), m as real)
    ensures -2 * m - |names| <= 2 * RoundedSum(names, Averages(names, v)) <= 2 * m + |names|
  {
    var shares := RoundedShares(names, v);
    ShareByShare(names, v);
    SumSharesRounded(names, Averages(names, v), shares);
    RoundedSumBound(names, Averages(names, v), shares);
    Efficiency(names, v);
    assert Elements(names) <= Elements(names);
  }

  lemma ModerateFits(names: seq<string>, v: Game, m: int)
    requires Distinct(names) && |names| <= MAX_SUPPORTED_FACTORS && v({}) == 0.0
    requires 0 <= m && 2 * m + MAX_SUPPORTED_FACTORS < CONTEXT_LIMIT && Bounded(v, Elements(names), m as real)
    ensures SharesFit(names, v)
  {
    SumOfModerate(names, v, m);
    forall f | f in names ensures Fits(RoundHalfAway(OrderingAverage(names, v, f)), CONTEXT_LIMIT) {
      ShareOfModerate(names, v, f, m);
    }
  }

  lemma ModeratePortfolio(payload: Payload, currency: Currency, names: seq<string>, m: int)
    requires AllEvaluate(payload) && Moderate(payload, currency, m) && Elements(names) == FactorNames(payload.shocks)
    ensures Bounded(Worth(PortfolioValue(payload, currency)), Elements(names), m as real)
  {
    forall S | S <= Elements(names) ensures -(m as real) <= Worth(PortfolioValue(payload, currency))(S) <= m as real {
      assert ModerateTotal(PayloadFor(payload, S), currency, m);
      ValueIsSumOfLines(PayloadFor(payload, S), currency);
    }
  }

  lemma ModerateLine(payload: Payload, currency: Currency, names: seq<string>, i: nat, m: int)
    requires AllEvaluate(payload) && Moderate(payload, currency, m) && Elements(names) == FactorNames(payload.shocks)
    requires i < |payload.positions|
    ensures Bounded(Worth(PositionValue(payload, currency, i)), Elements(names), m as real)
  {
    forall S | S <= Elements(names) ensures -(m as real) <= Worth(PositionValue(payload, currency, i))(S) <= m as real {
      PositionIsItsLine(PayloadFor(payload, S), currency, i);
    }
  }

  /**
   * Moderate amounts are always attributed: a scenario whose subsets all evaluate, with gains and losses of less than
   * half of 10^28 units, that is five thousand million, has a report.
   */
  lemma ModerateIsAttributable(payload: Payload, currency: Currency, names: seq<string>, m: int)
    requires Distinct(names) && |names| <= MAX_SUPPORTED_FACTORS && Elements(names) == FactorNames(payload.shocks)
    requires Evaluate(payload).Ok? && AllEvaluate(payload) && Moderate(payload, currency, m)
    requires 0 <= m && 2 * m + MAX_SUPPORTED_FACTORS < CONTEXT_LIMIT
    ensures Attributable(payload, Evaluate(payload).value, currency)
  {
    AttributableExactly(payload, currency, names);
    ModerateTotalFits(payload, currency, names, m);
    forall i | 0 <= i < |payload.positions| ensures LineFits(payload, currency, names, i) {
      ModerateLineFits(payload, currency, names, i, m);
    }
  }

  lemma ModerateTotalFits(payload: Payload, currency: Currency, names: seq<string>, m: int)
    requires Distinct(names) && |names| <= MAX_SUPPORTED_FACTORS && Elements(names) == FactorNames(payload.shocks)
    requires Evaluate(payload).Ok? && AllEvaluate(payload) && Moderate(payload, currency, m)
    requires 0 <= m && 2 * m + MAX_SUPPORTED_FACTORS < CONTEXT_LIMIT
    ensures SharesFit(names, Worth(PortfolioValue(payload, currency)))
  {
    AllValuedExactly(payload, currency, names, 0);
    EndpointsOfPortfolio(payload, currency, names);
    ModeratePortfolio(payload, currency, names, m);
    ModerateFits(names, Worth(PortfolioValue(payload, currency)), m);
  }

  lemma ModerateLineFits(payload: Payload, currency: Currency, names: seq<string>, i: nat, m: int)
    requires Distinct(names) && |names| <= MAX_SUPPORTED_FACTORS && Elements(names) == FactorNames(payload.shocks)
    requires Evaluate(payload).Ok? && AllEvaluate(payload) && Moderate(payload, currency, m) && i < |payload.positions|
    requires 0 <= m && 2 * m + MAX_SUPPORTED_FACTORS < CONTEXT_LIMIT
    ensures LineFits(payload, currency, names, i)
  {
    ModerateLineShares(payload, currency, names, i, m);
    ModeratePnl(payload, currency, i, m, FactorNames(payload.shocks));
  }

  lemma ModerateLineShares(payload: Payload, currency: Currency, names: seq<string>, i: nat, m: int)
    requires Distinct(names) && |names| <= MAX_SUPPORTED_FACTORS && Elements(names) == FactorNames(payload.shocks)
    requires Evaluate(payload).Ok? && AllEvaluate(payload) && Moderate(payload, currency, m) && i < |payload.positions|
    requires 0 <= m && 2 * m + MAX_SUPPORTED_FACTORS < CONTEXT_LIMIT
    ensures SharesFit(names, Worth(PositionValue(payload, currency, i)))
  {
    AllValuedExactly(payload, currency, names, i);
    EndpointsOfPosition(payload, currency, names, i);
    ModerateLine(payload, currency, names, i, m);
    ModerateFits(names, Worth(PositionValue(payload, currency, i)), m);
  }

  lemma ModeratePnl(payload: Payload, currency: Currency, i: nat, m: int, all: set<string>)
    requires Moderate(payload, currency, m) && i < |payload.positions| && all == FactorNames(payload.shocks)
    ensures -m <= Pnl(PositionResult(payload.positions[i], payload), currency) <= m
  {
    FullSubsetIsPayload(payload);
    assert all <= FactorNames(payload.shocks) && PayloadFor(payload, all) == payload;
  }

  /** A report needs every subset of the shocks to evaluate, and the P&L of every valid line to fit. */
  lemma AttributableNeeds(payload: Payload, currency: Currency)
    requires Evaluate(payload).Ok? && Attributable(payload, Evaluate(payload).value, currency)
    ensures AllEvaluate(payload)
    ensures forall i :: 0 <= i < |payload.positions| ==>
              PnlFits(PositionResult(payload.positions[i], payload), currency)
  {
    var e := Evaluate(payload).value;
    var names :| Distinct(names) && Elements(names) == FactorNames(payload.shocks) &&
      AttributableBy(names, payload, e, currency);
    AllValuedExactly(payload, currency, names, 0);
    forall i | 0 <= i < |payload.positions| ensures PnlFits(PositionResult(payload.positions[i], payload), currency) {
      LineTotalIs(payload, currency, i);
      assert Splittable(names, PositionValues(payload, currency)[i], LineTotals(payload, e, currency)[i]);
    }
  }

  lemma LongLineNotAttributable(payload: Payload, currency: Currency, i: nat)
    requires Evaluate(payload).Ok? && i < |payload.positions|
    requires !PnlFits(PositionResult(payload.positions[i], payload), currency)
    ensures !Attributable(payload, Evaluate(payload).value, currency)
  {
    if Attributable(payload, Evaluate(payload).value, currency) { AttributableNeeds(payload, currency); }
  }

  // ----- A valid scenario without a report

  /** A position of equity, priced in TRY, worth this much there and a hundredth of it in USD. */
  function Equity(id: string, amount: real): Position {
    Position(id, Some("spot"), Class("equity"), Number(amount), Number(amount / 100.0), Some("TRY"), Absent, Absent,
             PathAbsent, PathAbsent)
  }

  const DOUBLED := Shocks(map["equity" := 1.0], map[], map[], map[], None, None)
  const LONG := Equity("long", 100000000000.0)
  const SHORT := Equity("short", -100000000000.0)

  /** Two opposite positions of 10^11 whose prices double. */
  const HEDGED :=
    Payload(true, DOUBLED, Some(map[]), Absent, BlockUncovered, PreMetrics(false, MetricsSound), [LONG, SHORT])

  lemma UnshockedPaths()
    ensures FxMultiplier([], map[]) == Ok(1.0)
    ensures FxMultiplier([FxEdge("USD/TRY", "inverse")], map[]) == Ok(1.0)
  {
    var edge := FxEdge("USD/TRY", "inverse");
    assert [edge][..0] == [] && RateMultiplier(map[], "USD/TRY") == 1.0;
    assert EdgeMultiplier(edge, map[]) == Ok(1.0);
  }

  lemma DoubledPrice(p: Position, amount: real)
    requires p == Equity(p.instrumentId, amount)
    ensures YieldReturn(p, HEDGED) == Ok(0.0) && PriceMultiplier(p, HEDGED, 1.0) == Ok((2.0, 0.0))
  {
    assert "spot" in SPOT_TYPES && BOND != "spot" by { assert BOND[0] != "spot"[0]; }
  }

  lemma QuantizedInteger(units: int)
    requires Fits(units, STORAGE_LIMIT)
    ensures Quantize(units as real) == Ok(units)
  {
    RoundInteger(units);
  }

  lemma DoubledAmount(units: int)
    requires Fits(2 * units, STORAGE_LIMIT)
    ensures Quantize(Times(Times(units as real, 2.0), 1.0)) == Ok(2 * units)
  {
    QuantizedInteger(2 * units);
  }

  lemma DoubledStored(units: int, cents: int)
    requires Fits(2 * units, STORAGE_LIMIT) && Fits(2 * cents, STORAGE_LIMIT)
    ensures var r := Stored(units, cents, (2.0, 0.0), 1.0, 1.0, 1.0);
            r.Ok? && r.value.Valid? && r.value.pnlTry == units && r.value.pnlUsd == cents
  {
    DoubledAmount(units);
    DoubledAmount(cents);
    QuantizedInteger(1000000000000000000);
    QuantizedInteger(0);
  }

  lemma EquityFields(p: Position, amount: real, units: int, cents: int)
    requires p == Equity(p.instrumentId, amount) && Fits(2 * units, STORAGE_LIMIT) && Fits(2 * cents, STORAGE_LIMIT)
    requires amount * SCALE == units as real && amount / 100.0 * SCALE == cents as real
    ensures QuantizeField(p.valueTry) == Ok(units) && QuantizeField(p.valueUsd) == Ok(cents)
  {
    QuantizedInteger(units);
    QuantizedInteger(cents);
  }

  lemma DoubledValue(p: Position, amount: real, units: int, cents: int)
    requires p == Equity(p.instrumentId, amount) && QuantizeField(p.valueTry) == Ok(units)
    requires QuantizeField(p.valueUsd) == Ok(cents)
    ensures Revalue(p, HEDGED, 1.0) == Stored(units, cents, (2.0, 0.0), 1.0, 1.0, 1.0)
  {
    UnshockedPaths();
    DoubledPrice(p, amount);
  }

  lemma DoubledOutcome(p: Position, amount: real, units: int, cents: int)
    requires p == Equity(p.instrumentId, amount) && Fits(2 * units, STORAGE_LIMIT) && Fits(2 * cents, STORAGE_LIMIT)
    requires amount * SCALE == units as real && amount / 100.0 * SCALE == cents as real && p.instrumentId != ""
    ensures var o := PositionResult(p, HEDGED);
            o.Valid? && o.pnlTry == units && o.pnlUsd == cents
  {
    EquityFields(p, amount, units, cents);
    DoubledValue(p, amount, units, cents);
    DoubledStored(units, cents);
    assert PriceShock(DOUBLED, Class("equity")) == Some(1.0);
  }

  /**
   * What the long position gains and the short one loses in TRY: one digit more than the attribution's context holds.
   */
  const LINE_PNL := 100000000000000000000000000000
  const CENTS := 1000000000000000000000000000

  lemma TwoLines(e: seq<Outcome>, currency: Currency)
    requires |e| == 2
    ensures TotalPnl(e, currency) == Pnl(e[0], currency) + Pnl(e[1], currency)
  {
    var one := e[..1];
    assert |one| == 1 && one[..0] == [];
    assert TotalPnl(one, currency) == Pnl(one[0], currency);
  }

  lemma HedgedOutcomes(e: seq<Outcome>)
    requires e == Outcomes(HEDGED.positions, HEDGED)
    ensures |e| == 2 && e[0].Valid? && e[1].Valid? && Pnl(e[0], TRY) == LINE_PNL
    ensures TotalPnl(e, TRY) == 0 && TotalPnl(e, USD) == 0
  {
    DoubledOutcome(LONG, 100000000000.0, LINE_PNL, CENTS);
    DoubledOutcome(SHORT, -100000000000.0, -LINE_PNL, -CENTS);
    TwoLines(e, TRY);
    TwoLines(e, USD);
  }

  lemma HedgedEvaluates()
    ensures Evaluate(HEDGED) == Ok(Evaluation(StateValid, Outcomes(HEDGED.positions, HEDGED), Some(0), Some(0)))
  {
    var e := Outcomes(HEDGED.positions, HEDGED);
    HedgedOutcomes(e);
    assert NonBlank("equity") by { assert "equity"[0] == 'e'; }
    assert ValidShocks(DOUBLED);
    assert ScenarioState(HEDGED, e, MetricsSound) == StateValid;
  }

  /**
   * The scenario is valid and its total is nothing, but each line gains or loses 10^29 units: there is no report and
   * no result.
   */
  lemma HedgedHasNoReport()
    ensures Evaluate(HEDGED).Ok? && Evaluate(HEDGED).value.state.StateValid?
    ensures Evaluate(HEDGED).value.portfolioTry == Some(0)
    ensures !Attributable(HEDGED, Evaluate(HEDGED).value, TRY) && !Answerable(HEDGED)
  {
    HedgedEvaluates();
    HedgedOutcomes(Outcomes(HEDGED.positions, HEDGED));
    OneFactor();
    LongLineNotAttributable(HEDGED, TRY, 0);
  }

  lemma OneFactor()
    ensures |FactorNames(DOUBLED)| <= 8
  {
    var all := FactorNames(DOUBLED);
    forall f | f in all ensures f == AssetFactor("equity") {
      assert f !in set k | k in DOUBLED.yieldShifts :: YieldFactor(k);
      assert f !in set k | k in DOUBLED.fxChanges :: FxFactor(k);
      assert f !in set k | k in DOUBLED.volatilityMultipliers :: VolatilityFactor(k);
    }
    SubsetSize(all, {AssetFactor("equity")});
  }
}
