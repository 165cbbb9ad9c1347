/** What attribution reports of the scenario engine satisfy, for every payload. */
module AttributionLaws {
  import opened Results
  import opened Decimals
  import opened Subsets
  import opened Shapley
  import opened Allocation
  import opened Scenario
  import opened Attribution
  import opened AttributionReport

  /** The exact share of factor f in a value function, before rounding. */
  ghost function ExactShare(names: seq<string>, value: ValueFunction, f: string): real {
    OrderingAverage(names, Worth(value), f)
  }

  lemma SameGameSameShare(names: seq<string>, v: Game, u: Game, f: string)
    requires Distinct(names) && f in names
    requires forall S :: S <= Elements(names) ==> v(S) == u(S)
    ensures OrderingAverage(names, v, f) == OrderingAverage(names, u, f)
  {
    var zero: Game := S => 0.0;
    Additivity(names, v, u, zero, f);
    NullPlayer(names, zero, f);
  }

  lemma ValuedIsEvaluated(payload: Payload, currency: Currency, names: seq<string>, S: set<string>)
    requires AllValued(PortfolioValue(payload, currency), names) && S <= Elements(names)
    ensures Evaluate(PayloadFor(payload, S)).Ok?
  {
    assert PortfolioValue(payload, currency)(S).Ok?;
    assert PortfolioAt(PayloadFor(payload, S), currency).Ok?;
  }

  // ----- Linearity

  lemma PortfolioShare(payload: Payload, currency: Currency, names: seq<string>, f: string)
    requires Distinct(names) && f in names && AllValued(PortfolioValue(payload, currency), names)
    ensures ExactShare(names, PortfolioValue(payload, currency), f) ==
            LinesShare(payload, currency, names, f, |payload.positions|)
  {
    var v, u := Worth(PortfolioValue(payload, currency)), LinesGame(payload, currency, |payload.positions|);
    forall S | S <= Elements(names) ensures v(S) == u(S) {
      ValuedIsEvaluated(payload, currency, names, S);
      PortfolioIsLines(payload, currency, S);
    }
    SameGameSameShare(names, v, u, f);
  }

  ghost function PositionShareOf(payload: Payload, currency: Currency, names: seq<string>, f: string, i: nat): real {
    ExactShare(names, PositionValue(payload, currency, i), f)
  }

  lemma PositionShare(payload: Payload, currency: Currency, names: seq<string>, f: string, i: nat)
    requires Distinct(names) && f in names && AllValued(PortfolioValue(payload, currency), names)
    requires i < |payload.positions|
    ensures PositionShareOf(payload, currency, names, f, i) == LineShare(payload, currency, names, f, i)
  {
    var v, u := Worth(PositionValue(payload, currency, i)), LineGame(payload, currency, i);
    forall S | S <= Elements(names) ensures v(S) == u(S) {
      ValuedIsEvaluated(payload, currency, names, S);
      PositionIsLine(payload, currency, i, S);
    }
    SameGameSameShare(names, v, u, f);
  }

  /** Linearity: before rounding, a factor's portfolio share is the sum of its shares in the positions. */
  lemma PortfolioShareIsSumOfPositionShares(payload: Payload, currency: Currency, names: seq<string>, f: string,
                                            shares: seq<real>)
    requires Distinct(names) && f in names && AllValued(PortfolioValue(payload, currency), names)
    requires |shares| == |payload.positions|
    requires forall i :: 0 <= i < |shares| ==> shares[i] == PositionShareOf(payload, currency, names, f, i)
    ensures ExactShare(names, PortfolioValue(payload, currency), f) == SumAll(shares)
  {
    forall i | 0 <= i < |shares| ensures shares[i] == LineShare(payload, currency, names, f, i) {
      PositionShare(payload, currency, names, f, i);
    }
    PortfolioShare(payload, currency, names, f);
    LinesShareSplits(payload, currency, names, f, shares);
  }

  // ----- Null players

  lemma MetricFactorKeepsOutcomes(positions: seq<Position>, payload: Payload, f: string, S: set<string>)
    requires IsMetricFactor(payload.shocks, f)
    ensures Outcomes(positions, PayloadFor(payload, S + {f})) == Outcomes(positions, PayloadFor(payload, S))
  {
    var a, b := PayloadFor(payload, S + {f}), PayloadFor(payload, S);
    MetricFactorKeepsPrices(payload.shocks, f, S);
    forall i | 0 <= i < |positions| ensures PositionResult(positions[i], a) == PositionResult(positions[i], b) {
      SamePricesSameOutcome(positions[i], a, b);
    }
  }

  lemma MetricFactorKeepsValue(payload: Payload, currency: Currency, names: seq<string>, f: string, S: set<string>,
                               T: set<string>)
    requires S <= Elements(names) && T == S + {f} && f in names && IsMetricFactor(payload.shocks, f)
    requires AllValued(PortfolioValue(payload, currency), names)
    ensures Worth(PortfolioValue(payload, currency))(T) == Worth(PortfolioValue(payload, currency))(S)
  {
    assert T <= Elements(names) by { assert f in Elements(names); }
    ValuedIsEvaluated(payload, currency, names, S);
    ValuedIsEvaluated(payload, currency, names, T);
    PortfolioIsLines(payload, currency, S);
    PortfolioIsLines(payload, currency, T);
    MetricFactorKeepsOutcomes(payload.positions[..|payload.positions|], payload, f, S);
  }

  lemma MetricFactorMovesNoTotal(payload: Payload, currency: Currency, names: seq<string>, f: string)
    requires Distinct(names) && f in names && IsMetricFactor(payload.shocks, f)
    requires AllValued(PortfolioValue(payload, currency), names)
    ensures ExactShare(names, PortfolioValue(payload, currency), f) == 0.0
  {
    var v := Worth(PortfolioValue(payload, currency));
    forall S | S <= Elements(names) ensures v(S + {f}) == v(S) {
      MetricFactorKeepsValue(payload, currency, names, f, S, S + {f});
    }
    NullPlayer(names, v, f);
  }

  lemma MetricFactorKeepsLine(payload: Payload, currency: Currency, f: string, i: nat, S: set<string>)
    requires IsMetricFactor(payload.shocks, f) && i < |payload.positions|
    ensures LinePnl(payload, currency, i, S + {f}) == LinePnl(payload, currency, i, S)
  {
    MetricFactorKeepsPrices(payload.shocks, f, S);
    SamePricesSameOutcome(payload.positions[i], PayloadFor(payload, S + {f}), PayloadFor(payload, S));
  }

  lemma MetricFactorMovesNoLine(payload: Payload, currency: Currency, names: seq<string>, f: string, i: nat)
    requires Distinct(names) && f in names && IsMetricFactor(payload.shocks, f) && i < |payload.positions|
    requires AllValued(PortfolioValue(payload, currency), names)
    ensures PositionShareOf(payload, currency, names, f, i) == 0.0
  {
    var v := LineGame(payload, currency, i);
    forall S | S <= Elements(names) ensures v(S + {f}) == v(S) { MetricFactorKeepsLine(payload, currency, f, i, S); }
    NullPlayer(names, v, f);
    PositionShare(payload, currency, names, f, i);
  }

  /**
   * Volatility and correlation shocks get exactly nothing, in the portfolio and in every position: they revalue none.
   */
  lemma MetricFactorsGetNothing(payload: Payload, currency: Currency, names: seq<string>, f: string)
    requires Distinct(names) && f in names && IsMetricFactor(payload.shocks, f)
    requires AllValued(PortfolioValue(payload, currency), names)
    ensures ExactShare(names, PortfolioValue(payload, currency), f) == 0.0
    ensures forall i :: 0 <= i < |payload.positions| ==> PositionShareOf(payload, currency, names, f, i) == 0.0
  {
    MetricFactorMovesNoTotal(payload, currency, names, f);
    forall i | 0 <= i < |payload.positions| ensures PositionShareOf(payload, currency, names, f, i) == 0.0 {
      MetricFactorMovesNoLine(payload, currency, names, f, i);
    }
  }

  /** A factor that changes no value of a function has no share in it. */
  lemma UnmovedShare(names: seq<string>, value: ValueFunction, f: string)
    requires Distinct(names) && f in names && forall S :: S <= Elements(names) ==> value(S + {f}) == value(S)
    ensures ExactShare(names, value, f) == 0.0
  {
    NullPlayer(names, Worth(value), f);
  }

  lemma SamePayloadSameValue(a: Payload, b: Payload, currency: Currency, i: nat)
    requires a == b
    ensures PortfolioAt(a, currency) == PortfolioAt(b, currency)
    ensures PositionAt(a, currency, i) == PositionAt(b, currency, i)
  {
  }

  lemma NeutralKeepsValue(payload: Payload, currency: Currency, f: string, S: set<string>, T: set<string>, i: nat)
    requires IsNeutral(payload.shocks, f) && T == S + {f}
    ensures PortfolioValue(payload, currency)(T) == PortfolioValue(payload, currency)(S)
    ensures PositionValue(payload, currency, i)(T) == PositionValue(payload, currency, i)(S)
  {
    NeutralKeepsPayload(payload, f, S, T);
    SamePayloadSameValue(PayloadFor(payload, S), PayloadFor(payload, T), currency, i);
  }

  lemma NeutralMovesNothing(payload: Payload, currency: Currency, names: seq<string>, f: string, i: nat)
    requires Distinct(names) && f in names && IsNeutral(payload.shocks, f)
    ensures ExactShare(names, PortfolioValue(payload, currency), f) == 0.0
    ensures ExactShare(names, PositionValue(payload, currency, i), f) == 0.0
  {
    var total, line := PortfolioValue(payload, currency), PositionValue(payload, currency, i);
    forall S | S <= Elements(names) ensures total(S + {f}) == total(S) && line(S + {f}) == line(S) {
      NeutralKeepsValue(payload, currency, f, S, S + {f}, i);
    }
    UnmovedShare(names, total, f);
    UnmovedShare(names, line, f);
  }

  /**
   * A shock that already has its neutral value gets exactly nothing, whatever its kind, in the portfolio and in every
   * position.
   */
  lemma NeutralShockGetsNothing(payload: Payload, currency: Currency, names: seq<string>, f: string)
    requires Distinct(names) && f in names && IsNeutral(payload.shocks, f)
    ensures ExactShare(names, PortfolioValue(payload, currency), f) == 0.0
    ensures forall i: nat :: PositionShareOf(payload, currency, names, f, i) == 0.0
  {
    forall i: nat
      ensures ExactShare(names, PortfolioValue(payload, currency), f) == 0.0
      ensures PositionShareOf(payload, currency, names, f, i) == 0.0
    {
      NeutralMovesNothing(payload, currency, names, f, i);
    }
    NeutralMovesNothing(payload, currency, names, f, 0);
  }

  ghost predicate StructurallyBlocked(payload: Payload, i: nat)
    requires i < |payload.positions|
  {
    var outcome := PositionResult(payload.positions[i], payload);
    outcome.Blocked? && Structural(outcome.reason)
  }

  lemma BlockedLineIsZero(payload: Payload, currency: Currency, i: nat, S: set<string>)
    requires i < |payload.positions| && StructurallyBlocked(payload, i)
    ensures LinePnl(payload, currency, i, S) == 0.0
  {
    StructuralBlockPersists(payload.positions[i], payload, S);
  }

  lemma BlockedLineShareIsZero(payload: Payload, currency: Currency, names: seq<string>, f: string, i: nat)
    requires Distinct(names) && f in names && i < |payload.positions| && StructurallyBlocked(payload, i)
    ensures LineShare(payload, currency, names, f, i) == 0.0
  {
    var v := LineGame(payload, currency, i);
    forall S ensures v(S) == 0.0 { BlockedLineIsZero(payload, currency, i, S); }
    NullPlayer(names, v, f);
  }

  /** A position blocked for a structural reason gets exactly nothing from every factor. */
  lemma StructurallyBlockedGetsNothing(payload: Payload, currency: Currency, names: seq<string>, f: string, i: nat)
    requires Distinct(names) && f in names && i < |payload.positions|
    requires AllValued(PortfolioValue(payload, currency), names)
    requires StructurallyBlocked(payload, i)
    ensures PositionShareOf(payload, currency, names, f, i) == 0.0
  {
    BlockedLineShareIsZero(payload, currency, names, f, i);
    PositionShare(payload, currency, names, f, i);
  }

  // ----- Reconciliation

  ghost predicate ReportOf(report: Report, payload: Payload, currency: Currency, tolerance: int) {
    && Evaluate(payload).Ok?
    && Elements(report.names) == FactorNames(payload.shocks)
    && var e := Evaluate(payload).value;
       Reports(report, PortfolioValue(payload, currency), Portfolio(e, currency),
               PositionValues(payload, currency), LineTotals(payload, e, currency), tolerance)
  }

  lemma EndpointsOfPortfolio(payload: Payload, currency: Currency, names: seq<string>)
    requires AllValued(PortfolioValue(payload, currency), names)
    requires Elements(names) == FactorNames(payload.shocks) && Evaluate(payload).Ok?
    ensures Worth(PortfolioValue(payload, currency))({}) == 0.0
    ensures Worth(PortfolioValue(payload, currency))(Elements(names)) ==
            ResultValue(Evaluate(payload).value, currency) as real
  {
    ValuedIsEvaluated(payload, currency, names, {});
    PortfolioIsLines(payload, currency, {});
    NeutralTotal(payload.positions[..|payload.positions|], payload, currency);
    FullSubsetIsPayload(payload);
    ValueIsSumOfLines(payload, currency);
  }

  lemma EndpointsOfPosition(payload: Payload, currency: Currency, names: seq<string>, i: nat)
    requires AllValued(PortfolioValue(payload, currency), names) && i < |payload.positions|
    requires Elements(names) == FactorNames(payload.shocks) && Evaluate(payload).Ok?
    ensures Worth(PositionValue(payload, currency, i))({}) == 0.0
    ensures Worth(PositionValue(payload, currency, i))(Elements(names)) ==
            Pnl(PositionResult(payload.positions[i], payload), currency) as real
  {
    ValuedIsEvaluated(payload, currency, names, {});
    PositionIsLine(payload, currency, i, {});
    NeutralPosition(payload.positions[i], payload, currency);
    FullSubsetIsPayload(payload);
    PositionIsItsLine(payload, currency, i);
  }

  /**
   * The baseline is exactly zero, and with n factors the portfolio residual is at most n/2 units of
   * 10^-18; a blocked scenario has no total and so no residual.
   */
  lemma PortfolioReconciles(report: Report, payload: Payload, currency: Currency, tolerance: int)
    requires ReportOf(report, payload, currency, tolerance)
    ensures report.portfolio.baseline == 0
    ensures report.portfolio.residual.Some? <==> !Evaluate(payload).value.state.StateBlocked?
    ensures report.portfolio.residual.Some? ==> -|report.names| <= 2 * report.portfolio.residual.value <= |report.names|
    ensures |report.names| <= 2 * tolerance ==> (report.reconciles <==> !Evaluate(payload).value.state.StateBlocked?)
  {
    var e, v := Evaluate(payload).value, Worth(PortfolioValue(payload, currency));
    EndpointsOfPortfolio(payload, currency, report.names);
    RoundInteger(0);
    TotalUnlessBlocked(payload, currency);
    if report.portfolio.residual.Some? {
      ResidualBound(report.portfolio, report.names, v);
    }
  }

  lemma TotalUnlessBlocked(payload: Payload, currency: Currency)
    requires Evaluate(payload).Ok?
    ensures Portfolio(Evaluate(payload).value, currency).Some? <==> !Evaluate(payload).value.state.StateBlocked?
  {
  }

  lemma LineExplained(report: Report, payload: Payload, currency: Currency, tolerance: int, i: nat)
    requires ReportOf(report, payload, currency, tolerance) && i < |payload.positions|
    ensures |report.lines| == |payload.positions| && Distinct(report.names)
    ensures Explains(report.lines[i], report.names, Worth(PositionValue(payload, currency, i)))
    ensures report.lines[i].total == LineTotal(Evaluate(payload).value, i, currency)
  {
    assert PositionValues(payload, currency)[i] == PositionValue(payload, currency, i);
  }

  lemma SplitReconciles(split: Split, names: seq<string>, v: Game, pnl: int)
    requires Distinct(names) && Explains(split, names, v)
    requires v({}) == 0.0 && v(Elements(names)) == pnl as real
    requires split.total.Some? ==> split.total.value == pnl
    ensures split.baseline == 0
    ensures split.residual.Some? ==> -|names| <= 2 * split.residual.value <= |names|
  {
    RoundInteger(0);
    if split.residual.Some? { ResidualBound(split, names, v); }
  }

  /** Every line splits the same way: zero baseline and at most n/2 units left over for a valid line. */
  lemma LinesReconcile(report: Report, payload: Payload, currency: Currency, tolerance: int, i: nat)
    requires ReportOf(report, payload, currency, tolerance) && i < |payload.positions|
    ensures |report.lines| == |payload.positions|
    ensures report.lines[i].baseline == 0
    ensures report.lines[i].residual.Some? <==> PositionResult(payload.positions[i], payload).Valid?
    ensures report.lines[i].residual.Some? ==> -|report.names| <= 2 * report.lines[i].residual.value <= |report.names|
  {
    LineExplained(report, payload, currency, tolerance, i);
    EndpointsOfPosition(payload, currency, report.names, i);
    LineTotalIs(payload, currency, i);
    SplitReconciles(report.lines[i], report.names, Worth(PositionValue(payload, currency, i)),
                    Pnl(PositionResult(payload.positions[i], payload), currency));
  }

  lemma LineTotalIs(payload: Payload, currency: Currency, i: nat)
    requires Evaluate(payload).Ok? && i < |payload.positions|
    ensures var outcome := PositionResult(payload.positions[i], payload);
            LineTotal(Evaluate(payload).value, i, currency) ==
            if outcome.Valid? then Some(Pnl(outcome, currency)) else None
  {
    ValueIsSumOfLines(payload, currency);
  }

  // ----- The job handler

  datatype Attributed = Attached(report: Report) | Unavailable

  datatype JobResult = JobResult(state: State, residualFlagged: bool, evaluation: Evaluation, attribution: Attributed)

  /**
   * The job has a result: the payload evaluates, and either has too many factors to attribute or can be split
   * throughout.
   */
  ghost predicate Answerable(payload: Payload) {
    && Evaluate(payload).Ok?
    && (|FactorNames(payload.shocks)| > 8 || Attributable(payload, Evaluate(payload).value, TRY))
  }

  /** The attribution of an evaluated scenario, or none if it has too many factors. */
  method Attribute(payload: Payload, result: Evaluation) returns (r: Result<Attributed, Failure>)
    requires Evaluate(payload) == Ok(result)
    ensures r.Ok? <==> |FactorNames(payload.shocks)| > 8 || Attributable(payload, result, TRY)
    ensures r.Err? ==> r.error == ScenarioInvalid
    ensures r.Ok? ==> (r.value.Unavailable? <==> |FactorNames(payload.shocks)| > 8)
    ensures r.Ok? && r.value.Attached? ==>
              ReportOf(r.value.report, payload, TRY, DEFAULT_TOLERANCE)
              && (r.value.report.reconciles <==> !result.state.StateBlocked?)
  {
    var attribution := AttributeScenario(payload, TRY, DEFAULT_TOLERANCE, MAX_SUPPORTED_FACTORS, Some(result));
    if attribution.Ok? {
      ElementsSize(attribution.value.names);
      PortfolioReconciles(attribution.value, payload, TRY, DEFAULT_TOLERANCE);
      return Ok(Attached(attribution.value));
    }
    if attribution.error.ScenarioInvalid? {
      return Err(attribution.error);
    }
    return Ok(Unavailable);
  }

  /**
   * Revalues a scenario and attaches its attribution; a valid result whose attribution does not reconcile is
   * degraded.
   */
  method HandleScenarioRevaluation(payload: Payload) returns (r: Result<JobResult, Failure>)
    ensures r.Ok? <==> Answerable(payload)
    ensures r.Err? ==> r.error == ScenarioInvalid
    ensures r.Ok? ==> r.value.evaluation == Evaluate(payload).value && Accounts(r.value.evaluation, payload)
    ensures r.Ok? ==> (r.value.attribution.Unavailable? <==> |FactorNames(payload.shocks)| > 8)
    ensures r.Ok? && r.value.attribution.Attached? ==>
              ReportOf(r.value.attribution.report, payload, TRY, DEFAULT_TOLERANCE)
              && (r.value.attribution.report.reconciles <==> !r.value.evaluation.state.StateBlocked?)
    ensures r.Ok? ==>
              (r.value.residualFlagged <==>
                 r.value.evaluation.state.StateValid? && |FactorNames(payload.shocks)| > 8)
    ensures r.Ok? ==> r.value.state == if r.value.residualFlagged then StateDegraded else r.value.evaluation.state
  {
    var evaluated := EvaluateScenario(payload);
    if evaluated.Err? {
      EvaluateErrors(payload);
      return Err(evaluated.error);
    }
    var result := evaluated.value;
    var attribution := Attribute(payload, result);
    if attribution.Err? {
      return Err(attribution.error);
    }
    var reconciles := attribution.value.Attached? && attribution.value.report.reconciles;
    var flagged := result.state.StateValid? && !reconciles;
    var state := if flagged then StateDegraded else result.state;
    return Ok(JobResult(state, flagged, result, attribution.value));
  }
}
