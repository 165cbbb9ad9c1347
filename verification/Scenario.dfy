/** Revaluation of a sealed portfolio under a set of shocks. */
module Scenario {
  import opened Results
  import opened Decimals

  /** A decoded JSON number field. Malformed covers every value that is not a finite decimal. */
  datatype Field = Absent | Malformed | Number(value: real)

  datatype FxEdge = FxEdge(pair: string, direction: string) | MalformedEdge
  datatype FxPath = PathAbsent | PathMalformed | Path(edges: seq<FxEdge>)

  /** An asset class: absent, a string, or something else. */
  datatype AssetClass = NoClass | Class(name: string) | MalformedClass

  datatype Position = Position(
    instrumentId: string,
    instrumentType: Option<string>,
    assetClass: AssetClass,
    valueTry: Field,
    valueUsd: Field,
    nativeCurrency: Option<string>,
    duration: Field,
    convexity: Field,
    pathTry: FxPath,
    pathUsd: FxPath)

  datatype Shocks = Shocks(
    assetReturns: map<string, real>,
    yieldShifts: map<string, real>,
    fxChanges: map<string, real>,
    volatilityMultipliers: map<string, real>,
    correlationTarget: Option<real>,
    correlationBlend: Option<real>)

  datatype Coverage = BlockUncovered | DegradeUncovered | UnknownPolicy

  /** What scanning the stored pre-shock metrics finds; it does not depend on the shocks. */
  datatype MetricScan = MetricsSound | MetricsDegraded | MetricsUnavailable | MetricsMalformed
  datatype PreMetrics = PreMetrics(hasVolatility: bool, scan: MetricScan)

  datatype Payload = Payload(
    envelopeValid: bool,
    shocks: Shocks,
    classOf: Option<map<string, AssetClass>>,
    convexityWhenAbsent: Field,
    coverage: Coverage,
    metrics: PreMetrics,
    positions: seq<Position>)

  datatype Reason =
    | InvalidInstrumentId | InvalidScenarioInput | UnmappedFactor | UnmappedYieldCurve
    | BondDurationMissing | UnsupportedInstrumentType | FxPathMissing | OutputOutOfBounds

  /** A revalued position, with every amount in units of 10^-18. */
  datatype Outcome =
    | Blocked(reason: Reason)
    | Valid(preTry: int, postTry: int, pnlTry: int, preUsd: int, postUsd: int, pnlUsd: int,
            priceReturn: int, yieldReturn: int, fxTry: int, fxUsd: int)

  datatype State = StateValid | StateDegraded | StateBlocked

  datatype Evaluation = Evaluation(
    state: State,
    positions: seq<Outcome>,
    portfolioTry: Option<int>,
    portfolioUsd: Option<int>)

  // ----- Shock validation

  /** What Python strips from a string. */
  const WHITESPACE: set<char> :=
    {' ', '\t', '\n', '\r', '\U{0B}', '\U{0C}', '\U{1C}', '\U{1D}', '\U{1E}', '\U{1F}', '\U{85}', '\U{A0}', '\U{1680}',
     '\U{2000}', '\U{2001}', '\U{2002}', '\U{2003}', '\U{2004}', '\U{2005}', '\U{2006}', '\U{2007}', '\U{2008}',
     '\U{2009}', '\U{200A}', '\U{2028}', '\U{2029}', '\U{202F}', '\U{205F}', '\U{3000}'}

  predicate NonBlank(key: string) {
    exists i :: 0 <= i < |key| && key[i] !in WHITESPACE
  }

  predicate ValidShocks(shocks: Shocks) {
    && (forall k :: k in shocks.assetReturns ==> NonBlank(k) && shocks.assetReturns[k] >= -1.0)
    && (forall k :: k in shocks.yieldShifts ==> NonBlank(k))
    && (forall k :: k in shocks.fxChanges ==> NonBlank(k) && shocks.fxChanges[k] > -1.0)
    && (forall k :: k in shocks.volatilityMultipliers ==> NonBlank(k) && shocks.volatilityMultipliers[k] >= 0.0)
    && (shocks.correlationTarget.Some? ==> -1.0 <= shocks.correlationTarget.value <= 1.0)
    && (shocks.correlationBlend.Some? ==> 0.0 <= shocks.correlationBlend.value <= 1.0)
  }

  // ----- One position

  /** Rounds a number to storage scale, given in units; more than 38 digits cannot be stored. */
  function Quantize(units: real): Result<int, Reason> {
    var n := RoundHalfAway(units);
    if Fits(n, STORAGE_LIMIT) then Ok(n) else Err(OutputOutOfBounds)
  }

  function QuantizeField(field: Field): Result<int, Reason> {
    match field
    case Number(x) => Quantize(x * SCALE)
    case _ => Err(InvalidScenarioInput)
  }

  function NumberOf(field: Field): Result<real, Reason> {
    match field
    case Number(x) => Ok(x)
    case _ => Err(InvalidScenarioInput)
  }

  function Lookup(m: map<string, real>, key: Option<string>): Option<real> {
    if key.Some? && key.value in m then Some(m[key.value]) else None
  }

  function OrZero(x: Option<real>): real {
    if x.Some? then x.value else 0.0
  }

  function RateMultiplier(changes: map<string, real>, pair: string): real {
    1.0 + OrZero(Lookup(changes, Some(pair)))
  }

  function EdgeMultiplier(edge: FxEdge, changes: map<string, real>): Result<real, Reason> {
    if edge.MalformedEdge? then Err(InvalidScenarioInput)
    else
      var rate := RateMultiplier(changes, edge.pair);
      if rate <= 0.0 then Err(InvalidScenarioInput)
      else if edge.direction == "direct" then Ok(rate)
      else if edge.direction == "inverse" then Ok(1.0 / rate)
      else Err(InvalidScenarioInput)
  }

  function Chain(before: Result<real, Reason>, edge: Result<real, Reason>): Result<real, Reason> {
    if before.Err? then before
    else if edge.Err? then edge
    else Ok(Times(before.value, edge.value))
  }

  /** The product of the rate changes along an FX path. */
  function FxMultiplier(path: seq<FxEdge>, changes: map<string, real>): Result<real, Reason> {
    if path == [] then Ok(1.0)
    else Chain(FxMultiplier(path[..|path| - 1], changes), EdgeMultiplier(path[|path| - 1], changes))
  }

  function DefaultPaths(currency: Option<string>): (seq<FxEdge>, seq<FxEdge>) {
    if currency == Some("TRY") then ([], [FxEdge("USD/TRY", "inverse")])
    else if currency == Some("USD") then ([FxEdge("USD/TRY", "direct")], [])
    else ([], [])
  }

  function PathMultiplier(path: FxPath, default: seq<FxEdge>, changes: map<string, real>): Result<real, Reason> {
    match path
    case PathAbsent => FxMultiplier(default, changes)
    case PathMalformed => Err(InvalidScenarioInput)
    case Path(edges) => FxMultiplier(edges, changes)
  }

  /** Second-order price change of a bond for a change of its yield. */
  function BondReturn(duration: real, convexity: real, delta: real): real {
    -duration * delta + 0.5 * convexity * (delta * delta)
  }

  const BOND := "fixed_rate_bond"
  const SPOT_TYPES: set<string> := {"spot", "crypto_spot", "equity_spot", "manual_spot", "cash", "currency"}

  /** The yield return of a bond from duration and convexity; other instruments must be supported. */
  function YieldReturn(p: Position, payload: Payload): Result<real, Reason> {
    if p.instrumentType == Some(BOND) then
      var shift := Lookup(payload.shocks.yieldShifts, p.nativeCurrency);
      if shift.None? then
        if payload.shocks.yieldShifts != map[] then Err(UnmappedYieldCurve) else Ok(0.0)
      else if p.duration.Absent? then Err(BondDurationMissing)
      else
        var duration :- NumberOf(p.duration);
        var convexity :- NumberOf(if p.convexity.Absent? then payload.convexityWhenAbsent else p.convexity);
        Ok(BondReturn(duration, convexity, shift.value / 10000.0))
    else if p.instrumentType.Some? && p.instrumentType.value in SPOT_TYPES then Ok(0.0)
    else Err(UnsupportedInstrumentType)
  }

  function ClassOf(p: Position, classOf: map<string, AssetClass>): AssetClass {
    if p.instrumentId in classOf then classOf[p.instrumentId] else p.assetClass
  }

  function PriceShock(shocks: Shocks, class_: AssetClass): Option<real> {
    if class_.Class? then Lookup(shocks.assetReturns, Some(class_.name)) else None
  }

  function IsCashClass(class_: AssetClass): bool {
    class_ == Class("cash") || class_ == Class("currency")
  }

  function NeedsExplicitPaths(p: Position, shocks: Shocks): bool {
    && shocks.fxChanges != map[]
    && p.nativeCurrency != Some("TRY")
    && p.nativeCurrency != Some("USD")
  }

  /** The price multiplier after the asset-class and yield shocks. */
  function PriceMultiplier(p: Position, payload: Payload, priceReturn: real): Result<(real, real), Reason> {
    var multiplier := 1.0 + priceReturn;
    if multiplier < 0.0 then Err(InvalidScenarioInput)
    else
      var yieldReturn :- YieldReturn(p, payload);
      if Times(multiplier, 1.0 + yieldReturn) < 0.0 then Err(InvalidScenarioInput)
      else Ok((Times(multiplier, 1.0 + yieldReturn), yieldReturn))
  }

  /** The stored amounts of a position once its price and FX multipliers are known. */
  function Stored(preTry: int, preUsd: int, price: (real, real), priceReturn: real, fxTry: real,
                  fxUsd: real): Result<Outcome, Reason> {
    var postTry :- Quantize(Times(Times(preTry as real, price.0), fxTry));
    var postUsd :- Quantize(Times(Times(preUsd as real, price.0), fxUsd));
    var storedReturn :- Quantize(priceReturn * SCALE);
    var storedYield :- Quantize(price.1 * SCALE);
    var storedTry :- Quantize(fxTry * SCALE);
    var storedUsd :- Quantize(fxUsd * SCALE);
    Ok(Valid(preTry, postTry, postTry - preTry, preUsd, postUsd, postUsd - preUsd,
             storedReturn, storedYield, storedTry, storedUsd))
  }

  function Revalue(p: Position, payload: Payload, priceReturn: real): Result<Outcome, Reason> {
    var preTry :- QuantizeField(p.valueTry);
    var preUsd :- QuantizeField(p.valueUsd);
    var price :- PriceMultiplier(p, payload, priceReturn);
    var changes := payload.shocks.fxChanges;
    if NeedsExplicitPaths(p, payload.shocks) && (p.pathTry.PathAbsent? || p.pathUsd.PathAbsent?) then
      Err(FxPathMissing)
    else
      var fxTry :- PathMultiplier(p.pathTry, DefaultPaths(p.nativeCurrency).0, changes);
      var fxUsd :- PathMultiplier(p.pathUsd, DefaultPaths(p.nativeCurrency).1, changes);
      Stored(preTry, preUsd, price, priceReturn, fxTry, fxUsd)
  }

  function PositionResult(p: Position, payload: Payload): Outcome {
    if p.instrumentId == "" then Blocked(InvalidInstrumentId)
    else if payload.classOf.None? || p.instrumentType.None? then Blocked(InvalidScenarioInput)
    else
      var class_ := ClassOf(p, payload.classOf.value);
      var shock := PriceShock(payload.shocks, class_);
      if class_.MalformedClass? then Blocked(InvalidScenarioInput)
      else if payload.shocks.assetReturns != map[] && shock.None? && !IsCashClass(class_) then Blocked(UnmappedFactor)
      else
        match Revalue(p, payload, OrZero(shock))
        case Ok(outcome) => outcome
        case Err(reason) => Blocked(reason)
  }

  // ----- The whole portfolio

  datatype Currency = TRY | USD

  /** The P&L of a position in units; a blocked position contributes nothing. */
  function Pnl(outcome: Outcome, currency: Currency): int {
    match outcome
    case Blocked(_) => 0
    case Valid(_, _, pnlTry, _, _, pnlUsd, _, _, _, _) => if currency == TRY then pnlTry else pnlUsd
  }

  function TotalPnl(outcomes: seq<Outcome>, currency: Currency): int {
    if outcomes == [] then 0
    else TotalPnl(outcomes[..|outcomes| - 1], currency) + Pnl(outcomes[|outcomes| - 1], currency)
  }

  function Outcomes(positions: seq<Position>, payload: Payload): (r: seq<Outcome>)
    ensures |r| == |positions|
    ensures forall i :: 0 <= i < |r| ==> r[i] == PositionResult(positions[i], payload)
  {
    if positions == [] then []
    else Outcomes(positions[..|positions| - 1], payload) + [PositionResult(positions[|positions| - 1], payload)]
  }

  function PostMetrics(pre: PreMetrics, shocks: Shocks): MetricScan {
    if shocks.volatilityMultipliers != map[] && !pre.hasVolatility then MetricsUnavailable else pre.scan
  }

  function ScenarioState(payload: Payload, outcomes: seq<Outcome>, metrics: MetricScan): State {
    if metrics.MetricsSound? && (forall i :: 0 <= i < |outcomes| ==> outcomes[i].Valid?) then StateValid
    else if payload.coverage.BlockUncovered? then StateBlocked
    else StateDegraded
  }

  /** A portfolio total, absent when the scenario is blocked; it must fit the default decimal context. */
  function PortfolioTotal(state: State, outcomes: seq<Outcome>, currency: Currency): Result<Option<int>, Failure> {
    if state.StateBlocked? then Ok(None)
    else if Fits(TotalPnl(outcomes, currency), CONTEXT_LIMIT) then Ok(Some(TotalPnl(outcomes, currency)))
    else Err(ScenarioInvalid)
  }

  function Evaluate(payload: Payload): Result<Evaluation, Failure> {
    if !payload.envelopeValid || !ValidShocks(payload.shocks) then Err(ScenarioInvalid)
    else if payload.coverage.UnknownPolicy? then Err(ScenarioInvalid)
    else
      var outcomes := Outcomes(payload.positions, payload);
      var metrics := PostMetrics(payload.metrics, payload.shocks);
      if metrics.MetricsMalformed? then Err(ScenarioInvalid)
      else
        var state := ScenarioState(payload, outcomes, metrics);
        var totalTry :- PortfolioTotal(state, outcomes, TRY);
        var totalUsd :- PortfolioTotal(state, outcomes, USD);
        Ok(Evaluation(state, outcomes, totalTry, totalUsd))
  }

  // ----- What an evaluation says

  /** What a position gains or loses; a blocked one counts for nothing. */
  ghost function GainTry(o: Outcome): int {
    if o.Valid? then o.postTry - o.preTry else 0
  }

  ghost function GainUsd(o: Outcome): int {
    if o.Valid? then o.postUsd - o.preUsd else 0
  }

  ghost function SumOf(outcomes: seq<Outcome>, gain: Outcome -> int): int {
    if outcomes == [] then 0 else SumOf(outcomes[..|outcomes| - 1], gain) + gain(outcomes[|outcomes| - 1])
  }

  /** Nothing is left uncovered: every position is valid, and the metrics are sound, and there if they are shocked. */
  ghost predicate Covered(payload: Payload, outcomes: seq<Outcome>) {
    && (forall i :: 0 <= i < |outcomes| ==> outcomes[i].Valid?)
    && payload.metrics.scan.MetricsSound?
    && (payload.shocks.volatilityMultipliers == map[] || payload.metrics.hasVolatility)
  }

  /**
   * The state of an evaluation and its totals: valid exactly when nothing is left uncovered, otherwise what the
   * coverage policy says; a blocked evaluation has no totals, any other adds up the gains of its positions.
   */
  ghost predicate Accounts(e: Evaluation, payload: Payload) {
    && |e.positions| == |payload.positions|
    && (e.state.StateValid? <==> Covered(payload, e.positions))
    && (!Covered(payload, e.positions) && payload.coverage.BlockUncovered? ==>
          e.state.StateBlocked? && e.portfolioTry.None? && e.portfolioUsd.None?)
    && (!Covered(payload, e.positions) && payload.coverage.DegradeUncovered? ==> e.state.StateDegraded?)
    && (!e.state.StateBlocked? ==>
          && e.portfolioTry == Some(SumOf(e.positions, GainTry))
          && e.portfolioUsd == Some(SumOf(e.positions, GainUsd)))
  }

  /** The metrics stop the evaluation: they are malformed, and not already missing where volatility is shocked. */
  ghost predicate MetricsFail(payload: Payload) {
    && payload.metrics.scan.MetricsMalformed?
    && (payload.shocks.volatilityMultipliers == map[] || payload.metrics.hasVolatility)
  }

  ghost predicate TotalsTooLong(payload: Payload, outcomes: seq<Outcome>) {
    && (Covered(payload, outcomes) || !payload.coverage.BlockUncovered?)
    && (!Fits(SumOf(outcomes, GainTry), CONTEXT_LIMIT) || !Fits(SumOf(outcomes, GainUsd), CONTEXT_LIMIT))
  }

  ghost predicate BlankKey(shocks: Shocks) {
    exists k ::
      && (k in shocks.assetReturns || k in shocks.yieldShifts || k in shocks.fxChanges
          || k in shocks.volatilityMultipliers)
      && forall i :: 0 <= i < |k| ==> k[i] in WHITESPACE
  }

  /** A price falls below nothing, a rate to nothing or below, a volatility below nothing, or a correlation is none. */
  ghost predicate OutOfRange(shocks: Shocks) {
    || (exists k :: k in shocks.assetReturns && 1.0 + shocks.assetReturns[k] < 0.0)
    || (exists k :: k in shocks.fxChanges && 1.0 + shocks.fxChanges[k] <= 0.0)
    || (exists k :: k in shocks.volatilityMultipliers && shocks.volatilityMultipliers[k] < 0.0)
    || (shocks.correlationTarget.Some?
        && (shocks.correlationTarget.value < -1.0 || shocks.correlationTarget.value > 1.0))
    || (shocks.correlationBlend.Some? && (shocks.correlationBlend.value < 0.0 || shocks.correlationBlend.value > 1.0))
  }

  lemma ValidShocksExactly(shocks: Shocks)
    ensures ValidShocks(shocks) <==> !BlankKey(shocks) && !OutOfRange(shocks)
  {
  }

  /** When a payload is refused altogether. */
  ghost predicate Refused(payload: Payload, outcomes: seq<Outcome>) {
    || !payload.envelopeValid || BlankKey(payload.shocks) || OutOfRange(payload.shocks)
    || payload.coverage.UnknownPolicy?
    || MetricsFail(payload) || TotalsTooLong(payload, outcomes)
  }

  /** A valid outcome's P&L is the difference of its stored amounts. */
  lemma PnlIsGain(p: Position, payload: Payload)
    ensures Pnl(PositionResult(p, payload), TRY) == GainTry(PositionResult(p, payload))
    ensures Pnl(PositionResult(p, payload), USD) == GainUsd(PositionResult(p, payload))
  {
  }

  lemma {:induction false} TotalIsSum(positions: seq<Position>, payload: Payload, outcomes: seq<Outcome>)
    requires outcomes == Outcomes(positions, payload)
    ensures TotalPnl(outcomes, TRY) == SumOf(outcomes, GainTry)
    ensures TotalPnl(outcomes, USD) == SumOf(outcomes, GainUsd)
  {
    if positions != [] {
      var n := |positions| - 1;
      assert outcomes[..n] == Outcomes(positions[..n], payload);
      TotalIsSum(positions[..n], payload, outcomes[..n]);
      PnlIsGain(positions[n], payload);
    }
  }

  lemma StateIs(payload: Payload, outcomes: seq<Outcome>)
    ensures var state := ScenarioState(payload, outcomes, PostMetrics(payload.metrics, payload.shocks));
            && (state.StateValid? <==> Covered(payload, outcomes))
            && (!Covered(payload, outcomes) ==> (state.StateBlocked? <==> payload.coverage.BlockUncovered?))
    ensures PostMetrics(payload.metrics, payload.shocks).MetricsMalformed? <==> MetricsFail(payload)
  {
  }

  /** An evaluation accounts for what it says. */
  lemma EvaluationAccounts(payload: Payload)
    ensures Evaluate(payload).Ok? ==> Accounts(Evaluate(payload).value, payload)
  {
    var outcomes := Outcomes(payload.positions, payload);
    TotalIsSum(payload.positions, payload, outcomes);
    StateIs(payload, outcomes);
  }

  /** It fails exactly for a payload that is refused. */
  lemma EvaluationRefused(payload: Payload)
    ensures Evaluate(payload).Err? <==> Refused(payload, Outcomes(payload.positions, payload))
  {
    var outcomes := Outcomes(payload.positions, payload);
    TotalIsSum(payload.positions, payload, outcomes);
    StateIs(payload, outcomes);
    ValidShocksExactly(payload.shocks);
    EvaluatedUnless(payload, outcomes);
  }

  lemma EvaluatedUnless(payload: Payload, outcomes: seq<Outcome>)
    requires outcomes == Outcomes(payload.positions, payload)
    ensures var metrics := PostMetrics(payload.metrics, payload.shocks);
            Evaluate(payload).Err? <==>
              || !payload.envelopeValid || !ValidShocks(payload.shocks) || payload.coverage.UnknownPolicy?
              || metrics.MetricsMalformed?
              || (!ScenarioState(payload, outcomes, metrics).StateBlocked?
                  && (!Fits(TotalPnl(outcomes, TRY), CONTEXT_LIMIT) || !Fits(TotalPnl(outcomes, USD), CONTEXT_LIMIT)))
  {
  }

  // ----- The loops, proved against the functions above

  lemma FxMultiplierNext(path: seq<FxEdge>, i: nat, changes: map<string, real>)
    requires i < |path|
    ensures FxMultiplier(path[..i + 1], changes) ==
            Chain(FxMultiplier(path[..i], changes), EdgeMultiplier(path[i], changes))
  {
    assert path[..i + 1][..i] == path[..i];
  }

  method ComputeFxMultiplier(path: seq<FxEdge>, changes: map<string, real>) returns (r: Result<real, Reason>)
    ensures r == FxMultiplier(path, changes)
  {
    var multiplier := 1.0;
    for i := 0 to |path|
      invariant FxMultiplier(path[..i], changes) == Ok(multiplier)
    {
      FxMultiplierNext(path, i, changes);
      var edge := EdgeMultiplier(path[i], changes);
      if edge.Err? {
        FxMultiplierFails(path, i + 1, changes, edge.error);
        return Err(edge.error);
      }
      multiplier := Times(multiplier, edge.value);
    }
    assert path[..|path|] == path;
    return Ok(multiplier);
  }

  lemma {:induction false} FxMultiplierFails(path: seq<FxEdge>, k: nat, changes: map<string, real>, e: Reason)
    requires k <= |path| && FxMultiplier(path[..k], changes) == Err(e)
    ensures FxMultiplier(path, changes) == Err(e)
    decreases |path| - k
  {
    if k == |path| {
      assert path[..k] == path;
    } else {
      assert path[..k + 1][..k] == path[..k];
      FxMultiplierFails(path, k + 1, changes, e);
    }
  }

  method ComputePath(path: FxPath, default: seq<FxEdge>, changes: map<string, real>) returns (r: Result<real, Reason>)
    ensures r == PathMultiplier(path, default, changes)
  {
    if path.PathMalformed? {
      return Err(InvalidScenarioInput);
    }
    r := ComputeFxMultiplier(if path.PathAbsent? then default else path.edges, changes);
  }

  method RevaluePosition(p: Position, payload: Payload, priceReturn: real) returns (r: Result<Outcome, Reason>)
    ensures r == Revalue(p, payload, priceReturn)
  {
    var preTry :- QuantizeField(p.valueTry);
    var preUsd :- QuantizeField(p.valueUsd);
    var price :- PriceMultiplier(p, payload, priceReturn);
    if NeedsExplicitPaths(p, payload.shocks) && (p.pathTry.PathAbsent? || p.pathUsd.PathAbsent?) {
      return Err(FxPathMissing);
    }
    var fxTry :- ComputePath(p.pathTry, DefaultPaths(p.nativeCurrency).0, payload.shocks.fxChanges);
    var fxUsd :- ComputePath(p.pathUsd, DefaultPaths(p.nativeCurrency).1, payload.shocks.fxChanges);
    return Stored(preTry, preUsd, price, priceReturn, fxTry, fxUsd);
  }

  method EvaluatePosition(p: Position, payload: Payload) returns (outcome: Outcome)
    ensures outcome == PositionResult(p, payload)
  {
    if p.instrumentId == "" {
      return Blocked(InvalidInstrumentId);
    }
    if payload.classOf.None? || p.instrumentType.None? {
      return Blocked(InvalidScenarioInput);
    }
    var class_ := ClassOf(p, payload.classOf.value);
    if class_.MalformedClass? {
      return Blocked(InvalidScenarioInput);
    }
    var shock := PriceShock(payload.shocks, class_);
    if payload.shocks.assetReturns != map[] && shock.None? && !IsCashClass(class_) {
      return Blocked(UnmappedFactor);
    }
    var result := RevaluePosition(p, payload, OrZero(shock));
    outcome := if result.Ok? then result.value else Blocked(result.error);
  }

  ghost predicate NoneBlocked(outcomes: seq<Outcome>) {
    forall k :: 0 <= k < |outcomes| ==> outcomes[k].Valid?
  }

  /** The outcomes of some positions with their totals and whether one is blocked. */
  ghost predicate Tallied(positions: seq<Position>, payload: Payload, results: seq<Outcome>, pnlTry: int, pnlUsd: int,
                          blocked: bool) {
    && results == Outcomes(positions, payload)
    && pnlTry == TotalPnl(results, TRY) && pnlUsd == TotalPnl(results, USD)
    && (!blocked <==> NoneBlocked(results))
  }

  lemma TotalNext(results: seq<Outcome>, outcome: Outcome, currency: Currency)
    ensures TotalPnl(results + [outcome], currency) == TotalPnl(results, currency) + Pnl(outcome, currency)
  {
    assert (results + [outcome])[..|results|] == results;
  }

  lemma NoneBlockedNext(results: seq<Outcome>, outcome: Outcome)
    ensures NoneBlocked(results + [outcome]) <==> NoneBlocked(results) && outcome.Valid?
  {
    var more := results + [outcome];
    assert more[|results|] == outcome && forall k :: 0 <= k < |results| ==> more[k] == results[k];
  }

  lemma TalliedNext(positions: seq<Position>, payload: Payload, i: nat, results: seq<Outcome>, pnlTry: int, pnlUsd: int,
                    blocked: bool, outcome: Outcome)
    requires i < |positions| && Tallied(positions[..i], payload, results, pnlTry, pnlUsd, blocked)
    requires outcome == PositionResult(positions[i], payload)
    ensures Tallied(positions[..i + 1], payload, results + [outcome],
                    pnlTry + Pnl(outcome, TRY), pnlUsd + Pnl(outcome, USD), blocked || outcome.Blocked?)
  {
    assert positions[..i + 1][..i] == positions[..i];
    TotalNext(results, outcome, TRY);
    TotalNext(results, outcome, USD);
    NoneBlockedNext(results, outcome);
  }

  method EvaluatePositions(positions: seq<Position>, payload: Payload)
    returns (results: seq<Outcome>, pnlTry: int, pnlUsd: int, blocked: bool)
    ensures Tallied(positions, payload, results, pnlTry, pnlUsd, blocked)
  {
    results, pnlTry, pnlUsd, blocked := [], 0, 0, false;
    for i := 0 to |positions|
      invariant Tallied(positions[..i], payload, results, pnlTry, pnlUsd, blocked)
    {
      var outcome := EvaluatePosition(positions[i], payload);
      TalliedNext(positions, payload, i, results, pnlTry, pnlUsd, blocked, outcome);
      results := results + [outcome];
      pnlTry := pnlTry + Pnl(outcome, TRY);
      pnlUsd := pnlUsd + Pnl(outcome, USD);
      blocked := blocked || outcome.Blocked?;
    }
    assert positions[..|positions|] == positions;
  }

  method EvaluateScenario(payload: Payload) returns (r: Result<Evaluation, Failure>)
    ensures r == Evaluate(payload)
    ensures r.Ok? ==> Accounts(r.value, payload)
    ensures r.Err? <==> Refused(payload, Outcomes(payload.positions, payload))
  {
    EvaluationAccounts(payload);
    EvaluationRefused(payload);
    if !payload.envelopeValid || !ValidShocks(payload.shocks) {
      return Err(ScenarioInvalid);
    }
    var results, pnlTry, pnlUsd, blocked := EvaluatePositions(payload.positions, payload);
    if payload.coverage.UnknownPolicy? {
      return Err(ScenarioInvalid);
    }
    var metrics := PostMetrics(payload.metrics, payload.shocks);
    if metrics.MetricsMalformed? {
      return Err(ScenarioInvalid);
    }
    blocked := blocked || !metrics.MetricsSound?;
    var state :=
      if !blocked then StateValid else if payload.coverage.BlockUncovered? then StateBlocked else StateDegraded;
    if state.StateBlocked? {
      return Ok(Evaluation(state, results, None, None));
    }
    if !Fits(pnlTry, CONTEXT_LIMIT) || !Fits(pnlUsd, CONTEXT_LIMIT) {
      return Err(ScenarioInvalid);
    }
    return Ok(Evaluation(state, results, Some(pnlTry), Some(pnlUsd)));
  }
}
