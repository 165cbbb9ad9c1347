/** Shapley attribution of a scenario's P&L to its shocks. */
module Attribution {
  import opened Results
  import opened Decimals
  import opened Subsets
  import opened Shapley
  import opened Allocation
  import opened Scenario

  // ----- Factors and neutralised payloads

  function AssetFactor(k: string): string { "asset_return:" + k }
  function YieldFactor(k: string): string { "yield_shift:" + k }
  function FxFactor(k: string): string { "fx_change:" + k }
  function VolatilityFactor(k: string): string { "volatility_multiplier:" + k }
  const TARGET_FACTOR := "correlation_target"
  const BLEND_FACTOR := "correlation_blend"

  function FactorNames(shocks: Shocks): set<string> {
    (set k | k in shocks.assetReturns :: AssetFactor(k))
    + (set k | k in shocks.yieldShifts :: YieldFactor(k))
    + (set k | k in shocks.fxChanges :: FxFactor(k))
    + (set k | k in shocks.volatilityMultipliers :: VolatilityFactor(k))
    + (if shocks.correlationTarget.Some? then {TARGET_FACTOR} else {})
    + (if shocks.correlationBlend.Some? then {BLEND_FACTOR} else {})
  }

  /** The shocks with every factor outside the subset set to its neutral value. */
  function Neutralised(shocks: Shocks, subset: set<string>): Shocks {
    Shocks(
      map k | k in shocks.assetReturns :: if AssetFactor(k) in subset then shocks.assetReturns[k] else 0.0,
      map k | k in shocks.yieldShifts :: if YieldFactor(k) in subset then shocks.yieldShifts[k] else 0.0,
      map k | k in shocks.fxChanges :: if FxFactor(k) in subset then shocks.fxChanges[k] else 0.0,
      map k | k in shocks.volatilityMultipliers ::
        if VolatilityFactor(k) in subset then shocks.volatilityMultipliers[k] else 1.0,
      if TARGET_FACTOR in subset then shocks.correlationTarget else None,
      if shocks.correlationBlend.None? || BLEND_FACTOR in subset then shocks.correlationBlend else Some(0.0))
  }

  function PayloadFor(payload: Payload, subset: set<string>): Payload {
    payload.(shocks := Neutralised(payload.shocks, subset))
  }

  /** The factors by their names: one for each key of each kind of shock, and one for each correlation number given. */
  ghost predicate Names(f: string, shocks: Shocks) {
    || (exists k :: k in shocks.assetReturns && f == "asset_return:" + k)
    || (exists k :: k in shocks.yieldShifts && f == "yield_shift:" + k)
    || (exists k :: k in shocks.fxChanges && f == "fx_change:" + k)
    || (exists k :: k in shocks.volatilityMultipliers && f == "volatility_multiplier:" + k)
    || (shocks.correlationTarget.Some? && f == "correlation_target")
    || (shocks.correlationBlend.Some? && f == "correlation_blend")
  }

  /** A shock that is switched on keeps its value; one that is off has its neutral one. */
  ghost predicate Switches(shocks: Shocks, part: Shocks, on: set<string>) {
    && part.assetReturns.Keys == shocks.assetReturns.Keys && part.yieldShifts.Keys == shocks.yieldShifts.Keys
    && part.fxChanges.Keys == shocks.fxChanges.Keys
    && part.volatilityMultipliers.Keys == shocks.volatilityMultipliers.Keys
    && (forall k :: k in part.assetReturns ==>
          part.assetReturns[k] == if "asset_return:" + k in on then shocks.assetReturns[k] else 0.0)
    && (forall k :: k in part.yieldShifts ==>
          part.yieldShifts[k] == if "yield_shift:" + k in on then shocks.yieldShifts[k] else 0.0)
    && (forall k :: k in part.fxChanges ==>
          part.fxChanges[k] == if "fx_change:" + k in on then shocks.fxChanges[k] else 0.0)
    && (forall k :: k in part.volatilityMultipliers ==>
          part.volatilityMultipliers[k] ==
          if "volatility_multiplier:" + k in on then shocks.volatilityMultipliers[k] else 1.0)
    && part.correlationTarget == (if "correlation_target" in on then shocks.correlationTarget else None)
    && part.correlationBlend ==
       if shocks.correlationBlend.Some? && "correlation_blend" !in on then Some(0.0) else shocks.correlationBlend
  }

  /** The factors are these, and the payload of a subset switches on exactly its shocks. */
  lemma SubsetSwitches(payload: Payload, subset: set<string>)
    ensures forall f :: f in FactorNames(payload.shocks) <==> Names(f, payload.shocks)
    ensures Switches(payload.shocks, PayloadFor(payload, subset).shocks, subset)
    ensures PayloadFor(payload, subset) == payload.(shocks := PayloadFor(payload, subset).shocks)
  {
    SameKeys(payload.shocks, subset);
    forall f ensures f in FactorNames(payload.shocks) <==> Names(f, payload.shocks) {}
  }

  lemma FullSubsetIsPayload(payload: Payload)
    ensures PayloadFor(payload, FactorNames(payload.shocks)) == payload
  {
    var s, all := payload.shocks, FactorNames(payload.shocks);
    assert forall k :: k in s.assetReturns ==> AssetFactor(k) in all;
    assert forall k :: k in s.yieldShifts ==> YieldFactor(k) in all;
    assert forall k :: k in s.fxChanges ==> FxFactor(k) in all;
    assert forall k :: k in s.volatilityMultipliers ==> VolatilityFactor(k) in all;
    var n := Neutralised(s, all);
    assert n.assetReturns == s.assetReturns;
    assert n.yieldShifts == s.yieldShifts;
    assert n.fxChanges == s.fxChanges;
    assert n.volatilityMultipliers == s.volatilityMultipliers;
  }

  // ----- Value functions

  function Portfolio(e: Evaluation, currency: Currency): Option<int> {
    if currency == TRY then e.portfolioTry else e.portfolioUsd
  }

  /** The portfolio P&L; a blocked scenario has no total, so its valid lines are summed instead. */
  function ResultValue(e: Evaluation, currency: Currency): int {
    if Portfolio(e, currency).Some? then Portfolio(e, currency).value else TotalPnl(e.positions, currency)
  }

  function PortfolioAt(payload: Payload, currency: Currency): Result<real, Failure> {
    var r := Evaluate(payload);
    if r.Ok? then Ok(ResultValue(r.value, currency) as real) else Err(r.error)
  }

  function PortfolioValue(payload: Payload, currency: Currency): ValueFunction {
    S => PortfolioAt(PayloadFor(payload, S), currency)
  }

  function PositionAt(payload: Payload, currency: Currency, index: nat): Result<real, Failure> {
    var r := Evaluate(payload);
    if r.Err? then Err(r.error)
    else if index < |r.value.positions| then Ok(Pnl(r.value.positions[index], currency) as real)
    else Ok(0.0)
  }

  function PositionValue(payload: Payload, currency: Currency, index: nat): ValueFunction {
    S => PositionAt(PayloadFor(payload, S), currency, index)
  }

  lemma TotalIsSumOfLines(payload: Payload, currency: Currency)
    requires Evaluate(payload).Ok?
    ensures var e := Evaluate(payload).value;
            && e.positions == Outcomes(payload.positions, payload)
            && Portfolio(e, currency) == if e.state.StateBlocked? then None else Some(TotalPnl(e.positions, currency))
  {
  }

  /** Whether or not the scenario state is blocked, its value is the sum of its valid lines. */
  lemma ValueIsSumOfLines(payload: Payload, currency: Currency)
    requires Evaluate(payload).Ok?
    ensures ResultValue(Evaluate(payload).value, currency) == TotalPnl(Outcomes(payload.positions, payload), currency)
    ensures Evaluate(payload).value.positions == Outcomes(payload.positions, payload)
    ensures PortfolioAt(payload, currency) == Ok(TotalPnl(Outcomes(payload.positions, payload), currency) as real)
  {
    TotalIsSumOfLines(payload, currency);
  }

  lemma PositionIsItsLine(payload: Payload, currency: Currency, index: nat)
    requires Evaluate(payload).Ok? && index < |payload.positions|
    ensures PositionAt(payload, currency, index) ==
            Ok(Pnl(PositionResult(payload.positions[index], payload), currency) as real)
  {
    ValueIsSumOfLines(payload, currency);
  }

  // ----- Neutral positions

  lemma NeutralEdge(edge: FxEdge, changes: map<string, real>)
    requires forall k :: k in changes ==> changes[k] == 0.0
    ensures EdgeMultiplier(edge, changes).Ok? ==> EdgeMultiplier(edge, changes).value == 1.0
  {
  }

  lemma {:induction false} NeutralPath(path: seq<FxEdge>, changes: map<string, real>)
    requires forall k :: k in changes ==> changes[k] == 0.0
    ensures FxMultiplier(path, changes).Ok? ==> FxMultiplier(path, changes).value == 1.0
  {
    if path != [] {
      NeutralPath(path[..|path| - 1], changes);
      NeutralEdge(path[|path| - 1], changes);
    }
  }

  lemma NeutralPrice(p: Position, payload: Payload)
    requires forall k :: k in payload.shocks.yieldShifts ==> payload.shocks.yieldShifts[k] == 0.0
    ensures PriceMultiplier(p, payload, 0.0).Ok? ==> PriceMultiplier(p, payload, 0.0).value.0 == 1.0
  {
    var y := YieldReturn(p, payload);
    assert 0.0 / 10000.0 == 0.0;
    forall d, c ensures BondReturn(d, c, 0.0) == 0.0 {}
    assert y.Ok? ==> y.value == 0.0;
  }

  lemma UnchangedByOne(pre: int)
    ensures RoundHalfAway(Times(Times(pre as real, 1.0), 1.0)) == pre
  {
    RoundInteger(pre);
  }

  /** With every shock neutral each valid position keeps its value exactly. */
  lemma NeutralPosition(p: Position, payload: Payload, currency: Currency)
    ensures Pnl(PositionResult(p, PayloadFor(payload, {})), currency) == 0
  {
    var q := PayloadFor(payload, {});
    var outcome := PositionResult(p, q);
    if outcome.Valid? {
      var class_ := ClassOf(p, q.classOf.value);
      assert OrZero(PriceShock(q.shocks, class_)) == 0.0;
      assert Revalue(p, q, 0.0) == Ok(outcome);
      NeutralPrice(p, q);
      NeutralPaths(p, q.shocks.fxChanges);
      UnchangedByOne(outcome.preTry);
      UnchangedByOne(outcome.preUsd);
    }
  }

  lemma NeutralPaths(p: Position, changes: map<string, real>)
    requires forall k :: k in changes ==> changes[k] == 0.0
    ensures var d := DefaultPaths(p.nativeCurrency);
            && (PathMultiplier(p.pathTry, d.0, changes).Ok? ==> PathMultiplier(p.pathTry, d.0, changes).value == 1.0)
            && (PathMultiplier(p.pathUsd, d.1, changes).Ok? ==> PathMultiplier(p.pathUsd, d.1, changes).value == 1.0)
  {
    var d := DefaultPaths(p.nativeCurrency);
    NeutralPath(d.0, changes);
    NeutralPath(d.1, changes);
    if p.pathTry.Path? { NeutralPath(p.pathTry.edges, changes); }
    if p.pathUsd.Path? { NeutralPath(p.pathUsd.edges, changes); }
  }

  lemma {:induction false} NeutralTotal(positions: seq<Position>, payload: Payload, currency: Currency)
    ensures TotalPnl(Outcomes(positions, PayloadFor(payload, {})), currency) == 0
  {
    if positions != [] {
      var n := |positions| - 1;
      NeutralTotal(positions[..n], payload, currency);
      NeutralPosition(positions[n], payload, currency);
      var q := PayloadFor(payload, {});
      assert Outcomes(positions, q)[..n] == Outcomes(positions[..n], q);
    }
  }

  // ----- Positions no factor can move

  predicate Structural(reason: Reason) {
    reason in {InvalidInstrumentId, UnmappedFactor, UnmappedYieldCurve, BondDurationMissing, UnsupportedInstrumentType,
               FxPathMissing}
  }

  /** No return is given for the position's class, though some are. */
  ghost predicate Unmapped(p: Position, payload: Payload) {
    && payload.classOf.Some? && payload.shocks.assetReturns != map[]
    && var class_ := ClassOf(p, payload.classOf.value);
       PriceShock(payload.shocks, class_).None? && !IsCashClass(class_)
  }

  ghost predicate PathsMissing(p: Position, shocks: Shocks) {
    NeedsExplicitPaths(p, shocks) && (p.pathTry.PathAbsent? || p.pathUsd.PathAbsent?)
  }

  /** What keeps a position from being valued whatever the sizes of the shocks. */
  ghost predicate Hopeless(p: Position, payload: Payload) {
    p.instrumentId == "" || Unmapped(p, payload) || YieldReturn(p, payload).Err? || PathsMissing(p, payload.shocks)
  }

  lemma RevalueFails(p: Position, payload: Payload, priceReturn: real)
    requires YieldReturn(p, payload).Err? || PathsMissing(p, payload.shocks)
    ensures Revalue(p, payload, priceReturn).Err?
  {
  }

  lemma HopelessIsBlocked(p: Position, payload: Payload)
    requires Hopeless(p, payload)
    ensures PositionResult(p, payload).Blocked?
  {
    if payload.classOf.Some? && (YieldReturn(p, payload).Err? || PathsMissing(p, payload.shocks)) {
      RevalueFails(p, payload, OrZero(PriceShock(payload.shocks, ClassOf(p, payload.classOf.value))));
    }
  }

  lemma StoredErrors(preTry: int, preUsd: int, price: (real, real), priceReturn: real, fxTry: real, fxUsd: real)
    ensures var r := Stored(preTry, preUsd, price, priceReturn, fxTry, fxUsd);
            r.Err? ==> !Structural(r.error)
  {
  }

  /** Revaluation fails for a structural reason only by these causes. */
  lemma RevalueFailsOnlyBy(p: Position, payload: Payload, priceReturn: real)
    requires Revalue(p, payload, priceReturn).Err? && Structural(Revalue(p, payload, priceReturn).error)
    ensures YieldReturn(p, payload).Err? || PathsMissing(p, payload.shocks)
  {
    var changes, d := payload.shocks.fxChanges, DefaultPaths(p.nativeCurrency);
    PathErrorIsInput(p.pathTry, d.0, changes);
    PathErrorIsInput(p.pathUsd, d.1, changes);
    forall preTry, preUsd, price, fxTry, fxUsd
      ensures Stored(preTry, preUsd, price, priceReturn, fxTry, fxUsd).Err? ==>
                !Structural(Stored(preTry, preUsd, price, priceReturn, fxTry, fxUsd).error)
    {
      StoredErrors(preTry, preUsd, price, priceReturn, fxTry, fxUsd);
    }
  }

  lemma BlockedIsHopeless(p: Position, payload: Payload)
    requires PositionResult(p, payload).Blocked? && Structural(PositionResult(p, payload).reason)
    ensures Hopeless(p, payload)
  {
    if p.instrumentId != "" && !Unmapped(p, payload) {
      RevalueFailsOnlyBy(p, payload, OrZero(PriceShock(payload.shocks, ClassOf(p, payload.classOf.value))));
    }
  }

  lemma StaysHopeless(p: Position, payload: Payload, subset: set<string>)
    requires Hopeless(p, payload)
    ensures Hopeless(p, PayloadFor(payload, subset))
  {
    SameKeys(payload.shocks, subset);
  }

  /** A position blocked for a structural reason under all shocks is blocked under every subset of them. */
  lemma StructuralBlockPersists(p: Position, payload: Payload, subset: set<string>)
    requires PositionResult(p, payload).Blocked? && Structural(PositionResult(p, payload).reason)
    ensures PositionResult(p, PayloadFor(payload, subset)).Blocked?
  {
    BlockedIsHopeless(p, payload);
    StaysHopeless(p, payload, subset);
    HopelessIsBlocked(p, PayloadFor(payload, subset));
  }

  lemma SameKeys(shocks: Shocks, subset: set<string>)
    ensures var n := Neutralised(shocks, subset);
            && n.assetReturns.Keys == shocks.assetReturns.Keys
            && n.yieldShifts.Keys == shocks.yieldShifts.Keys
            && n.fxChanges.Keys == shocks.fxChanges.Keys
            && n.volatilityMultipliers.Keys == shocks.volatilityMultipliers.Keys
            && (n.assetReturns == map[] <==> shocks.assetReturns == map[])
            && (n.yieldShifts == map[] <==> shocks.yieldShifts == map[])
            && (n.fxChanges == map[] <==> shocks.fxChanges == map[])
            && (n.volatilityMultipliers == map[] <==> shocks.volatilityMultipliers == map[])
  {
    var n := Neutralised(shocks, subset);
    EmptyByKeys(n.assetReturns); EmptyByKeys(shocks.assetReturns);
    EmptyByKeys(n.yieldShifts); EmptyByKeys(shocks.yieldShifts);
    EmptyByKeys(n.fxChanges); EmptyByKeys(shocks.fxChanges);
    EmptyByKeys(n.volatilityMultipliers); EmptyByKeys(shocks.volatilityMultipliers);
  }

  lemma EmptyByKeys(m: map<string, real>)
    ensures m == map[] <==> m.Keys == {}
  {
    if m.Keys == {} { assert m == map[]; }
  }

  lemma {:induction false} ChainErrorIsInput(path: seq<FxEdge>, changes: map<string, real>)
    ensures FxMultiplier(path, changes).Err? ==> FxMultiplier(path, changes).error == InvalidScenarioInput
  {
    if path != [] { ChainErrorIsInput(path[..|path| - 1], changes); }
  }

  lemma PathErrorIsInput(path: FxPath, default: seq<FxEdge>, changes: map<string, real>)
    ensures PathMultiplier(path, default, changes).Err? ==>
              PathMultiplier(path, default, changes).error == InvalidScenarioInput
  {
    ChainErrorIsInput(default, changes);
    if path.Path? { ChainErrorIsInput(path.edges, changes); }
  }

  // ----- Factors that move no position

  predicate IsMetricFactor(shocks: Shocks, f: string) {
    f == TARGET_FACTOR || f == BLEND_FACTOR || exists k :: k in shocks.volatilityMultipliers && f == VolatilityFactor(k)
  }

  lemma MetricFactorsAreNoPriceFactors(shocks: Shocks, f: string, k: string)
    requires IsMetricFactor(shocks, f)
    ensures f != AssetFactor(k) && f != YieldFactor(k) && f != FxFactor(k)
  {
    assert f[0] == 'c' || f[0] == 'v';
    assert AssetFactor(k)[0] == 'a' && YieldFactor(k)[0] == 'y' && FxFactor(k)[0] == 'f';
  }

  lemma MetricFactorKeepsPrices(shocks: Shocks, f: string, S: set<string>)
    requires IsMetricFactor(shocks, f)
    ensures var a, b := Neutralised(shocks, S + {f}), Neutralised(shocks, S);
            a.assetReturns == b.assetReturns && a.yieldShifts == b.yieldShifts && a.fxChanges == b.fxChanges
  {
    forall k
      ensures (AssetFactor(k) in S + {f} <==> AssetFactor(k) in S)
    {
      MetricFactorsAreNoPriceFactors(shocks, f, k);
    }
    forall k
      ensures (YieldFactor(k) in S + {f} <==> YieldFactor(k) in S)
    {
      MetricFactorsAreNoPriceFactors(shocks, f, k);
    }
    forall k ensures (FxFactor(k) in S + {f} <==> FxFactor(k) in S) { MetricFactorsAreNoPriceFactors(shocks, f, k); }
  }

  // ----- Factors whose shock is already neutral

  /** A factor that names only shocks with the value they are neutralised to. */
  ghost predicate IsNeutral(shocks: Shocks, f: string) {
    && (forall k :: k in shocks.assetReturns && AssetFactor(k) == f ==> shocks.assetReturns[k] == 0.0)
    && (forall k :: k in shocks.yieldShifts && YieldFactor(k) == f ==> shocks.yieldShifts[k] == 0.0)
    && (forall k :: k in shocks.fxChanges && FxFactor(k) == f ==> shocks.fxChanges[k] == 0.0)
    && (forall k :: k in shocks.volatilityMultipliers && VolatilityFactor(k) == f ==>
        shocks.volatilityMultipliers[k] == 1.0)
    && (f == TARGET_FACTOR ==> shocks.correlationTarget.None?)
    && (f == BLEND_FACTOR ==> shocks.correlationBlend.None? || shocks.correlationBlend == Some(0.0))
  }

  /** Switching on a shock that is already neutral changes nothing at all. */
  lemma NeutralKeepsPayload(payload: Payload, f: string, S: set<string>, T: set<string>)
    requires IsNeutral(payload.shocks, f) && T == S + {f}
    ensures PayloadFor(payload, T) == PayloadFor(payload, S)
  {
    var a, b := Neutralised(payload.shocks, T), Neutralised(payload.shocks, S);
    assert a.assetReturns == b.assetReturns;
    assert a.yieldShifts == b.yieldShifts;
    assert a.fxChanges == b.fxChanges;
    assert a.volatilityMultipliers == b.volatilityMultipliers;
  }

  /** The two payloads differ in volatility and correlation shocks at most. */
  ghost predicate SamePrices(a: Payload, b: Payload) {
    && a == b.(shocks := a.shocks)
    && a.shocks.assetReturns == b.shocks.assetReturns
    && a.shocks.yieldShifts == b.shocks.yieldShifts
    && a.shocks.fxChanges == b.shocks.fxChanges
  }

  lemma SameMultiplier(p: Position, a: Payload, b: Payload, x: real)
    requires SamePrices(a, b)
    ensures PriceMultiplier(p, a, x) == PriceMultiplier(p, b, x)
  {
    assert YieldReturn(p, a) == YieldReturn(p, b);
  }

  lemma SameRevaluation(p: Position, a: Payload, b: Payload, x: real)
    requires SamePrices(a, b)
    ensures Revalue(p, a, x) == Revalue(p, b, x)
  {
    SameMultiplier(p, a, b, x);
  }

  /** The outcome of a position depends on the price, yield and FX shocks only. */
  lemma SamePricesSameOutcome(p: Position, a: Payload, b: Payload)
    requires SamePrices(a, b)
    ensures PositionResult(p, a) == PositionResult(p, b)
  {
    if p.instrumentId != "" && a.classOf.Some? && p.instrumentType.Some? {
      var class_ := ClassOf(p, a.classOf.value);
      assert PriceShock(a.shocks, class_) == PriceShock(b.shocks, class_);
      SameRevaluation(p, a, b, OrZero(PriceShock(a.shocks, class_)));
    }
  }

  // ----- The portfolio game as a sum of position games

  ghost function LinesTotal(payload: Payload, currency: Currency, k: nat, S: set<string>): real
    requires k <= |payload.positions|
  {
    TotalPnl(Outcomes(payload.positions[..k], PayloadFor(payload, S)), currency) as real
  }

  ghost function LinePnl(payload: Payload, currency: Currency, i: nat, S: set<string>): real
    requires i < |payload.positions|
  {
    Pnl(PositionResult(payload.positions[i], PayloadFor(payload, S)), currency) as real
  }

  ghost function LinesGame(payload: Payload, currency: Currency, k: nat): Game
    requires k <= |payload.positions|
  {
    S => LinesTotal(payload, currency, k, S)
  }

  ghost function LineGame(payload: Payload, currency: Currency, i: nat): Game
    requires i < |payload.positions|
  {
    S => LinePnl(payload, currency, i, S)
  }

  lemma LinesTotalStep(payload: Payload, currency: Currency, j: nat, k: nat, S: set<string>)
    requires k == j + 1 && k <= |payload.positions|
    ensures LinesTotal(payload, currency, k, S) ==
            LinesTotal(payload, currency, j, S) + LinePnl(payload, currency, j, S)
  {
    var q, ps := PayloadFor(payload, S), payload.positions;
    assert ps[..k][..j] == ps[..j];
    assert Outcomes(ps[..k], q)[..j] == Outcomes(ps[..j], q);
  }

  lemma NoLines(payload: Payload, currency: Currency, S: set<string>)
    ensures LinesTotal(payload, currency, 0, S) == 0.0
  {
    assert payload.positions[..0] == [];
  }

  ghost function SumAll(shares: seq<real>): real {
    if shares == [] then 0.0 else SumAll(shares[..|shares| - 1]) + shares[|shares| - 1]
  }

  ghost function LineShare(payload: Payload, currency: Currency, names: seq<string>, f: string, i: nat): real
    requires i < |payload.positions|
  {
    OrderingAverage(names, LineGame(payload, currency, i), f)
  }

  ghost function LinesShare(payload: Payload, currency: Currency, names: seq<string>, f: string, k: nat): real
    requires k <= |payload.positions|
  {
    OrderingAverage(names, LinesGame(payload, currency, k), f)
  }

  lemma LinesShareStep(payload: Payload, currency: Currency, names: seq<string>, f: string, j: nat, k: nat)
    requires Distinct(names) && f in names && k == j + 1 && k <= |payload.positions|
    ensures LinesShare(payload, currency, names, f, k) ==
            LinesShare(payload, currency, names, f, j) + LineShare(payload, currency, names, f, j)
  {
    var v, u, w := LinesGame(payload, currency, k), LinesGame(payload, currency, j), LineGame(payload, currency, j);
    forall S | S <= Elements(names) ensures v(S) == u(S) + w(S) { LinesTotalStep(payload, currency, j, k, S); }
    Additivity(names, v, u, w, f);
  }

  lemma NoLinesNoShare(payload: Payload, currency: Currency, names: seq<string>, f: string)
    requires Distinct(names) && f in names
    ensures LinesShare(payload, currency, names, f, 0) == 0.0
  {
    forall S ensures LinesGame(payload, currency, 0)(S) == 0.0 { NoLines(payload, currency, S); }
    NullPlayer(names, LinesGame(payload, currency, 0), f);
  }

  lemma {:induction false} LinesShareSplits(payload: Payload, currency: Currency, names: seq<string>, f: string,
                                            shares: seq<real>)
    requires Distinct(names) && f in names && |shares| <= |payload.positions|
    requires forall i :: 0 <= i < |shares| ==> shares[i] == LineShare(payload, currency, names, f, i)
    ensures LinesShare(payload, currency, names, f, |shares|) == SumAll(shares)
  {
    if shares == [] {
      NoLinesNoShare(payload, currency, names, f);
    } else {
      var j := |shares| - 1;
      LinesShareSplits(payload, currency, names, f, shares[..j]);
      LinesShareStep(payload, currency, names, f, j, |shares|);
    }
  }

  lemma PortfolioIsLines(payload: Payload, currency: Currency, S: set<string>)
    requires Evaluate(PayloadFor(payload, S)).Ok?
    ensures PortfolioValue(payload, currency)(S) == Ok(LinesTotal(payload, currency, |payload.positions|, S))
  {
    ValueIsSumOfLines(PayloadFor(payload, S), currency);
    assert payload.positions[..|payload.positions|] == payload.positions;
  }

  lemma PositionIsLine(payload: Payload, currency: Currency, i: nat, S: set<string>)
    requires i < |payload.positions| && Evaluate(PayloadFor(payload, S)).Ok?
    ensures PositionValue(payload, currency, i)(S) == Ok(LinePnl(payload, currency, i, S))
  {
    PositionIsItsLine(PayloadFor(payload, S), currency, i);
  }
}
