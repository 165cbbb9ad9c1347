/** What the engine makes of one position, told by the fields of the payload: its amounts, or why it has none. */
module ScenarioMeaning {
  import opened Results
  import opened Decimals
  import opened Scenario

  // ----- The shocks that apply

  /** The class of a position: the one its instrument is mapped to, or its own if it is not mapped. */
  ghost predicate HasClass(p: Position, payload: Payload, c: AssetClass) {
    && payload.classOf.Some?
    && (p.instrumentId in payload.classOf.value ==> c == payload.classOf.value[p.instrumentId])
    && (p.instrumentId !in payload.classOf.value ==> c == p.assetClass)
  }

  /** The return of a class: none may be missing where some are given, except for cash. */
  ghost predicate Returns(c: AssetClass, shocks: Shocks, x: real) {
    if c.Class? && c.name in shocks.assetReturns then x == shocks.assetReturns[c.name]
    else x == 0.0 && (shocks.assetReturns == map[] || c == Class("cash") || c == Class("currency"))
  }

  ghost predicate Convexity(p: Position, payload: Payload, c: real) {
    p.convexity == Number(c) || (p.convexity.Absent? && payload.convexityWhenAbsent == Number(c))
  }

  ghost predicate IsBond(p: Position) {
    p.instrumentType == Some("fixed_rate_bond")
  }

  ghost predicate IsSpot(p: Position) {
    && p.instrumentType.Some?
    && p.instrumentType.value in {"spot", "crypto_spot", "equity_spot", "manual_spot", "cash", "currency"}
  }

  /** The yield shift that applies to a bond, in basis points. */
  ghost predicate Shifted(p: Position, payload: Payload) {
    p.nativeCurrency.Some? && p.nativeCurrency.value in payload.shocks.yieldShifts
  }

  /** The yield return: second order in the shift for a bond, none for what trades at spot. */
  ghost predicate Yields(p: Position, payload: Payload, c: real, y: real) {
    if IsBond(p) && Shifted(p, payload) then
      var delta := payload.shocks.yieldShifts[p.nativeCurrency.value] / 10000.0;
      p.duration.Number? && Convexity(p, payload, c) && y == -p.duration.value * delta + 0.5 * c * (delta * delta)
    else y == 0.0 && (IsSpot(p) || (IsBond(p) && payload.shocks.yieldShifts == map[]))
  }

  // ----- FX paths

  ghost function Change(pair: string, changes: map<string, real>): real {
    if pair in changes then changes[pair] else 0.0
  }

  ghost predicate Walkable(path: seq<FxEdge>, changes: map<string, real>) {
    forall i :: 0 <= i < |path| ==>
      && !path[i].MalformedEdge? && (path[i].direction == "direct" || path[i].direction == "inverse")
      && 1.0 + Change(path[i].pair, changes) > 0.0
  }

  /** How much a path's rate changes: by a pair's change along a direct edge, by its reciprocal along an inverse. */
  ghost function RateChange(path: seq<FxEdge>, changes: map<string, real>): real
    requires Walkable(path, changes)
  {
    if path == [] then 1.0
    else
      var last := path[|path| - 1];
      var rate := 1.0 + Change(last.pair, changes);
      Times(RateChange(path[..|path| - 1], changes), if last.direction == "direct" then rate else 1.0 / rate)
  }

  lemma {:induction false} MultiplierIs(path: seq<FxEdge>, changes: map<string, real>)
    ensures FxMultiplier(path, changes).Ok? <==> Walkable(path, changes)
    ensures Walkable(path, changes) ==> FxMultiplier(path, changes) == Ok(RateChange(path, changes))
  {
    if path != [] {
      var n := |path| - 1;
      MultiplierIs(path[..n], changes);
      if Walkable(path[..n], changes) {
        assert Walkable(path, changes) <==> Walkable([path[n]], changes) by {
          assert [path[n]][0] == path[n];
          forall i | 0 <= i < n ensures path[..n][i] == path[i] {}
        }
      }
    }
  }

  /** The paths a position is converted along: the ones it names, and for TRY and USD the one pair between them. */
  ghost predicate Paths(p: Position, toTry: seq<FxEdge>, toUsd: seq<FxEdge>) {
    && (p.pathTry.Path? ==> toTry == p.pathTry.edges)
    && (p.pathUsd.Path? ==> toUsd == p.pathUsd.edges)
    && (p.pathTry.PathAbsent? && p.nativeCurrency == Some("USD") ==> toTry == [FxEdge("USD/TRY", "direct")])
    && (p.pathUsd.PathAbsent? && p.nativeCurrency == Some("TRY") ==> toUsd == [FxEdge("USD/TRY", "inverse")])
    && (p.pathTry.PathAbsent? && p.nativeCurrency != Some("USD") ==> toTry == [])
    && (p.pathUsd.PathAbsent? && p.nativeCurrency != Some("TRY") ==> toUsd == [])
  }

  /** A position in a third currency must name both its paths once any rate is shocked. */
  ghost predicate LacksPath(p: Position, payload: Payload) {
    && payload.shocks.fxChanges != map[] && p.nativeCurrency != Some("TRY") && p.nativeCurrency != Some("USD")
    && (p.pathTry.PathAbsent? || p.pathUsd.PathAbsent?)
  }

  // ----- Amounts

  /** A number of units stored to the nearest one, in 38 digits. */
  ghost predicate StoredAs(exact: real, units: int) {
    units == RoundHalfAway(exact) && -STORAGE_LIMIT < units < STORAGE_LIMIT
  }

  /** The numbers that go into a valid outcome. */
  datatype Parts = Parts(class_: AssetClass, x: real, convexity: real, y: real, toTry: seq<FxEdge>, toUsd: seq<FxEdge>)

  /** Whether shocks of these sizes apply to a position and leave it a price. */
  ghost predicate Applies(p: Position, payload: Payload, q: Parts) {
    && p.instrumentId != "" && p.instrumentType.Some? && HasClass(p, payload, q.class_) && !q.class_.MalformedClass?
    && Returns(q.class_, payload.shocks, q.x) && 1.0 + q.x >= 0.0
    && Yields(p, payload, q.convexity, q.y) && Times(1.0 + q.x, 1.0 + q.y) >= 0.0
    && !LacksPath(p, payload) && !p.pathTry.PathMalformed? && !p.pathUsd.PathMalformed? && Paths(p, q.toTry, q.toUsd)
    && Walkable(q.toTry, payload.shocks.fxChanges) && Walkable(q.toUsd, payload.shocks.fxChanges)
  }

  /** The amounts of a valid outcome: what was sealed, times the price factor, times the change of the path's rate. */
  ghost predicate Amounts(p: Position, o: Outcome, factor: real, q: Parts, t: real, u: real) {
    && o.Valid? && p.valueTry.Number? && p.valueUsd.Number?
    && StoredAs(p.valueTry.value * SCALE, o.preTry) && StoredAs(p.valueUsd.value * SCALE, o.preUsd)
    && StoredAs(Times(Times(o.preTry as real, factor), t), o.postTry)
    && StoredAs(Times(Times(o.preUsd as real, factor), u), o.postUsd)
    && o.pnlTry == o.postTry - o.preTry && o.pnlUsd == o.postUsd - o.preUsd
    && StoredAs(q.x * SCALE, o.priceReturn) && StoredAs(q.y * SCALE, o.yieldReturn)
    && StoredAs(t * SCALE, o.fxTry) && StoredAs(u * SCALE, o.fxUsd)
  }

  ghost predicate ValuedBy(p: Position, payload: Payload, o: Outcome, q: Parts) {
    && Applies(p, payload, q)
    && Amounts(p, o, Times(1.0 + q.x, 1.0 + q.y), q,
               RateChange(q.toTry, payload.shocks.fxChanges), RateChange(q.toUsd, payload.shocks.fxChanges))
  }

  // ----- The engine's functions in these terms

  lemma ClassIs(p: Position, payload: Payload, c: AssetClass)
    requires payload.classOf.Some?
    ensures HasClass(p, payload, c) <==> ClassOf(p, payload.classOf.value) == c
  {
  }

  ghost predicate ClassUncovered(c: AssetClass, shocks: Shocks) {
    shocks.assetReturns != map[] && PriceShock(shocks, c).None? && !IsCashClass(c)
  }

  lemma ReturnIs(c: AssetClass, shocks: Shocks, x: real)
    ensures Returns(c, shocks, x) <==> !ClassUncovered(c, shocks) && OrZero(PriceShock(shocks, c)) == x
  {
  }

  lemma YieldIs(p: Position, payload: Payload, c: real, y: real)
    requires Yields(p, payload, c, y)
    ensures YieldReturn(p, payload) == Ok(y)
  {
    if IsBond(p) && Shifted(p, payload) {
      var delta := payload.shocks.yieldShifts[p.nativeCurrency.value] / 10000.0;
      assert NumberOf(if p.convexity.Absent? then payload.convexityWhenAbsent else p.convexity) == Ok(c);
      assert y == BondReturn(p.duration.value, c, delta);
    }
  }

  lemma YieldFrom(p: Position, payload: Payload) returns (c: real)
    requires YieldReturn(p, payload).Ok?
    ensures Yields(p, payload, c, YieldReturn(p, payload).value)
  {
    var field := if p.convexity.Absent? then payload.convexityWhenAbsent else p.convexity;
    c := if field.Number? then field.value else 0.0;
    if IsBond(p) && Shifted(p, payload) {
      assert p.duration.Number? && field == Number(c);
      assert YieldReturn(p, payload) ==
             Ok(BondReturn(p.duration.value, c, payload.shocks.yieldShifts[p.nativeCurrency.value] / 10000.0));
    }
  }

  lemma PathsAre(p: Position, toTry: seq<FxEdge>, toUsd: seq<FxEdge>, changes: map<string, real>)
    requires Paths(p, toTry, toUsd) && !p.pathTry.PathMalformed? && !p.pathUsd.PathMalformed?
    ensures PathMultiplier(p.pathTry, DefaultPaths(p.nativeCurrency).0, changes) == FxMultiplier(toTry, changes)
    ensures PathMultiplier(p.pathUsd, DefaultPaths(p.nativeCurrency).1, changes) == FxMultiplier(toUsd, changes)
  {
  }

  lemma StoredIs(preTry: int, preUsd: int, factor: real, q: Parts, t: real, u: real, o: Outcome)
    requires o.Valid? && o.preTry == preTry && o.preUsd == preUsd
    ensures Stored(preTry, preUsd, (factor, q.y), q.x, t, u) == Ok(o) <==>
              && StoredAs(Times(Times(preTry as real, factor), t), o.postTry)
              && StoredAs(Times(Times(preUsd as real, factor), u), o.postUsd)
              && o.pnlTry == o.postTry - o.preTry && o.pnlUsd == o.postUsd - o.preUsd
              && StoredAs(q.x * SCALE, o.priceReturn) && StoredAs(q.y * SCALE, o.yieldReturn)
              && StoredAs(t * SCALE, o.fxTry) && StoredAs(u * SCALE, o.fxUsd)
  {
  }

  lemma AppliedPrice(p: Position, payload: Payload, q: Parts)
    requires Applies(p, payload, q)
    ensures PriceMultiplier(p, payload, q.x) == Ok((Times(1.0 + q.x, 1.0 + q.y), q.y))
    ensures payload.classOf.Some? && ClassOf(p, payload.classOf.value) == q.class_
    ensures !ClassUncovered(q.class_, payload.shocks) && OrZero(PriceShock(payload.shocks, q.class_)) == q.x
  {
    YieldIs(p, payload, q.convexity, q.y);
    ClassIs(p, payload, q.class_);
    ReturnIs(q.class_, payload.shocks, q.x);
  }

  /** Once the shocks apply, what is left is whether the amounts can be stored. */
  lemma AppliedRevaluation(p: Position, payload: Payload, q: Parts, preTry: int, preUsd: int)
    requires Applies(p, payload, q) && QuantizeField(p.valueTry) == Ok(preTry)
    requires QuantizeField(p.valueUsd) == Ok(preUsd)
    ensures var changes := payload.shocks.fxChanges;
            Revalue(p, payload, q.x) ==
            Stored(preTry, preUsd, (Times(1.0 + q.x, 1.0 + q.y), q.y), q.x,
                   RateChange(q.toTry, changes), RateChange(q.toUsd, changes))
  {
    AppliedPrice(p, payload, q);
    PathsAre(p, q.toTry, q.toUsd, payload.shocks.fxChanges);
    MultiplierIs(q.toTry, payload.shocks.fxChanges);
    MultiplierIs(q.toUsd, payload.shocks.fxChanges);
  }

  lemma AppliedResult(p: Position, payload: Payload, q: Parts)
    requires Applies(p, payload, q)
    ensures var r := Revalue(p, payload, q.x);
            PositionResult(p, payload) == if r.Ok? then r.value else Blocked(r.error)
  {
    AppliedPrice(p, payload, q);
  }

  lemma FieldIs(field: Field, units: int)
    ensures QuantizeField(field) == Ok(units) <==> field.Number? && StoredAs(field.value * SCALE, units)
  {
  }

  /** The same amounts by the engine's own steps. */
  lemma AmountsAreStored(p: Position, o: Outcome, factor: real, q: Parts, t: real, u: real)
    requires o.Valid?
    ensures Amounts(p, o, factor, q, t, u) <==>
              && QuantizeField(p.valueTry) == Ok(o.preTry) && QuantizeField(p.valueUsd) == Ok(o.preUsd)
              && Stored(o.preTry, o.preUsd, (factor, q.y), q.x, t, u) == Ok(o)
  {
    FieldIs(p.valueTry, o.preTry);
    FieldIs(p.valueUsd, o.preUsd);
    StoredIs(o.preTry, o.preUsd, factor, q, t, u, o);
  }

  lemma ValuedIsResult(p: Position, payload: Payload, o: Outcome, q: Parts)
    requires ValuedBy(p, payload, o, q)
    ensures PositionResult(p, payload) == o
  {
    var changes := payload.shocks.fxChanges;
    AmountsAreStored(p, o, Times(1.0 + q.x, 1.0 + q.y), q, RateChange(q.toTry, changes), RateChange(q.toUsd, changes));
    AppliedResult(p, payload, q);
    AppliedRevaluation(p, payload, q, o.preTry, o.preUsd);
  }

  /** The parts behind a valid result. */
  lemma ResultApplies(p: Position, payload: Payload) returns (q: Parts)
    requires PositionResult(p, payload).Valid?
    ensures Applies(p, payload, q)
  {
    var class_, x := ResultPriced(p, payload);
    var c := YieldFrom(p, payload);
    var toTry := if p.pathTry.Path? then p.pathTry.edges else DefaultPaths(p.nativeCurrency).0;
    var toUsd := if p.pathUsd.Path? then p.pathUsd.edges else DefaultPaths(p.nativeCurrency).1;
    RevaluedWalks(p, payload, x, toTry, toUsd);
    q := Parts(class_, x, c, YieldReturn(p, payload).value, toTry, toUsd);
  }

  lemma ResultPriced(p: Position, payload: Payload) returns (class_: AssetClass, x: real)
    requires PositionResult(p, payload).Valid?
    ensures p.instrumentId != "" && p.instrumentType.Some? && HasClass(p, payload, class_) && !class_.MalformedClass?
    ensures Returns(class_, payload.shocks, x) && Revalue(p, payload, x).Ok?
    ensures 1.0 + x >= 0.0 && YieldReturn(p, payload).Ok? && Times(1.0 + x, 1.0 + YieldReturn(p, payload).value) >= 0.0
  {
    class_ := ClassOf(p, payload.classOf.value);
    x := OrZero(PriceShock(payload.shocks, class_));
    assert Revalue(p, payload, x) == Ok(PositionResult(p, payload));
    assert PriceMultiplier(p, payload, x).Ok?;
    ClassIs(p, payload, class_);
    ReturnIs(class_, payload.shocks, x);
  }

  lemma RevaluedWalks(p: Position, payload: Payload, x: real, toTry: seq<FxEdge>, toUsd: seq<FxEdge>)
    requires Revalue(p, payload, x).Ok?
    requires toTry == (if p.pathTry.Path? then p.pathTry.edges else DefaultPaths(p.nativeCurrency).0)
    requires toUsd == (if p.pathUsd.Path? then p.pathUsd.edges else DefaultPaths(p.nativeCurrency).1)
    ensures !LacksPath(p, payload) && !p.pathTry.PathMalformed? && !p.pathUsd.PathMalformed?
    ensures Walkable(toTry, payload.shocks.fxChanges) && Walkable(toUsd, payload.shocks.fxChanges)
    ensures Paths(p, toTry, toUsd)
  {
    MultiplierIs(toTry, payload.shocks.fxChanges);
    MultiplierIs(toUsd, payload.shocks.fxChanges);
  }

  lemma ResultIsValued(p: Position, payload: Payload) returns (q: Parts)
    requires PositionResult(p, payload).Valid?
    ensures ValuedBy(p, payload, PositionResult(p, payload), q)
  {
    var o, changes := PositionResult(p, payload), payload.shocks.fxChanges;
    q := ResultApplies(p, payload);
    AppliedResult(p, payload, q);
    PreIsStored(p, payload, q.x);
    AppliedRevaluation(p, payload, q, o.preTry, o.preUsd);
    AmountsAreStored(p, o, Times(1.0 + q.x, 1.0 + q.y), q, RateChange(q.toTry, changes), RateChange(q.toUsd, changes));
  }

  lemma PreIsStored(p: Position, payload: Payload, x: real)
    requires Revalue(p, payload, x).Ok?
    ensures var o := Revalue(p, payload, x).value;
            o.Valid? && QuantizeField(p.valueTry) == Ok(o.preTry) && QuantizeField(p.valueUsd) == Ok(o.preUsd)
  {
  }

  /** A position is valid with certain amounts exactly when the shocks apply to it and leave these amounts. */
  lemma ValidExactly(p: Position, payload: Payload, o: Outcome)
    requires o.Valid?
    ensures PositionResult(p, payload) == o <==> exists q :: ValuedBy(p, payload, o, q)
  {
    if PositionResult(p, payload) == o {
      var q := ResultIsValued(p, payload);
    }
    if q :| ValuedBy(p, payload, o, q) {
      ValuedIsResult(p, payload, o, q);
    }
  }

  // ----- Why a position is blocked

  /** An instrument with a type and a class. */
  ghost predicate Typed(p: Position, payload: Payload, c: AssetClass) {
    p.instrumentId != "" && p.instrumentType.Some? && HasClass(p, payload, c) && !c.MalformedClass?
  }

  /** A typed instrument whose class has a return that leaves it a price. */
  ghost predicate Mapped(p: Position, payload: Payload, c: AssetClass, x: real) {
    Typed(p, payload, c) && Returns(c, payload.shocks, x)
  }

  ghost predicate Sealed(field: Field) {
    field.Number? && -STORAGE_LIMIT < RoundHalfAway(field.value * SCALE) < STORAGE_LIMIT
  }

  /** As far as its yield: what was sealed can be read, and its class leaves it a price. */
  ghost predicate Priced(p: Position, payload: Payload, c: AssetClass, x: real) {
    Mapped(p, payload, c, x) && Sealed(p.valueTry) && Sealed(p.valueUsd) && 1.0 + x >= 0.0
  }

  /** A sealed amount that is a number too long to store, the one in TRY first. */
  ghost predicate SealedTooLong(p: Position) {
    if p.valueTry.Number? && !Sealed(p.valueTry) then true
    else Sealed(p.valueTry) && p.valueUsd.Number? && !Sealed(p.valueUsd)
  }

  ghost predicate Uncovered(c: AssetClass, shocks: Shocks) {
    && shocks.assetReturns != map[] && !(c.Class? && c.name in shocks.assetReturns)
    && c != Class("cash") && c != Class("currency")
  }

  /** The ways in which a position fails for want of a mapping, a type, a duration or a path. */
  ghost predicate Lacks(p: Position, payload: Payload, reason: Reason) {
    match reason
    case InvalidInstrumentId => p.instrumentId == ""
    case UnmappedFactor => exists c :: Typed(p, payload, c) && Uncovered(c, payload.shocks)
    case UnmappedYieldCurve =>
      && (exists c, x :: Priced(p, payload, c, x))
      && IsBond(p) && !Shifted(p, payload) && payload.shocks.yieldShifts != map[]
    case BondDurationMissing =>
      && (exists c, x :: Priced(p, payload, c, x))
      && IsBond(p) && Shifted(p, payload) && p.duration.Absent?
    case UnsupportedInstrumentType => (exists c, x :: Priced(p, payload, c, x)) && !IsBond(p) && !IsSpot(p)
    case FxPathMissing =>
      && LacksPath(p, payload)
      && exists c, x, v, y :: Priced(p, payload, c, x) && Yields(p, payload, v, y) && Times(1.0 + x, 1.0 + y) >= 0.0
    case _ => false
  }

  lemma SealedIs(field: Field)
    ensures Sealed(field) <==> QuantizeField(field).Ok?
  {
  }

  lemma UncoveredIs(c: AssetClass, shocks: Shocks)
    ensures Uncovered(c, shocks) <==> ClassUncovered(c, shocks)
    ensures Uncovered(c, shocks) <==> !Returns(c, shocks, OrZero(PriceShock(shocks, c)))
  {
  }

  /** Before a position is revalued. */
  lemma BlockedEarly(p: Position, payload: Payload)
    ensures PositionResult(p, payload) == Blocked(InvalidInstrumentId) <==> Lacks(p, payload, InvalidInstrumentId)
    ensures PositionResult(p, payload) == Blocked(UnmappedFactor) <==> Lacks(p, payload, UnmappedFactor)
  {
    if payload.classOf.Some? {
      var c := ClassOf(p, payload.classOf.value);
      ClassIs(p, payload, c);
      UncoveredIs(c, payload.shocks);
      RevalueReasons(p, payload, OrZero(PriceShock(payload.shocks, c)));
    }
  }

  lemma PathReason(path: seq<FxEdge>, changes: map<string, real>)
    ensures FxMultiplier(path, changes).Err? ==> FxMultiplier(path, changes).error == InvalidScenarioInput
    decreases |path|
  {
    if path != [] { PathReason(path[..|path| - 1], changes); }
  }

  lemma StoredReason(preTry: int, preUsd: int, price: (real, real), x: real, t: real, u: real)
    ensures var r := Stored(preTry, preUsd, price, x, t, u);
            r.Err? ==> r.error == OutputOutOfBounds
  {
  }

  lemma YieldReason(p: Position, payload: Payload)
    ensures var r := YieldReturn(p, payload);
            && (r == Err(UnmappedYieldCurve) <==>
                IsBond(p) && !Shifted(p, payload) && payload.shocks.yieldShifts != map[])
            && (r == Err(BondDurationMissing) <==> IsBond(p) && Shifted(p, payload) && p.duration.Absent?)
            && (r == Err(UnsupportedInstrumentType) <==> !IsBond(p) && !IsSpot(p))
            && (r.Err? ==> r.error in {UnmappedYieldCurve, BondDurationMissing, UnsupportedInstrumentType,
                                       InvalidScenarioInput})
  {
  }

  ghost predicate Numeric(reason: Reason) {
    reason == InvalidScenarioInput || reason == OutputOutOfBounds
  }

  lemma PriceReason(p: Position, payload: Payload, x: real)
    ensures var price, y := PriceMultiplier(p, payload, x), YieldReturn(p, payload);
            price ==
            if 1.0 + x < 0.0 then Err(InvalidScenarioInput)
            else if y.Err? then Err(y.error)
            else if Times(1.0 + x, 1.0 + y.value) < 0.0 then Err(InvalidScenarioInput)
            else Ok((Times(1.0 + x, 1.0 + y.value), y.value))
  {
  }

  lemma PathsReason(p: Position, changes: map<string, real>)
    ensures var t, u := PathMultiplier(p.pathTry, DefaultPaths(p.nativeCurrency).0, changes),
                        PathMultiplier(p.pathUsd, DefaultPaths(p.nativeCurrency).1, changes);
            (t.Err? ==> t.error == InvalidScenarioInput) && (u.Err? ==> u.error == InvalidScenarioInput)
  {
    PathReason(DefaultPaths(p.nativeCurrency).0, changes);
    PathReason(DefaultPaths(p.nativeCurrency).1, changes);
    if p.pathTry.Path? { PathReason(p.pathTry.edges, changes); }
    if p.pathUsd.Path? { PathReason(p.pathUsd.edges, changes); }
  }

  /** A revaluation fails first for its amounts, then for its price, then for its paths and what is to be stored. */
  lemma RevalueStages(p: Position, payload: Payload, x: real)
    ensures var r, price := Revalue(p, payload, x), PriceMultiplier(p, payload, x);
            if QuantizeField(p.valueTry).Err? || QuantizeField(p.valueUsd).Err? then r.Err? && Numeric(r.error)
            else if price.Err? then r == Err(price.error)
            else if LacksPath(p, payload) then r == Err(FxPathMissing)
            else r.Ok? || Numeric(r.error)
  {
    PathsReason(p, payload.shocks.fxChanges);
    forall preTry, preUsd, price, t, u
      ensures Stored(preTry, preUsd, price, x, t, u).Ok? ||
              Stored(preTry, preUsd, price, x, t, u).error == OutputOutOfBounds
    {
      StoredReason(preTry, preUsd, price, x, t, u);
    }
  }

  /** What a revaluation fails for. */
  lemma RevalueReasons(p: Position, payload: Payload, x: real)
    ensures var r, y := Revalue(p, payload, x), YieldReturn(p, payload);
            var ready := Sealed(p.valueTry) && Sealed(p.valueUsd) && 1.0 + x >= 0.0;
            && (r.Err? ==> r.error != InvalidInstrumentId && r.error != UnmappedFactor)
            && (r == Err(UnmappedYieldCurve) <==> ready && y == Err(UnmappedYieldCurve))
            && (r == Err(BondDurationMissing) <==> ready && y == Err(BondDurationMissing))
            && (r == Err(UnsupportedInstrumentType) <==> ready && y == Err(UnsupportedInstrumentType))
            && (r == Err(FxPathMissing) <==>
                  ready && y.Ok? && Times(1.0 + x, 1.0 + y.value) >= 0.0 && LacksPath(p, payload))
  {
    SealedIs(p.valueTry);
    SealedIs(p.valueUsd);
    YieldReason(p, payload);
    PriceReason(p, payload, x);
    RevalueStages(p, payload, x);
  }

  lemma LaterReasons(p: Position, payload: Payload, c: AssetClass, x: real, reason: Reason)
    requires reason != InvalidInstrumentId && reason != UnmappedFactor && Mapped(p, payload, c, x)
    ensures PositionResult(p, payload) == Blocked(reason) <==> Revalue(p, payload, x) == Err(reason)
  {
    ClassIs(p, payload, c);
    ReturnIs(c, payload.shocks, x);
    UncoveredIs(c, payload.shocks);
  }

  lemma YieldBothWays(p: Position, payload: Payload, v: real, y: real)
    ensures Yields(p, payload, v, y) ==> YieldReturn(p, payload) == Ok(y)
  {
    if Yields(p, payload, v, y) { YieldIs(p, payload, v, y); }
  }

  lemma LacksFor(p: Position, payload: Payload, c: AssetClass, x: real, reason: Reason)
    requires reason in {UnmappedYieldCurve, BondDurationMissing, UnsupportedInstrumentType, FxPathMissing}
    requires Mapped(p, payload, c, x) && Revalue(p, payload, x) == Err(reason)
    ensures Lacks(p, payload, reason)
  {
    RevalueReasons(p, payload, x);
    YieldReason(p, payload);
    assert Priced(p, payload, c, x);
    if reason == FxPathMissing {
      var v := YieldFrom(p, payload);
      assert Priced(p, payload, c, x) && Yields(p, payload, v, YieldReturn(p, payload).value);
    }
  }

  lemma PricedLacks(p: Position, payload: Payload, c: AssetClass, x: real, reason: Reason)
    requires reason in {UnmappedYieldCurve, BondDurationMissing, UnsupportedInstrumentType} && Priced(p, payload, c, x)
    requires Lacks(p, payload, reason)
    ensures Revalue(p, payload, x) == Err(reason)
  {
    RevalueReasons(p, payload, x);
    YieldReason(p, payload);
  }

  lemma PathLacks(p: Position, payload: Payload, c: AssetClass, x: real, v: real, y: real)
    requires LacksPath(p, payload) && Priced(p, payload, c, x) && Yields(p, payload, v, y)
    requires Times(1.0 + x, 1.0 + y) >= 0.0
    ensures Revalue(p, payload, x) == Err(FxPathMissing)
  {
    RevalueReasons(p, payload, x);
    YieldBothWays(p, payload, v, y);
  }

  lemma LacksBlocks(p: Position, payload: Payload, reason: Reason)
    requires reason in {UnmappedYieldCurve, BondDurationMissing, UnsupportedInstrumentType, FxPathMissing}
    requires Lacks(p, payload, reason)
    ensures PositionResult(p, payload) == Blocked(reason)
  {
    if reason == FxPathMissing {
      var c, x, v, y :| Priced(p, payload, c, x) && Yields(p, payload, v, y) && Times(1.0 + x, 1.0 + y) >= 0.0;
      PathLacks(p, payload, c, x, v, y);
      LaterReasons(p, payload, c, x, reason);
    } else {
      var c, x :| Priced(p, payload, c, x);
      PricedLacks(p, payload, c, x, reason);
      LaterReasons(p, payload, c, x, reason);
    }
  }

  lemma LateIsMapped(p: Position, payload: Payload, reason: Reason) returns (c: AssetClass, x: real)
    requires reason != InvalidInstrumentId && reason != UnmappedFactor && reason != InvalidScenarioInput
    requires PositionResult(p, payload) == Blocked(reason)
    ensures Mapped(p, payload, c, x)
  {
    c := ClassOf(p, payload.classOf.value);
    x := OrZero(PriceShock(payload.shocks, c));
    ClassIs(p, payload, c);
    UncoveredIs(c, payload.shocks);
    ReturnIs(c, payload.shocks, x);
  }

  /** A position is blocked for each of these reasons exactly when it lacks what the reason names. */
  lemma BlockedExactly(p: Position, payload: Payload, reason: Reason)
    requires reason != InvalidScenarioInput && reason != OutputOutOfBounds
    ensures PositionResult(p, payload) == Blocked(reason) <==> Lacks(p, payload, reason)
  {
    if reason == InvalidInstrumentId || reason == UnmappedFactor {
      BlockedEarly(p, payload);
    } else {
      if PositionResult(p, payload) == Blocked(reason) {
        var c, x := LateIsMapped(p, payload, reason);
        LaterReasons(p, payload, c, x, reason);
        LacksFor(p, payload, c, x, reason);
      }
      if Lacks(p, payload, reason) { LacksBlocks(p, payload, reason); }
    }
  }

  lemma FieldReason(field: Field)
    ensures Sealed(field) ==> QuantizeField(field).Ok?
    ensures !Sealed(field) ==>
              QuantizeField(field) == Err(if field.Number? then OutputOutOfBounds else InvalidScenarioInput)
  {
  }

  lemma TooLongRevalued(p: Position, payload: Payload, x: real)
    ensures SealedTooLong(p) ==> Revalue(p, payload, x) == Err(OutputOutOfBounds)
    ensures Revalue(p, payload, x) == Err(OutputOutOfBounds) && !SealedTooLong(p) ==>
              && Sealed(p.valueTry) && Sealed(p.valueUsd) && PriceMultiplier(p, payload, x).Ok?
              && !LacksPath(p, payload)
              && PathMultiplier(p.pathTry, DefaultPaths(p.nativeCurrency).0, payload.shocks.fxChanges).Ok?
              && PathMultiplier(p.pathUsd, DefaultPaths(p.nativeCurrency).1, payload.shocks.fxChanges).Ok?
  {
    FieldReason(p.valueTry);
    FieldReason(p.valueUsd);
    YieldReason(p, payload);
    PriceReason(p, payload, x);
    PathsReason(p, payload.shocks.fxChanges);
  }

  /** A price and two paths that can be walked are shocks that apply. */
  lemma AppliesFrom(p: Position, payload: Payload, c: AssetClass, x: real) returns (q: Parts)
    requires Mapped(p, payload, c, x) && PriceMultiplier(p, payload, x).Ok? && !LacksPath(p, payload)
    requires PathMultiplier(p.pathTry, DefaultPaths(p.nativeCurrency).0, payload.shocks.fxChanges).Ok?
    requires PathMultiplier(p.pathUsd, DefaultPaths(p.nativeCurrency).1, payload.shocks.fxChanges).Ok?
    ensures Applies(p, payload, q)
  {
    PriceReason(p, payload, x);
    var v := YieldFrom(p, payload);
    var toTry := if p.pathTry.Path? then p.pathTry.edges else DefaultPaths(p.nativeCurrency).0;
    var toUsd := if p.pathUsd.Path? then p.pathUsd.edges else DefaultPaths(p.nativeCurrency).1;
    MultiplierIs(toTry, payload.shocks.fxChanges);
    MultiplierIs(toUsd, payload.shocks.fxChanges);
    q := Parts(c, x, v, YieldReturn(p, payload).value, toTry, toUsd);
  }

  lemma AppliesTooLong(p: Position, payload: Payload, q: Parts)
    requires Applies(p, payload, q) && Sealed(p.valueTry) && Sealed(p.valueUsd) && PositionResult(p, payload).Blocked?
    ensures PositionResult(p, payload) == Blocked(OutputOutOfBounds)
  {
    var changes := payload.shocks.fxChanges;
    var preTry, preUsd := QuantizeField(p.valueTry).value, QuantizeField(p.valueUsd).value;
    AppliedResult(p, payload, q);
    AppliedRevaluation(p, payload, q, preTry, preUsd);
    StoredReason(preTry, preUsd, (Times(1.0 + q.x, 1.0 + q.y), q.y), q.x, RateChange(q.toTry, changes),
                 RateChange(q.toUsd, changes));
  }

  /** A number is too long to be stored: a sealed one, or, though the shocks apply, one of those they lead to. */
  ghost predicate TooLong(p: Position, payload: Payload) {
    || (SealedTooLong(p) && exists c, x :: Mapped(p, payload, c, x))
    || (Sealed(p.valueTry) && Sealed(p.valueUsd) && PositionResult(p, payload).Blocked?
        && exists q :: Applies(p, payload, q))
  }

  /** Exactly for such a number a position is out of bounds; any other failure is one of its input. */
  lemma TooLongExactly(p: Position, payload: Payload)
    ensures PositionResult(p, payload) == Blocked(OutputOutOfBounds) <==> TooLong(p, payload)
  {
    if PositionResult(p, payload) == Blocked(OutputOutOfBounds) {
      var c, x := LateIsMapped(p, payload, OutputOutOfBounds);
      LaterReasons(p, payload, c, x, OutputOutOfBounds);
      TooLongRevalued(p, payload, x);
      if !SealedTooLong(p) { var q := AppliesFrom(p, payload, c, x); }
    }
    if TooLong(p, payload) { TooLongBlocks(p, payload); }
  }

  lemma TooLongBlocks(p: Position, payload: Payload)
    requires TooLong(p, payload)
    ensures PositionResult(p, payload) == Blocked(OutputOutOfBounds)
  {
    if c, x :| SealedTooLong(p) && Mapped(p, payload, c, x) {
      TooLongRevalued(p, payload, x);
      LaterReasons(p, payload, c, x, OutputOutOfBounds);
    } else {
      var q :| Applies(p, payload, q);
      AppliesTooLong(p, payload, q);
    }
  }
}
