/** What the scenario engine's arithmetic means: positions marked to market at shocked prices and rates. */
module Revaluation {
  import opened Results
  import opened Decimals
  import opened Scenario

  // ----- FX paths

  /** Converting along an edge at given rates: a pair's rate, or one over it. */
  ghost function EdgeRate(edge: FxEdge, rates: map<string, real>): real
    requires Quoted(edge, rates)
  {
    if edge.direction == "direct" then rates[edge.pair] else 1.0 / rates[edge.pair]
  }

  /** A well-formed edge over a pair with a positive rate. */
  ghost predicate Quoted(edge: FxEdge, rates: map<string, real>) {
    && !edge.MalformedEdge? && (edge.direction == "direct" || edge.direction == "inverse")
    && edge.pair in rates && rates[edge.pair] > 0.0
  }

  ghost predicate AllQuoted(path: seq<FxEdge>, rates: map<string, real>) {
    forall i :: 0 <= i < |path| ==> Quoted(path[i], rates)
  }

  /** The rate of a whole path. */
  ghost function PathRate(path: seq<FxEdge>, rates: map<string, real>): real
    requires AllQuoted(path, rates)
  {
    if path == [] then 1.0 else Times(PathRate(path[..|path| - 1], rates), EdgeRate(path[|path| - 1], rates))
  }

  /** The rates after the FX shocks; a pair without a shock keeps its rate. */
  ghost function Shocked(rates: map<string, real>, changes: map<string, real>): map<string, real> {
    map pair | pair in rates :: Times(rates[pair], RateMultiplier(changes, pair))
  }

  lemma PositiveTimes(x: real, y: real)
    requires x > 0.0 && y > 0.0
    ensures Times(x, y) > 0.0 && Times(1.0 / x, 1.0 / y) == 1.0 / Times(x, y)
  {
    var p, q := 1.0 / x, 1.0 / y;
    assert p * x == 1.0 && q * y == 1.0;
    assert (p * q) * (x * y) == (p * x) * (q * y);
    Unique(p * q, x * y);
  }

  lemma Unique(r: real, z: real)
    requires z > 0.0 && r * z == 1.0
    ensures r == 1.0 / z
  {
  }

  lemma Swap(a: real, b: real, c: real, d: real)
    ensures Times(Times(a, b), Times(c, d)) == Times(Times(a, c), Times(b, d))
  {
  }

  lemma EdgeShock(edge: FxEdge, rates: map<string, real>, changes: map<string, real>)
    requires Quoted(edge, rates) && RateMultiplier(changes, edge.pair) > 0.0
    ensures EdgeMultiplier(edge, changes).Ok? && Quoted(edge, Shocked(rates, changes))
    ensures EdgeRate(edge, Shocked(rates, changes)) == Times(EdgeRate(edge, rates), EdgeMultiplier(edge, changes).value)
  {
    PositiveTimes(rates[edge.pair], RateMultiplier(changes, edge.pair));
  }

  /** The FX multiplier of a path is exactly its shocked rate over its rate before, whatever the rates are. */
  lemma {:induction false} MultiplierIsRateChange(path: seq<FxEdge>, rates: map<string, real>,
                                                  changes: map<string, real>)
    requires AllQuoted(path, rates) && forall i :: 0 <= i < |path| ==> RateMultiplier(changes, path[i].pair) > 0.0
    ensures FxMultiplier(path, changes).Ok? && AllQuoted(path, Shocked(rates, changes))
    ensures PathRate(path, Shocked(rates, changes)) == Times(PathRate(path, rates), FxMultiplier(path, changes).value)
  {
    var after := Shocked(rates, changes);
    forall i | 0 <= i < |path| ensures Quoted(path[i], after) { EdgeShock(path[i], rates, changes); }
    if path != [] {
      var n := |path| - 1;
      MultiplierIsRateChange(path[..n], rates, changes);
      EdgeShock(path[n], rates, changes);
      Swap(PathRate(path[..n], rates), FxMultiplier(path[..n], changes).value,
           EdgeRate(path[n], rates), EdgeMultiplier(path[n], changes).value);
    }
  }

  // ----- Positions

  function PathTry(p: Position): seq<FxEdge> {
    if p.pathTry.Path? then p.pathTry.edges else DefaultPaths(p.nativeCurrency).0
  }

  function PathUsd(p: Position): seq<FxEdge> {
    if p.pathUsd.Path? then p.pathUsd.edges else DefaultPaths(p.nativeCurrency).1
  }

  /** The return of a position's class under the shocks. */
  ghost function ClassReturn(p: Position, payload: Payload): real {
    if payload.classOf.Some? then OrZero(PriceShock(payload.shocks, ClassOf(p, payload.classOf.value))) else 0.0
  }

  /** The return of a position's price under the shocks: that of its class, compounded with its yield return. */
  ghost function PriceFactor(p: Position, payload: Payload): real {
    var y := YieldReturn(p, payload);
    Times(1.0 + ClassReturn(p, payload), 1.0 + if y.Ok? then y.value else 0.0)
  }

  lemma ValidIsRevalued(p: Position, payload: Payload)
    requires PositionResult(p, payload).Valid?
    ensures Revalue(p, payload, ClassReturn(p, payload)) == Ok(PositionResult(p, payload))
  {
  }

  lemma PriceParts(p: Position, payload: Payload, x: real)
    requires PriceMultiplier(p, payload, x).Ok?
    ensures var y := YieldReturn(p, payload);
            && y.Ok? && 1.0 + x >= 0.0 && Times(1.0 + x, 1.0 + y.value) >= 0.0
            && PriceMultiplier(p, payload, x).value == (Times(1.0 + x, 1.0 + y.value), y.value)
  {
  }

  lemma StoredParts(preTry: int, preUsd: int, price: (real, real), priceReturn: real, fxTry: real, fxUsd: real)
    requires Stored(preTry, preUsd, price, priceReturn, fxTry, fxUsd).Ok?
    ensures var o := Stored(preTry, preUsd, price, priceReturn, fxTry, fxUsd).value;
            && o.Valid? && o.preTry == preTry && o.preUsd == preUsd
            && o.postTry == RoundHalfAway(Times(Times(preTry as real, price.0), fxTry))
            && o.postUsd == RoundHalfAway(Times(Times(preUsd as real, price.0), fxUsd))
            && o.pnlTry == o.postTry - o.preTry && o.pnlUsd == o.postUsd - o.preUsd
  {
  }

  /** What a successful revaluation went through. */
  lemma RevalueParts(p: Position, payload: Payload, x: real)
    requires Revalue(p, payload, x).Ok?
    ensures var price, changes := PriceMultiplier(p, payload, x), payload.shocks.fxChanges;
            var preTry, preUsd := QuantizeField(p.valueTry), QuantizeField(p.valueUsd);
            var fxTry, fxUsd := FxMultiplier(PathTry(p), changes), FxMultiplier(PathUsd(p), changes);
            && preTry.Ok? && preUsd.Ok? && price.Ok? && fxTry.Ok? && fxUsd.Ok?
            && Revalue(p, payload, x) == Stored(preTry.value, preUsd.value, price.value, x, fxTry.value, fxUsd.value)
  {
  }

  lemma ValidParts(p: Position, payload: Payload)
    requires PositionResult(p, payload).Valid?
    ensures var o, changes := PositionResult(p, payload), payload.shocks.fxChanges;
            && FxMultiplier(PathTry(p), changes).Ok? && FxMultiplier(PathUsd(p), changes).Ok?
            && YieldReturn(p, payload).Ok?
            && PriceFactor(p, payload) >= 0.0
            && QuantizeField(p.valueTry) == Ok(o.preTry) && QuantizeField(p.valueUsd) == Ok(o.preUsd)
            && o.postTry == RoundHalfAway(Times(Times(o.preTry as real, PriceFactor(p, payload)),
                                                FxMultiplier(PathTry(p), changes).value))
            && o.postUsd == RoundHalfAway(Times(Times(o.preUsd as real, PriceFactor(p, payload)),
                                                FxMultiplier(PathUsd(p), changes).value))
            && o.pnlTry == o.postTry - o.preTry && o.pnlUsd == o.postUsd - o.preUsd
  {
    var x, changes := ClassReturn(p, payload), payload.shocks.fxChanges;
    ValidIsRevalued(p, payload);
    RevalueParts(p, payload, x);
    PriceParts(p, payload, x);
    StoredParts(QuantizeField(p.valueTry).value, QuantizeField(p.valueUsd).value, PriceMultiplier(p, payload, x).value,
                x,
                FxMultiplier(PathTry(p), changes).value, FxMultiplier(PathUsd(p), changes).value);
  }

  lemma Carried(native: real, rate: real, factor: real, multiplier: real)
    ensures Times(Times(Times(native, rate), factor), multiplier) ==
            Times(Times(native, factor), Times(rate, multiplier))
  {
  }

  /** Within half a unit. */
  ghost predicate Near(units: int, exact: real) {
    -0.5 <= units as real - exact <= 0.5
  }

  lemma Grouped(a: real, f: real, m: real)
    ensures Times(Times(a, f), m) == Times(a, Times(f, m))
    ensures f >= 0.0 && m > 0.0 ==> Times(f, m) >= 0.0
  {
  }

  lemma RoundedBound(x: real, exact: real, slack: real)
    requires -0.5 * slack <= x - exact <= 0.5 * slack
    ensures -0.5 - 0.5 * slack <= RoundHalfAway(x) as real - exact <= 0.5 + 0.5 * slack
  {
    RoundNearest(x);
  }

  /** An amount that was near before is near afterwards, up to its old error carried along. */
  lemma CarriedNear(pre: int, before: real, factor: real, multiplier: real)
    requires factor >= 0.0 && multiplier > 0.0 && Near(pre, before)
    ensures var post, exact := RoundHalfAway(Times(Times(pre as real, factor), multiplier)),
        Times(Times(before, factor), multiplier);
            -0.5 - 0.5 * Times(factor, multiplier) <= post as real - exact <= 0.5 + 0.5 * Times(factor, multiplier)
  {
    Grouped(pre as real, factor, multiplier);
    Grouped(before, factor, multiplier);
    ScaledError(pre as real, before, Times(factor, multiplier));
    RoundedBound(Times(Times(pre as real, factor), multiplier), Times(Times(before, factor), multiplier),
                 Times(factor, multiplier));
  }

  lemma {:induction false} MultiplierPositive(path: seq<FxEdge>, changes: map<string, real>)
    requires FxMultiplier(path, changes).Ok?
    ensures FxMultiplier(path, changes).value > 0.0
  {
    if path != [] {
      var n := |path| - 1;
      MultiplierPositive(path[..n], changes);
      PositiveTimes(FxMultiplier(path[..n], changes).value, EdgeMultiplier(path[n], changes).value);
    }
  }

  /**
   * What a position is worth after the scenario along one path, against its shocked native value at the shocked
   * rates.
   */
  ghost predicate Marked(pre: int, post: int, native: real, factor: real, path: seq<FxEdge>, rates: map<string, real>,
                         changes: map<string, real>)
    requires AllQuoted(path, rates) && AllQuoted(path, Shocked(rates, changes)) && FxMultiplier(path, changes).Ok?
  {
    var exact, slack := Times(Times(native, factor), PathRate(path, Shocked(rates, changes))),
        Times(factor, FxMultiplier(path, changes).value);
    && -0.5 - 0.5 * slack <= post as real - exact <= 0.5 + 0.5 * slack
    && (pre as real == Times(native, PathRate(path, rates)) ==> post == RoundHalfAway(exact))
  }

  lemma MarkedAlong(pre: int, native: real, factor: real, path: seq<FxEdge>, rates: map<string, real>,
                    changes: map<string, real>)
    requires AllQuoted(path, rates) && factor >= 0.0 && Near(pre, Times(native, PathRate(path, rates)))
    requires forall i :: 0 <= i < |path| ==> RateMultiplier(changes, path[i].pair) > 0.0
    ensures AllQuoted(path, Shocked(rates, changes)) && FxMultiplier(path, changes).Ok?
    ensures Marked(pre, RoundHalfAway(Times(Times(pre as real, factor), FxMultiplier(path, changes).value)), native,
                   factor, path, rates, changes)
  {
    MultiplierIsRateChange(path, rates, changes);
    MultiplierPositive(path, changes);
    Carried(native, PathRate(path, rates), factor, FxMultiplier(path, changes).value);
    CarriedNear(pre, Times(native, PathRate(path, rates)), factor, FxMultiplier(path, changes).value);
  }

  /**
   * Marking to market: if a valid position was sealed within half a unit of its native value at the rates of its two
   * paths, then after the scenario it is worth its shocked native value at the shocked rates of the same paths, to
   * within half a unit and the sealed error carried along; if the sealed value was exact, to the nearest unit.
   */
  lemma RevaluedAtShockedRates(p: Position, payload: Payload, rates: map<string, real>, native: real)
    requires PositionResult(p, payload).Valid? && AllQuoted(PathTry(p), rates) && AllQuoted(PathUsd(p), rates)
    requires ValidShocks(payload.shocks)
    requires Near(PositionResult(p, payload).preTry, Times(native, PathRate(PathTry(p), rates)))
    requires Near(PositionResult(p, payload).preUsd, Times(native, PathRate(PathUsd(p), rates)))
    ensures AllQuoted(PathTry(p), Shocked(rates, payload.shocks.fxChanges))
    ensures FxMultiplier(PathTry(p), payload.shocks.fxChanges).Ok?
    ensures AllQuoted(PathUsd(p), Shocked(rates, payload.shocks.fxChanges))
    ensures FxMultiplier(PathUsd(p), payload.shocks.fxChanges).Ok?
    ensures var o, changes, factor := PositionResult(p, payload), payload.shocks.fxChanges, PriceFactor(p, payload);
            && Marked(o.preTry, o.postTry, native, factor, PathTry(p), rates, changes)
            && Marked(o.preUsd, o.postUsd, native, factor, PathUsd(p), rates, changes)
            && o.pnlTry == o.postTry - o.preTry && o.pnlUsd == o.postUsd - o.preUsd
  {
    var o, changes, factor := PositionResult(p, payload), payload.shocks.fxChanges, PriceFactor(p, payload);
    forall pair ensures RateMultiplier(changes, pair) > 0.0 {}
    ValidParts(p, payload);
    MarkedAlong(o.preTry, native, factor, PathTry(p), rates, changes);
    MarkedAlong(o.preUsd, native, factor, PathUsd(p), rates, changes);
  }

  // ----- Bonds

  ghost function WithShift(payload: Payload, currency: string, shift: real): Payload {
    payload.(shocks := payload.shocks.(yieldShifts := payload.shocks.yieldShifts[currency := shift]))
  }

  lemma SecondOrder(d: real, c: real, x: real)
    ensures BondReturn(d, c, x) - BondReturn(d, c, -x) == -2.0 * d * x
    ensures BondReturn(d, c, x) + BondReturn(d, c, -x) == c * (x * x)
  {
  }

  /** What a position would be worth along a path with its class shock but no yield shift. */
  ghost function WithoutYield(pre: int, p: Position, payload: Payload, path: seq<FxEdge>): real {
    var fx := FxMultiplier(path, payload.shocks.fxChanges);
    Times(Times(pre as real, 1.0 + ClassReturn(p, payload)), if fx.Ok? then fx.value else 1.0)
  }

  lemma Regroup(pre: real, m: real, y: real, fx: real)
    ensures Times(Times(pre, Times(m, 1.0 + y)), fx) == Times(Times(pre, m), fx) + Times(Times(Times(pre, m), fx), y)
  {
    var base := (pre * m) * fx;
    assert (pre * (m * (1.0 + y))) * fx == base * (1.0 + y);
  }

  /**
   * A value after the scenario, up to rounding, splits into the value without a yield shift and that times the
   * return.
   */
  lemma ValueAlong(pre: int, x: real, y: real, fx: real, base: real)
    requires base == Times(Times(pre as real, 1.0 + x), fx)
    ensures Near(RoundHalfAway(Times(Times(pre as real, Times(1.0 + x, 1.0 + y)), fx)), base + Times(base, y))
  {
    Regroup(pre as real, 1.0 + x, y, fx);
    RoundNearest(Times(Times(pre as real, Times(1.0 + x, 1.0 + y)), fx));
  }

  lemma BondValue(p: Position, payload: Payload)
    requires PositionResult(p, payload).Valid?
    ensures var o := PositionResult(p, payload);
            && YieldReturn(p, payload).Ok?
            && var y := YieldReturn(p, payload).value;
               var t, u := WithoutYield(o.preTry, p, payload, PathTry(p)),
                   WithoutYield(o.preUsd, p, payload, PathUsd(p));
               Near(o.postTry, t + Times(t, y)) && Near(o.postUsd, u + Times(u, y))
  {
    ValidParts(p, payload);
    var o, changes, x, y := PositionResult(p, payload), payload.shocks.fxChanges, ClassReturn(p, payload),
        YieldReturn(p, payload).value;
    ValueAlong(o.preTry, x, y, FxMultiplier(PathTry(p), changes).value, WithoutYield(o.preTry, p, payload, PathTry(p)));
    ValueAlong(o.preUsd, x, y, FxMultiplier(PathUsd(p), changes).value, WithoutYield(o.preUsd, p, payload, PathUsd(p)));
  }

  /** The first and second differences of three values under opposite shifts. */
  ghost predicate SecondOrderAround(up: int, flat: int, down: int, base: real, d: real, c: real, x: real) {
    && -1.0 <= (up - down) as real + Times(base, 2.0 * d * x) <= 1.0
    && -2.0 <= (up + down - 2 * flat) as real - Times(base, c * (x * x)) <= 2.0
  }

  lemma Differences(up: int, flat: int, down: int, base: real, d: real, c: real, x: real)
    requires Near(up, base + Times(base, BondReturn(d, c, x))) && Near(down, base + Times(base, BondReturn(d, c, -x)))
    requires Near(flat, base + Times(base, 0.0))
    ensures SecondOrderAround(up, flat, down, base, d, c, x)
  {
    SecondOrder(d, c, x);
    Distribute(base, BondReturn(d, c, x), BondReturn(d, c, -x), d * x);
  }

  lemma Distribute(base: real, y: real, z: real, w: real)
    ensures Times(base, y) + Times(base, z) == Times(base, y + z)
    ensures Times(base, y) - Times(base, z) == Times(base, y - z)
    ensures Times(base, 0.0) == 0.0 && Times(base, -2.0 * w) == -Times(base, 2.0 * w)
  {
  }

  lemma SameBase(p: Position, payload: Payload, currency: string, shift: real, pre: int, path: seq<FxEdge>)
    ensures WithoutYield(pre, p, WithShift(payload, currency, shift), path) == WithoutYield(pre, p, payload, path)
  {
  }

  /** A bond's stored amounts before and after a yield shift, in terms of what is there without one. */
  ghost predicate Yields(o: Outcome, p: Position, payload: Payload, y: real) {
    && o.Valid? && QuantizeField(p.valueTry) == Ok(o.preTry) && QuantizeField(p.valueUsd) == Ok(o.preUsd)
    && var t, u := WithoutYield(o.preTry, p, payload, PathTry(p)), WithoutYield(o.preUsd, p, payload, PathUsd(p));
       Near(o.postTry, t + Times(t, y)) && Near(o.postUsd, u + Times(u, y))
  }

  lemma ShiftedBond(p: Position, payload: Payload, currency: string, shift: real, y: real, o: Outcome)
    requires o.Valid? && o == PositionResult(p, WithShift(payload, currency, shift))
    requires YieldReturn(p, WithShift(payload, currency, shift)) == Ok(y)
    ensures Yields(o, p, payload, y)
  {
    ValidParts(p, WithShift(payload, currency, shift));
    BondValue(p, WithShift(payload, currency, shift));
    SameBase(p, payload, currency, shift, o.preTry, PathTry(p));
    SameBase(p, payload, currency, shift, o.preUsd, PathUsd(p));
  }

  /** How a position comes out of the scenario, by the yield shift of a currency. */
  ghost predicate RespondsTo(at: real -> Outcome, p: Position, payload: Payload, currency: string) {
    forall shift {:trigger PositionResult(p, WithShift(payload, currency, shift))} ::
      at(shift) == PositionResult(p, WithShift(payload, currency, shift))
  }

  lemma BondYields(at: real -> Outcome, p: Position, payload: Payload, currency: string, shift: real, x: real, d: real,
                   c: real)
    requires p.instrumentType == Some(BOND) && p.nativeCurrency == Some(currency)
    requires p.duration == Number(d) && p.convexity == Number(c) && x == shift / 10000.0
    requires RespondsTo(at, p, payload, currency) && at(shift).Valid?
    ensures Yields(at(shift), p, payload, BondReturn(d, c, x))
  {
    assert at(shift) == PositionResult(p, WithShift(payload, currency, shift));
    ShiftedBond(p, payload, currency, shift, BondReturn(d, c, x), at(shift));
  }

  lemma FlatBond(d: real, c: real)
    ensures BondReturn(d, c, 0.0) == 0.0
  {
  }

  lemma ThreeBonds(p: Position, payload: Payload, up: Outcome, flat: Outcome, down: Outcome, d: real, c: real, x: real)
    requires Yields(up, p, payload, BondReturn(d, c, x)) && Yields(down, p, payload, BondReturn(d, c, -x))
    requires Yields(flat, p, payload, BondReturn(d, c, 0.0))
    ensures SecondOrderAround(up.postTry, flat.postTry, down.postTry, WithoutYield(flat.preTry, p, payload, PathTry(p)),
                              d, c, x)
    ensures SecondOrderAround(up.postUsd, flat.postUsd, down.postUsd, WithoutYield(flat.preUsd, p, payload, PathUsd(p)),
                              d, c, x)
  {
    FlatBond(d, c);
    Differences(up.postTry, flat.postTry, down.postTry, WithoutYield(flat.preTry, p, payload, PathTry(p)), d, c, x);
    Differences(up.postUsd, flat.postUsd, down.postUsd, WithoutYield(flat.preUsd, p, payload, PathUsd(p)), d, c, x);
  }

  /**
   * Opposite yield shifts, in basis points, tell the two orders of a bond's response apart in what is stored: the
   * difference of its values is twice duration, their sum against the flat value is convexity, each up to the
   * rounding of the values compared.
   */
  lemma BondRespondsToSecondOrder(at: real -> Outcome, p: Position, payload: Payload, currency: string, shift: real,
                                  d: real, c: real)
    requires p.instrumentType == Some(BOND) && p.nativeCurrency == Some(currency)
    requires p.duration == Number(d) && p.convexity == Number(c)
    requires RespondsTo(at, p, payload, currency) && at(shift).Valid? && at(0.0).Valid? && at(-shift).Valid?
    ensures var up, flat, down, x := at(shift), at(0.0), at(-shift), shift / 10000.0;
            && SecondOrderAround(up.postTry, flat.postTry, down.postTry,
                                 WithoutYield(flat.preTry, p, payload, PathTry(p)), d, c, x)
            && SecondOrderAround(up.postUsd, flat.postUsd, down.postUsd,
                                 WithoutYield(flat.preUsd, p, payload, PathUsd(p)), d, c, x)
  {
    var x := shift / 10000.0;
    BondYields(at, p, payload, currency, shift, x, d, c);
    BondYields(at, p, payload, currency, -shift, -x, d, c);
    BondYields(at, p, payload, currency, 0.0, 0.0, d, c);
    ThreeBonds(p, payload, at(shift), at(0.0), at(-shift), d, c, x);
  }
}
