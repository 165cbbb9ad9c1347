/** Valuing the lines of a snapshot in TRY and USD, storing their text, and adding up the stored totals again. */
module Valuation {
  import opened Results
  import opened Decimals
  import opened DecimalText
  import opened FxPaths

  const TRY := "TRY"

  /** A snapshot line with the price the price query selected for it, if any. */
  datatype Holding = Holding(id: nat, cash: bool, currency: string, quantity: real, price: Option<Price>)

  datatype Price = Price(quote: string, value: real)

  /** A stored line: the amounts as decimal text, absent where no conversion path was found. */
  datatype Line = Line(id: nat, valid: bool, native: Option<string>, inTry: Option<string>, inUsd: Option<string>,
                       pathTry: seq<Edge>, pathUsd: seq<Edge>)

  /** The text of a number: its nearest multiple of 10^-18. */
  function Text(x: real): string {
    PrintUnits(RoundHalfAway(Times(x, SCALE)))
  }

  function Amount(amount: real, path: Result<Path, FxError>): Option<string> {
    if path.Ok? then Some(Text(Times(amount, path.value.rate))) else None
  }

  function Edges(path: Result<Path, FxError>): seq<Edge> {
    if path.Ok? then path.value.edges else []
  }

  /** Values one line; a line without a price or without either path is blocked, but keeps the amount it has. */
  function ValueLine(h: Holding, fiat: string -> bool, quotes: seq<Quote>): Line {
    if !h.cash && h.price.None? then Line(h.id, false, None, None, None, [], [])
    else
      var amount := if h.cash then h.quantity else Times(h.quantity, h.price.value.value);
      var quote := if h.cash then h.currency else h.price.value.quote;
      var t, u := PathFor(fiat, quote, TRY, quotes), PathFor(fiat, quote, USD, quotes);
      Line(h.id, t.Ok? && u.Ok?, Some(Text(amount)), Amount(amount, t), Amount(amount, u), Edges(t), Edges(u))
  }

  // ----- Adding up

  /** The sum of two rationals, as big.Rat forms it before reducing. */
  function Plus(a: Rational, b: Rational): Rational {
    Rational(a.num * b.den + b.num * a.den, a.den * b.den)
  }

  /** A rational that is a whole number of units, in whatever terms. */
  ghost predicate Is(x: Rational, units: int) {
    Valid(x) && x.num * UNIT == units * x.den
  }

  lemma Products(a: int, b: int, c: int, d: int, u: int, v: int, unit: int)
    requires a * unit == u * b && c * unit == v * d
    ensures (a * d + c * b) * unit == (u + v) * (b * d)
  {
    calc {
      (a * d + c * b) * unit;
      (a * unit) * d + (c * unit) * b;
      (u * b) * d + (v * d) * b;
      (u + v) * (b * d);
    }
  }

  lemma PlusUnits(a: Rational, b: Rational, u: int, v: int)
    requires Is(a, u) && Is(b, v)
    ensures Is(Plus(a, b), u + v)
  {
    Products(a.num, a.den, b.num, b.den, u, v, UNIT);
    PositiveProduct(a.den, b.den);
  }

  lemma PositiveProduct(a: int, b: int)
    requires a > 0 && b > 0
    ensures a * b > 0
  {
  }

  lemma RoundsWhole(x: Rational, units: int)
    requires Is(x, units)
    ensures RoundUnits(x) == units
  {
    RoundsHalfAway(x);
    Fraction(x.num * UNIT, x.den, units, 0);
    RoundInteger(units);
  }

  // ----- Stored text

  /** The number a stored text stands for. */
  function Parsed(text: Option<string>): Option<Rational> {
    if text.Some? then ParseDecimal(text.value) else None
  }

  function InTry(line: Line): Option<Rational> {
    Parsed(line.inTry)
  }

  function InUsd(line: Line): Option<Rational> {
    Parsed(line.inUsd)
  }

  /** A column of the stored lines. */
  type Column = Line -> Option<Rational>

  ghost function UnitsOf(x: Option<Rational>): int {
    if x.Some? && Valid(x.value) then RoundUnits(x.value) else 0
  }

  ghost predicate Whole(x: Option<Rational>) {
    x.Some? ==> Is(x.value, UnitsOf(x))
  }

  ghost function SumOf(lines: seq<Line>, column: Column): int {
    if lines == [] then 0 else SumOf(lines[..|lines| - 1], column) + UnitsOf(column(lines[|lines| - 1]))
  }

  method Add(sum: Rational, x: Option<Rational>, ghost units: int) returns (next: Rational)
    requires Is(sum, units) && Whole(x)
    ensures Is(next, units + UnitsOf(x))
  {
    next := sum;
    if x.Some? {
      PlusUnits(sum, x.value, units, UnitsOf(x));
      next := Plus(sum, x.value);
    }
  }

  /** Reading a run: each stored amount is parsed and added. */
  method Total(lines: seq<Line>, column: Column) returns (total: string)
    requires forall i :: 0 <= i < |lines| ==> Whole(column(lines[i]))
    ensures total == PrintUnits(SumOf(lines, column))
  {
    var sum := Rational(0, 1);
    for i := 0 to |lines|
      invariant Is(sum, SumOf(lines[..i], column))
    {
      assert lines[..i + 1][..i] == lines[..i];
      sum := Add(sum, column(lines[i]), SumOf(lines[..i], column));
    }
    assert lines[..|lines|] == lines;
    RoundsWhole(sum, SumOf(lines, column));
    total := FormatDecimal(sum);
  }

  // ----- Creating a run

  ghost function Mapped(holdings: seq<Holding>, value: Holding -> Line): (lines: seq<Line>)
    ensures |lines| == |holdings|
    ensures forall i :: 0 <= i < |lines| ==> lines[i] == value(holdings[i])
  {
    seq(|holdings|, i requires 0 <= i < |holdings| => value(holdings[i]))
  }

  function Valuer(fiat: string -> bool, quotes: seq<Quote>): Holding -> Line {
    h => ValueLine(h, fiat, quotes)
  }

  lemma PrintedIsWhole(units: int)
    ensures Parsed(Some(PrintUnits(units))) == Some(Rational(units, UNIT))
    ensures Is(Rational(units, UNIT), units) && UnitsOf(Some(Rational(units, UNIT))) == units
  {
    ParsePrinted(units);
    RoundsWhole(Rational(units, UNIT), units);
  }

  lemma AmountIsWhole(amount: real, path: Result<Path, FxError>)
    ensures Whole(Parsed(Amount(amount, path)))
  {
    if path.Ok? { PrintedIsWhole(RoundHalfAway(Times(Times(amount, path.value.rate), SCALE))); }
  }

  /** Every amount of a valued line is stored as a whole number of units. */
  lemma LineIsWhole(h: Holding, fiat: string -> bool, quotes: seq<Quote>)
    ensures Whole(InTry(ValueLine(h, fiat, quotes))) && Whole(InUsd(ValueLine(h, fiat, quotes)))
  {
    if h.cash || h.price.Some? {
      var amount := if h.cash then h.quantity else Times(h.quantity, h.price.value.value);
      var quote := if h.cash then h.currency else h.price.value.quote;
      AmountIsWhole(amount, PathFor(fiat, quote, TRY, quotes));
      AmountIsWhole(amount, PathFor(fiat, quote, USD, quotes));
    }
  }

  /** The nearest whole number of units to an amount carried along a path. */
  ghost predicate Nearest(x: Option<Rational>, amount: real, path: Path) {
    var exact := Times(Times(amount, path.rate), SCALE);
    x.Some? && -0.5 <= UnitsOf(x) as real - exact <= 0.5
  }

  lemma AmountIsNearest(amount: real, path: Result<Path, FxError>)
    requires path.Ok?
    ensures Nearest(Parsed(Amount(amount, path)), amount, path.value)
  {
    var exact := Times(Times(amount, path.value.rate), SCALE);
    PrintedIsWhole(RoundHalfAway(exact));
    RoundNearest(exact);
  }

  function AmountOf(h: Holding): real {
    if h.cash || h.price.None? then h.quantity else Times(h.quantity, h.price.value.value)
  }

  function QuotedIn(h: Holding): string {
    if h.cash || h.price.None? then h.currency else h.price.value.quote
  }

  /**
   * What a line stores, for a priced holding: in each currency the nearest unit of its amount carried along a path
   * that leads from its own currency there, exactly when there is one; it is valid when both are there.
   */
  lemma LineIsConverted(h: Holding, fiat: string -> bool, quotes: seq<Quote>)
    requires h.cash || h.price.Some?
    ensures var line, a, q := ValueLine(h, fiat, quotes), AmountOf(h), QuotedIn(h);
            var t, u := PathFor(fiat, q, TRY, quotes), PathFor(fiat, q, USD, quotes);
            && (line.inTry.Some? <==> t.Ok?) &&
               (t.Ok? ==> Nearest(InTry(line), a, t.value) && line.pathTry == t.value.edges)
            && (line.inUsd.Some? <==> u.Ok?) &&
               (u.Ok? ==> Nearest(InUsd(line), a, u.value) && line.pathUsd == u.value.edges)
            && (line.valid <==> line.inTry.Some? && line.inUsd.Some?)
  {
    var a, q := AmountOf(h), QuotedIn(h);
    var t, u := PathFor(fiat, q, TRY, quotes), PathFor(fiat, q, USD, quotes);
    if t.Ok? { AmountIsNearest(a, t); }
    if u.Ok? { AmountIsNearest(a, u); }
  }

  /** What a holding is worth, and in which currency: its quantity for cash, else its quantity times its price. */
  ghost predicate WorthIn(h: Holding, amount: real, currency: string) {
    if h.cash then amount == h.quantity && currency == h.currency
    else h.price.Some? && amount == Times(h.quantity, h.price.value.value) && currency == h.price.value.quote
  }

  /** A column of a line: the nearest unit of the amount along the path there, or nothing without a path. */
  ghost predicate Carried(text: Option<string>, edges: seq<Edge>, amount: real, path: Result<Path, FxError>) {
    if path.Err? then text == None && edges == []
    else Nearest(Parsed(text), amount, path.value) && edges == path.value.edges
  }

  /** A stored line of a holding: blocked and empty without a price, and otherwise valid when both paths exist. */
  ghost predicate LineOf(line: Line, h: Holding, fiat: string -> bool, quotes: seq<Quote>) {
    && line.id == h.id
    && (!h.cash && h.price == None ==> line == Line(h.id, false, None, None, None, [], []))
    && (h.cash || h.price != None ==>
          exists amount, currency, t, u ::
            && WorthIn(h, amount, currency)
            && PathIs(fiat, currency, "TRY", quotes, t) && PathIs(fiat, currency, "USD", quotes, u)
            && Nearest(Parsed(line.native), amount, Path(1.0, []))
            && Carried(line.inTry, line.pathTry, amount, t) && Carried(line.inUsd, line.pathUsd, amount, u)
            && (line.valid <==> t.Ok? && u.Ok?))
  }

  lemma NativeIsNearest(amount: real)
    ensures Nearest(Parsed(Some(Text(amount))), amount, Path(1.0, []))
  {
    PrintedIsWhole(RoundHalfAway(Times(amount, SCALE)));
    RoundNearest(Times(amount, SCALE));
    assert Times(amount, 1.0) == amount;
  }

  lemma CarriedIs(amount: real, path: Result<Path, FxError>)
    ensures Carried(Amount(amount, path), Edges(path), amount, path)
  {
    if path.Ok? { AmountIsNearest(amount, path); }
  }

  /** Every valued line is a stored line of its holding. */
  lemma ValuedLine(h: Holding, fiat: string -> bool, quotes: seq<Quote>)
    requires Loaded(quotes)
    ensures LineOf(ValueLine(h, fiat, quotes), h, fiat, quotes)
  {
    if h.cash || h.price.Some? {
      var amount := if h.cash then h.quantity else Times(h.quantity, h.price.value.value);
      var currency := if h.cash then h.currency else h.price.value.quote;
      var t, u := PathFor(fiat, currency, TRY, quotes), PathFor(fiat, currency, USD, quotes);
      PathExactly(fiat, currency, TRY, quotes);
      PathExactly(fiat, currency, USD, quotes);
      NativeIsNearest(amount);
      CarriedIs(amount, t);
      CarriedIs(amount, u);
      assert WorthIn(h, amount, currency);
    }
  }

  ghost predicate AnyBlocked(lines: seq<Line>) {
    exists i :: 0 <= i < |lines| && !lines[i].valid
  }

  lemma BlockedNext(lines: seq<Line>, line: Line)
    ensures AnyBlocked(lines + [line]) <==> AnyBlocked(lines) || !line.valid
  {
    var more := lines + [line];
    assert more[|lines|] == line && forall k :: 0 <= k < |lines| ==> more[k] == lines[k];
  }

  method AddTo(sum: Rational, ghost lines: seq<Line>, line: Line, column: Column) returns (next: Rational)
    requires Is(sum, SumOf(lines, column)) && Whole(column(line))
    ensures Is(next, SumOf(lines + [line], column))
  {
    assert (lines + [line])[..|lines|] == lines;
    next := Add(sum, column(line), SumOf(lines, column));
  }

  /** How a run values its holdings. */
  ghost predicate Values(value: Holding -> Line, fiat: string -> bool, quotes: seq<Quote>) {
    forall h :: value(h) == ValueLine(h, fiat, quotes)
  }

  lemma MappedNext(holdings: seq<Holding>, i: nat, value: Holding -> Line)
    requires i < |holdings|
    ensures Mapped(holdings[..i + 1], value) == Mapped(holdings[..i], value) + [value(holdings[i])]
  {
  }

  method ValueHolding(h: Holding, fiat: string -> bool, quotes: seq<Quote>, ghost value: Holding -> Line)
    returns (line: Line)
    requires Values(value, fiat, quotes)
    ensures line == value(h)
  {
    if !h.cash && h.price.None? {
      return Line(h.id, false, None, None, None, [], []);
    }
    var amount, quote := AmountOf(h), QuotedIn(h);
    var t := FindPath(fiat, quote, TRY, quotes);
    var u := FindPath(fiat, quote, USD, quotes);
    line := Line(h.id, t.Ok? && u.Ok?, Some(Text(amount)), Amount(amount, t), Amount(amount, u), Edges(t), Edges(u));
  }

  /** A run being valued: its lines so far and their running totals. */
  datatype Run = Run(lines: seq<Line>, first: Rational, second: Rational, blocked: bool)

  ghost predicate AddsUp(run: Run, first: Column, second: Column) {
    && Is(run.first, SumOf(run.lines, first)) && Is(run.second, SumOf(run.lines, second))
    && (run.blocked <==> AnyBlocked(run.lines))
  }

  method AddLine(run: Run, line: Line, first: Column, second: Column) returns (next: Run)
    requires AddsUp(run, first, second) && Whole(first(line)) && Whole(second(line))
    ensures AddsUp(next, first, second) && next.lines == run.lines + [line]
  {
    var sumFirst := AddTo(run.first, run.lines, line, first);
    var sumSecond := AddTo(run.second, run.lines, line, second);
    BlockedNext(run.lines, line);
    next := Run(run.lines + [line], sumFirst, sumSecond, run.blocked || !line.valid);
  }

  /** Values every line and keeps two running totals of the rounded amounts. */
  method ValueLines(holdings: seq<Holding>, fiat: string -> bool, quotes: seq<Quote>, first: Column, second: Column,
                    ghost value: Holding -> Line)
    returns (run: Run)
    requires Values(value, fiat, quotes)
    requires forall h :: Whole(first(value(h))) && Whole(second(value(h)))
    ensures run.lines == Mapped(holdings, value) && AddsUp(run, first, second)
  {
    run := Run([], Rational(0, 1), Rational(0, 1), false);
    for i := 0 to |holdings|
      invariant run.lines == Mapped(holdings[..i], value) && AddsUp(run, first, second)
    {
      var line := ValueHolding(holdings[i], fiat, quotes, value);
      MappedNext(holdings, i, value);
      run := AddLine(run, line, first, second);
    }
    assert holdings[..|holdings|] == holdings;
  }

  /** Values a snapshot with the FX rows that were eligible. */
  method Create(holdings: seq<Holding>, fiat: string -> bool, rows: seq<Quote>)
    returns (lines: seq<Line>, totalTry: string, totalUsd: string, blocked: bool)
    requires DistinctIds(rows)
    ensures lines == Mapped(holdings, Valuer(fiat, Firsts(rows)))
    ensures forall i :: 0 <= i < |holdings| ==> LineOf(lines[i], holdings[i], fiat, Firsts(rows))
    ensures totalTry == PrintUnits(SumOf(lines, InTry)) && totalUsd == PrintUnits(SumOf(lines, InUsd))
    ensures blocked <==> AnyBlocked(lines)
  {
    var quotes := LoadQuotes(rows);
    forall h ensures Whole(InTry(Valuer(fiat, quotes)(h))) && Whole(InUsd(Valuer(fiat, quotes)(h))) {
      LineIsWhole(h, fiat, quotes);
    }
    var run := ValueLines(holdings, fiat, quotes, InTry, InUsd, Valuer(fiat, quotes));
    lines, blocked := run.lines, run.blocked;
    FirstsExact(rows);
    forall i | 0 <= i < |holdings| ensures LineOf(lines[i], holdings[i], fiat, quotes) {
      ValuedLine(holdings[i], fiat, quotes);
    }
    RoundsWhole(run.first, SumOf(lines, InTry));
    RoundsWhole(run.second, SumOf(lines, InUsd));
    totalTry, totalUsd := FormatDecimal(run.first), FormatDecimal(run.second);
  }

  // ----- Order does not matter

  lemma {:induction false} SumMiddle(a: seq<Line>, line: Line, b: seq<Line>, column: Column)
    ensures SumOf(a + [line] + b, column) == SumOf(a + b, column) + UnitsOf(column(line))
  {
    if b == [] {
      assert (a + [line] + b)[..|a|] == a && a + b == a;
    } else {
      var n := |b| - 1;
      SumMiddle(a, line, b[..n], column);
      assert (a + [line] + b)[..|a| + 1 + n] == a + [line] + b[..n];
      assert (a + b)[..|a| + n] == a + b[..n];
    }
  }

  lemma RemoveLast(a: seq<Line>, n: nat)
    requires |a| == n + 1
    ensures multiset(a[..n]) == multiset(a) - multiset{a[n]}
  {
    assert a == a[..n] + [a[n]];
  }

  lemma RemoveMiddle(b: seq<Line>, k: nat)
    requires k < |b|
    ensures b == b[..k] + [b[k]] + b[k + 1..]
    ensures multiset(b[..k] + b[k + 1..]) == multiset(b) - multiset{b[k]}
  {
    assert b == b[..k] + [b[k]] + b[k + 1..];
    assert multiset(b) == multiset(b[..k]) + multiset{b[k]} + multiset(b[k + 1..]);
  }

  /** The same lines in another order add up to the same number of units. */
  lemma {:induction false} SumPermuted(a: seq<Line>, b: seq<Line>, column: Column)
    requires multiset(a) == multiset(b)
    ensures SumOf(a, column) == SumOf(b, column)
    decreases |a|
  {
    if a == [] {
      assert |multiset(b)| == |b|;
    } else {
      var n := |a| - 1;
      assert a[n] in multiset(b);
      var k :| 0 <= k < |b| && b[k] == a[n];
      RemoveLast(a, n);
      RemoveMiddle(b, k);
      SumPermuted(a[..n], b[..k] + b[k + 1..], column);
      SumMiddle(b[..k], a[n], b[k + 1..], column);
    }
  }

  lemma StoredIsWhole(holdings: seq<Holding>, fiat: string -> bool, quotes: seq<Quote>, stored: seq<Line>)
    requires multiset(stored) == multiset(Mapped(holdings, Valuer(fiat, quotes)))
    ensures forall i :: 0 <= i < |stored| ==> Whole(InTry(stored[i])) && Whole(InUsd(stored[i]))
  {
    var lines := Mapped(holdings, Valuer(fiat, quotes));
    forall i | 0 <= i < |stored| ensures Whole(InTry(stored[i])) && Whole(InUsd(stored[i])) {
      assert stored[i] in multiset(stored);
      var k :| 0 <= k < |lines| && lines[k] == stored[i];
      LineIsWhole(holdings[k], fiat, quotes);
    }
  }

  /**
   * The totals Create reports are the totals that Total recomputes from the stored lines, in whatever order
   * they are read back, and no stored amount is lost in reading it.
   */
  lemma TotalsReadBack(holdings: seq<Holding>, fiat: string -> bool, quotes: seq<Quote>, stored: seq<Line>)
    requires multiset(stored) == multiset(Mapped(holdings, Valuer(fiat, quotes)))
    ensures forall i :: 0 <= i < |stored| ==> Whole(InTry(stored[i])) && Whole(InUsd(stored[i]))
    ensures var lines := Mapped(holdings, Valuer(fiat, quotes));
            && PrintUnits(SumOf(stored, InTry)) == PrintUnits(SumOf(lines, InTry))
            && PrintUnits(SumOf(stored, InUsd)) == PrintUnits(SumOf(lines, InUsd))
  {
    var lines := Mapped(holdings, Valuer(fiat, quotes));
    StoredIsWhole(holdings, fiat, quotes, stored);
    SumPermuted(stored, lines, InTry);
    SumPermuted(stored, lines, InUsd);
  }
}
