/** Selection of FX conversion paths: a direct quote, or two quotes bridged through USD. */
module FxPaths {
  import opened Results
  import opened Decimals

  datatype Quote = Quote(id: nat, base: string, quote: string, observed: int, sourceKnown: Option<int>,
                         systemKnown: int, rate: real)

  datatype Direction = Forward | Reverse

  datatype Edge = Edge(id: nat, direction: Direction)

  datatype Path = Path(rate: real, edges: seq<Edge>)

  datatype FxError = NotFiat | NonPositiveRate | NoDirectUsd | NoBridge

  const USD := "USD"

  /** Whether a quote converts between two currencies, in either direction. */
  predicate Links(q: Quote, source: string, target: string) {
    (q.base == source && q.quote == target) || (q.base == target && q.quote == source)
  }

  /** Quotes are loaded with at most one revision for each ordered pair and distinct ids. */
  ghost predicate Loaded(quotes: seq<Quote>) {
    forall i, j :: 0 <= i < j < |quotes| ==>
      && quotes[i].id != quotes[j].id
      && !(quotes[i].base == quotes[j].base && quotes[i].quote == quotes[j].quote)
  }

  function Pair(q: Quote): (string, string) {
    (q.base, q.quote)
  }

  function Pairs(quotes: seq<Quote>): set<(string, string)> {
    set q | q in quotes :: Pair(q)
  }

  lemma AddQuote(quotes: seq<Quote>, q: Quote)
    requires Loaded(quotes) && Pair(q) !in Pairs(quotes) && forall k :: 0 <= k < |quotes| ==> quotes[k].id != q.id
    ensures Loaded(quotes + [q]) && Pairs(quotes + [q]) == Pairs(quotes) + {Pair(q)}
  {
    forall k | 0 <= k < |quotes| ensures Pair(quotes[k]) != Pair(q) { assert quotes[k] in quotes; }
  }

  /** No earlier row has the pair of this one. */
  ghost predicate FirstOfPair(rows: seq<Quote>, i: int)
    requires 0 <= i < |rows|
  {
    forall j :: 0 <= j < i ==> Pair(rows[j]) != Pair(rows[i])
  }

  /** The first row of each pair, in the order of the rows. */
  function Firsts(rows: seq<Quote>): seq<Quote> {
    if rows == [] then []
    else
      var n := |rows| - 1;
      if Pair(rows[n]) in Pairs(rows[..n]) then Firsts(rows[..n]) else Firsts(rows[..n]) + [rows[n]]
  }

  ghost predicate DistinctIds(rows: seq<Quote>) {
    forall i, j :: 0 <= i < j < |rows| ==> rows[i].id != rows[j].id
  }

  lemma PairsNext(rows: seq<Quote>, n: nat)
    requires |rows| == n + 1
    ensures rows == rows[..n] + [rows[n]] && Pairs(rows) == Pairs(rows[..n]) + {Pair(rows[n])}
  {
    assert rows == rows[..n] + [rows[n]];
  }

  lemma {:induction false} FirstsAreRows(rows: seq<Quote>)
    ensures forall k :: 0 <= k < |Firsts(rows)| ==> Firsts(rows)[k] in rows
  {
    if rows != [] { FirstsAreRows(rows[..|rows| - 1]); }
  }

  lemma {:induction false} FirstsLoaded(rows: seq<Quote>)
    requires DistinctIds(rows)
    ensures Loaded(Firsts(rows)) && Pairs(Firsts(rows)) == Pairs(rows)
  {
    if rows != [] {
      var n := |rows| - 1;
      FirstsLoaded(rows[..n]);
      FirstsAreRows(rows[..n]);
      PairsNext(rows, n);
      if Pair(rows[n]) !in Pairs(rows[..n]) { AddQuote(Firsts(rows[..n]), rows[n]); }
    }
  }

  lemma FirstExactly(rows: seq<Quote>, i: nat)
    requires i < |rows|
    ensures FirstOfPair(rows, i) <==> Pair(rows[i]) !in Pairs(rows[..i])
  {
    forall j | 0 <= j < i ensures Pair(rows[j]) in Pairs(rows[..i]) { assert rows[..i][j] in rows[..i]; }
  }

  lemma NewRow(rows: seq<Quote>, n: nat)
    requires DistinctIds(rows) && |rows| == n + 1
    ensures rows[n] !in Firsts(rows[..n])
  {
    FirstsAreRows(rows[..n]);
  }

  lemma {:induction false} FirstKept(rows: seq<Quote>, i: nat)
    requires DistinctIds(rows) && i < |rows|
    ensures rows[i] in Firsts(rows) <==> FirstOfPair(rows, i)
  {
    var n := |rows| - 1;
    if i < n {
      FirstKept(rows[..n], i);
      assert rows[n] != rows[i];
      assert rows[..n][i] == rows[i];
      assert FirstOfPair(rows[..n], i) <==> FirstOfPair(rows, i);
    } else {
      NewRow(rows, n);
      FirstExactly(rows, n);
    }
  }

  /** Exactly the rows that come first for their pair are kept, one for every pair. */
  lemma FirstsExact(rows: seq<Quote>)
    requires DistinctIds(rows)
    ensures Loaded(Firsts(rows)) && Pairs(Firsts(rows)) == Pairs(rows)
    ensures forall i :: 0 <= i < |rows| ==> (rows[i] in Firsts(rows) <==> FirstOfPair(rows, i))
  {
    FirstsLoaded(rows);
    forall i | 0 <= i < |rows| ensures rows[i] in Firsts(rows) <==> FirstOfPair(rows, i) { FirstKept(rows, i); }
  }

  /** Keeps the first revision of each pair, in the order the rows come in. */
  method LoadQuotes(rows: seq<Quote>) returns (quotes: seq<Quote>)
    requires DistinctIds(rows)
    ensures quotes == Firsts(rows) && Loaded(quotes) && Pairs(quotes) == Pairs(rows)
    ensures forall i :: 0 <= i < |rows| ==> (rows[i] in quotes <==> FirstOfPair(rows, i))
  {
    quotes := [];
    var seen: set<(string, string)> := {};
    for i := 0 to |rows|
      invariant quotes == Firsts(rows[..i]) && seen == Pairs(rows[..i])
    {
      assert rows[..i + 1][..i] == rows[..i];
      PairsNext(rows[..i + 1], i);
      if Pair(rows[i]) !in seen {
        quotes := quotes + [rows[i]];
        seen := seen + {Pair(rows[i])};
      }
    }
    assert rows[..|rows|] == rows;
    FirstsExact(rows);
  }

  /** The quotes of a pair, the reverse ones included, in order. */
  function Direct(source: string, target: string, quotes: seq<Quote>): (r: seq<Quote>)
    ensures forall q :: q in r <==> q in quotes && Links(q, source, target)
  {
    if quotes == [] then []
    else
      var rest := Direct(source, target, quotes[..|quotes| - 1]);
      var last := quotes[|quotes| - 1];
      if Links(last, source, target) then rest + [last] else rest
  }

  /** The sort order of direct quotes: latest observed, then latest known at the source, then to the system, then id. */
  predicate Precedes(a: Quote, b: Quote) {
    if a.observed != b.observed then a.observed > b.observed
    else if a.sourceKnown.Some? && b.sourceKnown.Some? && a.sourceKnown.value != b.sourceKnown.value
    then a.sourceKnown.value > b.sourceKnown.value
    else if a.systemKnown != b.systemKnown then a.systemKnown > b.systemKnown
    else a.id < b.id
  }

  /** A pair has at most two quotes, one each way, so sorting them is one comparison. */
  function Best(direct: seq<Quote>): Quote
    requires direct != []
  {
    if |direct| >= 2 && Precedes(direct[1], direct[0]) then direct[1] else direct[0]
  }

  /** The rate and edge of a quote used from a source currency. */
  function Use(q: Quote, source: string): Result<(real, Edge), FxError> {
    if q.rate <= 0.0 then Err(NonPositiveRate)
    else if q.base == source then Ok((q.rate, Edge(q.id, Forward)))
    else Ok((1.0 / q.rate, Edge(q.id, Reverse)))
  }

  /** The first quote of a pair, or none. */
  function Bridge(source: string, target: string, quotes: seq<Quote>): Option<Quote> {
    if quotes == [] then None
    else if Links(quotes[0], source, target) then Some(quotes[0])
    else Bridge(source, target, quotes[1..])
  }

  function Chain(first: Result<(real, Edge), FxError>, second: Result<(real, Edge), FxError>): Result<Path, FxError> {
    if first.Err? || second.Err? then Err(NoBridge)
    else Ok(Path(Times(first.value.0, second.value.0), [first.value.1, second.value.1]))
  }

  function BridgeUse(source: string, target: string, quotes: seq<Quote>): Result<(real, Edge), FxError> {
    var q := Bridge(source, target, quotes);
    if q.None? then Err(NoBridge) else Use(q.value, source)
  }

  function PathFor(fiat: string -> bool, source: string, target: string, quotes: seq<Quote>): Result<Path, FxError> {
    if !fiat(source) || !fiat(target) then Err(NotFiat)
    else if source == target then Ok(Path(1.0, []))
    else
      var direct := Direct(source, target, quotes);
      if direct != [] then
        var used :- Use(Best(direct), source);
        Ok(Path(used.0, [used.1]))
      else if source == USD || target == USD then Err(NoDirectUsd)
      else Chain(BridgeUse(source, USD, quotes), BridgeUse(USD, target, quotes))
  }

  // ----- The loops

  lemma DirectNext(source: string, target: string, quotes: seq<Quote>, i: nat)
    requires i < |quotes|
    ensures Direct(source, target, quotes[..i + 1]) ==
            if Links(quotes[i], source, target) then Direct(source, target, quotes[..i]) + [quotes[i]]
            else Direct(source, target, quotes[..i])
  {
    assert quotes[..i + 1][..i] == quotes[..i];
  }

  method CollectDirect(source: string, target: string, quotes: seq<Quote>) returns (direct: seq<Quote>)
    ensures direct == Direct(source, target, quotes)
  {
    direct := [];
    for i := 0 to |quotes|
      invariant direct == Direct(source, target, quotes[..i])
    {
      DirectNext(source, target, quotes, i);
      if Links(quotes[i], source, target) {
        direct := direct + [quotes[i]];
      }
    }
    assert quotes[..|quotes|] == quotes;
  }

  method BridgeQuote(source: string, target: string, quotes: seq<Quote>) returns (r: Result<(real, Edge), FxError>)
    ensures r.Ok? <==> BridgeUse(source, target, quotes).Ok?
    ensures r.Ok? ==> r == BridgeUse(source, target, quotes)
  {
    for i := 0 to |quotes|
      invariant Bridge(source, target, quotes) == Bridge(source, target, quotes[i..])
    {
      if Links(quotes[i], source, target) {
        return Use(quotes[i], source);
      }
    }
    return Err(NoBridge);
  }

  method FindPath(fiat: string -> bool, source: string, target: string, quotes: seq<Quote>)
    returns (r: Result<Path, FxError>)
    ensures r == PathFor(fiat, source, target, quotes)
    ensures Loaded(quotes) ==> PathIs(fiat, source, target, quotes, r)
  {
    if Loaded(quotes) { PathExactly(fiat, source, target, quotes); }
    if !fiat(source) || !fiat(target) {
      return Err(NotFiat);
    }
    if source == target {
      return Ok(Path(1.0, []));
    }
    var direct := CollectDirect(source, target, quotes);
    if |direct| > 0 {
      var used := Use(Best(direct), source);
      if used.Err? {
        return Err(used.error);
      }
      return Ok(Path(used.value.0, [used.value.1]));
    }
    if source == USD || target == USD {
      return Err(NoDirectUsd);
    }
    var first := BridgeQuote(source, USD, quotes);
    var second := BridgeQuote(USD, target, quotes);
    if first.Err? || second.Err? {
      return Err(NoBridge);
    }
    return Ok(Path(Times(first.value.0, second.value.0), [first.value.1, second.value.1]));
  }

  // ----- Conversion there and back

  function Flip(d: Direction): Direction {
    if d.Forward? then Reverse else Forward
  }

  /** The same edges walked backwards. */
  function Reversed(edges: seq<Edge>): seq<Edge> {
    if edges == [] then []
    else [Edge(edges[|edges| - 1].id, Flip(edges[|edges| - 1].direction))] + Reversed(edges[..|edges| - 1])
  }

  lemma {:induction false} DirectSymmetric(source: string, target: string, quotes: seq<Quote>)
    ensures Direct(source, target, quotes) == Direct(target, source, quotes)
  {
    if quotes != [] { DirectSymmetric(source, target, quotes[..|quotes| - 1]); }
  }

  lemma {:induction false} BridgeSymmetric(source: string, target: string, quotes: seq<Quote>)
    ensures Bridge(source, target, quotes) == Bridge(target, source, quotes)
    ensures Bridge(source, target, quotes).Some? ==>
              Bridge(source, target, quotes).value in quotes &&
                Links(Bridge(source, target, quotes).value, source, target)
  {
    if quotes != [] && !Links(quotes[0], source, target) { BridgeSymmetric(source, target, quotes[1..]); }
  }

  lemma Reciprocal(x: real)
    requires x > 0.0
    ensures 1.0 / x > 0.0 && Times(x, 1.0 / x) == 1.0 && Times(1.0 / x, x) == 1.0
  {
  }

  lemma UseBothWays(q: Quote, source: string, target: string)
    requires Links(q, source, target) && source != target
    ensures Use(q, source).Ok? <==> Use(q, target).Ok?
    ensures Use(q, source).Ok? ==>
              var there, back := Use(q, source).value, Use(q, target).value;
              && there.0 > 0.0 && back.0 > 0.0 && Times(there.0, back.0) == 1.0
              && back.1 == Edge(there.1.id, Flip(there.1.direction))
  {
    if q.rate > 0.0 { Reciprocal(q.rate); }
  }

  lemma BestIsDirect(source: string, target: string, quotes: seq<Quote>)
    requires Direct(source, target, quotes) != []
    ensures Links(Best(Direct(source, target, quotes)), source, target)
    ensures Best(Direct(source, target, quotes)) in quotes
  {
    var d := Direct(source, target, quotes);
    assert Best(d) in d;
  }

  lemma ProductOfReciprocals(a: real, b: real, c: real, d: real)
    requires Times(a, b) == 1.0 && Times(c, d) == 1.0 && a > 0.0 && c > 0.0
    ensures Times(Times(a, c), Times(d, b)) == 1.0 && Times(a, c) > 0.0
  {
    assert (a * c) * (d * b) == (a * b) * (c * d);
  }

  ghost predicate Inverse(there: Result<Path, FxError>, back: Result<Path, FxError>) {
    if there.Err? then back == there
    else
      && back.Ok? && there.value.rate > 0.0 && back.value.rate > 0.0
      && Times(there.value.rate, back.value.rate) == 1.0
      && back.value.edges == Reversed(there.value.edges)
  }

  lemma ReversedShort(edges: seq<Edge>)
    requires |edges| <= 2
    ensures Reversed(edges) ==
            if |edges| == 0 then []
            else if |edges| == 1 then [Edge(edges[0].id, Flip(edges[0].direction))]
            else [Edge(edges[1].id, Flip(edges[1].direction)), Edge(edges[0].id, Flip(edges[0].direction))]
  {
    if |edges| == 2 { assert edges[..1][..0] == []; }
  }

  lemma DirectInverse(fiat: string -> bool, source: string, target: string, quotes: seq<Quote>)
    requires fiat(source) && fiat(target) && source != target && Direct(source, target, quotes) != []
    ensures Inverse(PathFor(fiat, source, target, quotes), PathFor(fiat, target, source, quotes))
  {
    DirectSymmetric(source, target, quotes);
    BestIsDirect(source, target, quotes);
    var q := Best(Direct(source, target, quotes));
    UseBothWays(q, source, target);
    if Use(q, source).Ok? { ReversedShort([Use(q, source).value.1]); }
  }

  lemma LegBothWays(source: string, quotes: seq<Quote>)
    requires source != USD
    ensures var out, back := BridgeUse(source, USD, quotes), BridgeUse(USD, source, quotes);
            && (out.Ok? <==> back.Ok?)
            && (out.Ok? ==>
                  && out.value.0 > 0.0 && back.value.0 > 0.0 && Times(out.value.0, back.value.0) == 1.0
                  && back.value.1 == Edge(out.value.1.id, Flip(out.value.1.direction))
                  && out.value.1 == Edge(back.value.1.id, Flip(back.value.1.direction)))
  {
    BridgeSymmetric(source, USD, quotes);
    var q := Bridge(source, USD, quotes);
    if q.Some? { UseBothWays(q.value, source, USD); }
  }

  lemma BridgeInverse(source: string, target: string, quotes: seq<Quote>)
    requires source != USD && target != USD
    ensures Inverse(Chain(BridgeUse(source, USD, quotes), BridgeUse(USD, target, quotes)),
                    Chain(BridgeUse(target, USD, quotes), BridgeUse(USD, source, quotes)))
  {
    LegBothWays(source, quotes);
    LegBothWays(target, quotes);
    var a, b := BridgeUse(source, USD, quotes), BridgeUse(USD, source, quotes);
    var c, d := BridgeUse(USD, target, quotes), BridgeUse(target, USD, quotes);
    if a.Ok? && c.Ok? {
      assert Times(c.value.0, d.value.0) == 1.0;
      ProductOfReciprocals(a.value.0, b.value.0, c.value.0, d.value.0);
      ProductOfReciprocals(d.value.0, c.value.0, b.value.0, a.value.0);
      ReversedShort([a.value.1, c.value.1]);
    }
  }

  /**
   * Conversion is an involution: one direction succeeds exactly when the other does, with the same error
   * otherwise; the rates are positive and multiply to one; and the edges are the same ones walked backwards.
   */
  lemma ConversionInverts(fiat: string -> bool, source: string, target: string, quotes: seq<Quote>)
    ensures Inverse(PathFor(fiat, source, target, quotes), PathFor(fiat, target, source, quotes))
  {
    DirectSymmetric(source, target, quotes);
    if fiat(source) && fiat(target) && source != target {
      if Direct(source, target, quotes) != [] {
        DirectInverse(fiat, source, target, quotes);
      } else if source != USD && target != USD {
        BridgeInverse(source, target, quotes);
      }
    }
  }

  // ----- What a path is

  /** Where an edge leads from a currency, over a quote of the list with a positive rate. */
  ghost predicate Leads(quotes: seq<Quote>, edge: Edge, from: string, to: string, rate: real) {
    exists q :: q in quotes && q.id == edge.id && q.rate > 0.0 &&
      if edge.direction.Forward? then q.base == from && q.quote == to && rate == q.rate
      else q.base == to && q.quote == from && rate == 1.0 / q.rate
  }

  lemma UseLeads(q: Quote, source: string, target: string, quotes: seq<Quote>)
    requires q in quotes && Links(q, source, target) && source != target && Use(q, source).Ok?
    ensures Leads(quotes, Use(q, source).value.1, source, target, Use(q, source).value.0)
  {
  }

  /** A path runs from source to target over at most two quotes, and its rate is the product of theirs. */
  lemma PathConnects(fiat: string -> bool, source: string, target: string, quotes: seq<Quote>)
    requires PathFor(fiat, source, target, quotes).Ok?
    ensures var path := PathFor(fiat, source, target, quotes).value;
            && |path.edges| <= 2
            && (|path.edges| == 0 ==> source == target && path.rate == 1.0)
            && (|path.edges| == 1 ==> Leads(quotes, path.edges[0], source, target, path.rate))
            && (|path.edges| == 2 ==> exists a, b ::
                  && Leads(quotes, path.edges[0], source, USD, a) && Leads(quotes, path.edges[1], USD, target, b)
                  && path.rate == Times(a, b))
  {
    if source != target {
      var direct := Direct(source, target, quotes);
      if direct != [] {
        BestIsDirect(source, target, quotes);
        UseLeads(Best(direct), source, target, quotes);
      } else {
        BridgeSymmetric(source, USD, quotes);
        BridgeSymmetric(USD, target, quotes);
        var p, q := Bridge(source, USD, quotes), Bridge(USD, target, quotes);
        UseLeads(p.value, source, USD, quotes);
        UseLeads(q.value, USD, target, quotes);
      }
    }
  }

  /** Which of two quotes is preferred: the one observed later, then known later at the source, then to the system. */
  ghost predicate Preferred(a: Quote, b: Quote) {
    || a.observed > b.observed
    || (a.observed == b.observed && KnowsLater(a, b))
    || (a.observed == b.observed && !TellApart(a, b) && a.systemKnown > b.systemKnown)
    || (a.observed == b.observed && !TellApart(a, b) && a.systemKnown == b.systemKnown && a.id < b.id)
  }

  /** Two quotes whose source says when each became known, at different times. */
  ghost predicate TellApart(a: Quote, b: Quote) {
    a.sourceKnown.Some? && b.sourceKnown.Some? && a.sourceKnown.value != b.sourceKnown.value
  }

  ghost predicate KnowsLater(a: Quote, b: Quote) {
    TellApart(a, b) && a.sourceKnown.value > b.sourceKnown.value
  }

  lemma PrecedesIs(a: Quote, b: Quote)
    ensures Precedes(a, b) <==> Preferred(a, b)
    ensures a.id != b.id ==> Preferred(a, b) || Preferred(b, a)
  {
  }

  lemma NoThird(d: seq<Quote>, source: string, target: string)
    requires |d| >= 3
    ensures Loaded(d) ==> exists k :: 0 <= k < |d| && !Links(d[k], source, target)
  {
    if Links(d[0], source, target) && Links(d[1], source, target) && Links(d[2], source, target) {
      assert Pair(d[0]) == Pair(d[1]) || Pair(d[0]) == Pair(d[2]) || Pair(d[1]) == Pair(d[2]);
    }
  }

  /** In a loaded list a pair has at most one quote each way, so the best direct one precedes any other. */
  lemma AtMostTwo(source: string, target: string, quotes: seq<Quote>)
    requires Loaded(quotes) && source != target
    ensures |Direct(source, target, quotes)| <= 2
    ensures forall q :: q in Direct(source, target, quotes) ==>
              q == Best(Direct(source, target, quotes)) || Preferred(Best(Direct(source, target, quotes)), q)
  {
    var d := Direct(source, target, quotes);
    if |d| >= 3 { NoThird(d, source, target); }
    DirectDistinct(source, target, quotes);
    if |d| == 2 {
      PrecedesIs(d[0], d[1]);
      PrecedesIs(d[1], d[0]);
    }
  }

  lemma {:induction false} DirectDistinct(source: string, target: string, quotes: seq<Quote>)
    requires Loaded(quotes)
    ensures Loaded(Direct(source, target, quotes))
  {
    if quotes != [] {
      var n := |quotes| - 1;
      DirectDistinct(source, target, quotes[..n]);
      var rest := Direct(source, target, quotes[..n]);
      forall i | 0 <= i < |rest|
        ensures rest[i].id != quotes[n].id && !(rest[i].base == quotes[n].base && rest[i].quote == quotes[n].quote)
      {
        assert rest[i] in quotes[..n];
      }
    }
  }

  // ----- Exactly which path

  ghost predicate Between(q: Quote, a: string, b: string) {
    (q.base == a && q.quote == b) || (q.base == b && q.quote == a)
  }

  /** The direct quote that is used: preferred to every other one between the two currencies. */
  ghost predicate BestBetween(quotes: seq<Quote>, a: string, b: string, q: Quote) {
    && q in quotes && Between(q, a, b)
    && forall other :: other in quotes && Between(other, a, b) ==> other == q || Preferred(q, other)
  }

  /** The quote of a bridge's leg: the first of the list between the two currencies. */
  ghost predicate FirstBetween(quotes: seq<Quote>, a: string, b: string, q: Quote) {
    exists k :: 0 <= k < |quotes| && quotes[k] == q && Between(q, a, b)
      && forall i :: 0 <= i < k ==> !Between(quotes[i], a, b)
  }

  ghost predicate NoneBetween(quotes: seq<Quote>, a: string, b: string) {
    forall i :: 0 <= i < |quotes| ==> !Between(quotes[i], a, b)
  }

  /** The rate and the edge of a quote used from a currency: as it stands from its base, otherwise turned around. */
  ghost predicate UsedFrom(q: Quote, from: string, rate: real, edge: Edge) {
    && q.rate > 0.0 && edge.id == q.id
    && (q.base == from ==> rate == q.rate && edge.direction == Forward)
    && (q.base != from ==> rate == 1.0 / q.rate && edge.direction == Reverse)
  }

  /** A path over one quote, or why there is none. */
  ghost predicate OverOne(r: Result<Path, FxError>, q: Quote, from: string) {
    if q.rate <= 0.0 then r == Err(NonPositiveRate)
    else r.Ok? && |r.value.edges| == 1 && UsedFrom(q, from, r.value.rate, r.value.edges[0])
  }

  /** A path over two quotes that meet in USD, or that there is none. */
  ghost predicate OverTwo(r: Result<Path, FxError>, q: Quote, p: Quote, from: string) {
    if q.rate <= 0.0 || p.rate <= 0.0 then r == Err(NoBridge)
    else
      && r.Ok? && |r.value.edges| == 2
      && exists a, b ::
           && UsedFrom(q, from, a, r.value.edges[0]) && UsedFrom(p, "USD", b, r.value.edges[1])
           && r.value.rate == Times(a, b)
  }

  /** The path between two currencies: none outside fiat money, the direct quote if there is one, else a bridge. */
  ghost predicate PathIs(fiat: string -> bool, source: string, target: string, quotes: seq<Quote>,
                         r: Result<Path, FxError>) {
    if !fiat(source) || !fiat(target) then r == Err(NotFiat)
    else if source == target then r == Ok(Path(1.0, []))
    else if !NoneBetween(quotes, source, target) then
      exists q :: BestBetween(quotes, source, target, q) && OverOne(r, q, source)
    else if source == "USD" || target == "USD" then r == Err(NoDirectUsd)
    else if NoneBetween(quotes, source, "USD") || NoneBetween(quotes, "USD", target) then r == Err(NoBridge)
    else
      exists q, p ::
        FirstBetween(quotes, source, "USD", q) && FirstBetween(quotes, "USD", target, p) && OverTwo(r, q, p, source)
  }

  lemma DirectNone(source: string, target: string, quotes: seq<Quote>)
    ensures Direct(source, target, quotes) == [] <==> NoneBetween(quotes, source, target)
  {
    if Direct(source, target, quotes) != [] {
      var q := Direct(source, target, quotes)[0];
      assert q in Direct(source, target, quotes);
      var i :| 0 <= i < |quotes| && quotes[i] == q;
    }
    if !NoneBetween(quotes, source, target) {
      var i :| 0 <= i < |quotes| && Between(quotes[i], source, target);
      assert quotes[i] in Direct(source, target, quotes);
    }
  }

  lemma BestIs(source: string, target: string, quotes: seq<Quote>)
    requires Loaded(quotes) && source != target && Direct(source, target, quotes) != []
    ensures BestBetween(quotes, source, target, Best(Direct(source, target, quotes)))
  {
    AtMostTwo(source, target, quotes);
    BestIsDirect(source, target, quotes);
  }

  lemma {:induction false} BridgeIs(a: string, b: string, quotes: seq<Quote>)
    ensures Bridge(a, b, quotes).None? <==> NoneBetween(quotes, a, b)
    ensures Bridge(a, b, quotes).Some? ==> FirstBetween(quotes, a, b, Bridge(a, b, quotes).value)
  {
    if quotes != [] && !Links(quotes[0], a, b) {
      var rest := quotes[1..];
      BridgeIs(a, b, rest);
      if Bridge(a, b, rest).Some? {
        var q := Bridge(a, b, rest).value;
        var k :| 0 <= k < |rest| && rest[k] == q && Between(q, a, b)
          && forall i :: 0 <= i < k ==> !Between(rest[i], a, b);
        FirstLater(quotes, a, b, q, k);
      } else {
        forall i | 0 <= i < |quotes| ensures !Between(quotes[i], a, b) { if i > 0 { assert rest[i - 1] == quotes[i]; } }
      }
    }
  }

  lemma FirstLater(quotes: seq<Quote>, a: string, b: string, q: Quote, k: nat)
    requires |quotes| > k + 1 && !Between(quotes[0], a, b) && quotes[1..][k] == q && Between(q, a, b)
    requires forall i :: 0 <= i < k ==> !Between(quotes[1..][i], a, b)
    ensures FirstBetween(quotes, a, b, q)
  {
    var j := k + 1;
    forall i | 0 <= i < j ensures !Between(quotes[i], a, b) { if i > 0 { assert quotes[1..][i - 1] == quotes[i]; } }
    assert quotes[j] == q;
  }

  lemma UseIs(q: Quote, source: string)
    ensures q.rate <= 0.0 ==> Use(q, source) == Err(NonPositiveRate)
    ensures q.rate > 0.0 ==> Use(q, source).Ok? && UsedFrom(q, source, Use(q, source).value.0, Use(q, source).value.1)
  {
  }

  lemma BridgeChain(source: string, target: string, quotes: seq<Quote>)
    requires !NoneBetween(quotes, source, "USD") && !NoneBetween(quotes, "USD", target)
    ensures var r := Chain(BridgeUse(source, USD, quotes), BridgeUse(USD, target, quotes));
            exists q, p ::
              FirstBetween(quotes, source, "USD", q) && FirstBetween(quotes, "USD", target, p)
              && OverTwo(r, q, p, source)
  {
    BridgeIs(source, USD, quotes);
    BridgeIs(USD, target, quotes);
    var q, p := Bridge(source, USD, quotes).value, Bridge(USD, target, quotes).value;
    UseIs(q, source);
    UseIs(p, USD);
    assert OverTwo(Chain(BridgeUse(source, USD, quotes), BridgeUse(USD, target, quotes)), q, p, source);
  }

  /** Which path there is between two currencies, and why there is none. */
  lemma PathExactly(fiat: string -> bool, source: string, target: string, quotes: seq<Quote>)
    requires Loaded(quotes)
    ensures PathIs(fiat, source, target, quotes, PathFor(fiat, source, target, quotes))
  {
    if fiat(source) && fiat(target) && source != target {
      var direct := Direct(source, target, quotes);
      DirectNone(source, target, quotes);
      if direct != [] {
        BestIs(source, target, quotes);
        UseIs(Best(direct), source);
        assert OverOne(PathFor(fiat, source, target, quotes), Best(direct), source);
      } else if source != USD && target != USD {
        BridgeIs(source, USD, quotes);
        BridgeIs(USD, target, quotes);
        if !NoneBetween(quotes, source, "USD") && !NoneBetween(quotes, "USD", target) {
          BridgeChain(source, target, quotes);
        }
      }
    }
  }
}
