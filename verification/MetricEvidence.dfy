/**
 * The price history a scenario seals with its metric inputs, and the verifier that later accepts or refuses
 * it from the revisions listed beside it. Stored prices and rates are in units of 10^-18.
 */
module MetricEvidence {
  import opened Results
  import opened Decimals
  import opened DecimalText
  import FxPaths

  const USD := "USD"
  const DIRECT := "direct"
  const INVERSE := "inverse"

  datatype FxStep = FxStep(base: string, quote: string, direction: string, rate: int)

  /** A time falls on a day; times are in seconds. */
  type Day = int

  /**
   * A listed price revision: the stored price, its text in USD, and the FX revisions behind it. An entry made up for
   * a day of USD cash carries that day in its id.
   */
  datatype Entry = Entry(id: nat, constant: Option<Day>, time: int, price: int, currency: string, usd: string,
                         path: seq<FxStep>)

  const SECONDS_PER_DAY := 86400

  function DayOf(e: Entry): Day {
    e.time / SECONDS_PER_DAY
  }

  // ----- Conversion

  /** The currency a step leads from and to. */
  function Ends(s: FxStep): Option<(string, string)> {
    if s.base == "" || s.quote == "" then None
    else if s.direction == DIRECT then Some((s.base, s.quote))
    else if s.direction == INVERSE then Some((s.quote, s.base))
    else None
  }

  function Apply(units: real, s: FxStep): real
    requires s.rate > 0
  {
    if s.direction == DIRECT then Times(units, s.rate as real / SCALE) else Times(units, SCALE / s.rate as real)
  }

  datatype Walked = Walked(at: string, units: real)

  /** Follows FX steps from a currency, multiplying or dividing by each rate. */
  function Walk(path: seq<FxStep>, from: string, units: real): Option<Walked> {
    if path == [] then Some(Walked(from, units))
    else
      var before := Walk(path[..|path| - 1], from, units);
      var s := path[|path| - 1];
      if before.None? || Ends(s).None? || Ends(s).value.0 != before.value.at || s.rate <= 0 then None
      else Some(Walked(Ends(s).value.1, Apply(before.value.units, s)))
  }

  /** A text that reads as exactly this many units. */
  predicate Reads(text: string, units: int) {
    var x := ParseDecimal(text);
    x.Some? && x.value.num * UNIT == units * x.value.den
  }

  predicate ReadsPositive(text: string) {
    var x := ParseDecimal(text);
    x.Some? && x.value.num > 0
  }

  /** What a listed revision must satisfy: its USD text is its price carried to USD and rounded. */
  ghost predicate Converts(e: Entry) {
    && e.price > 0 && ReadsPositive(e.usd) && e.currency != ""
    && if e.currency == USD then e.path == [] && Reads(e.usd, e.price)
       else
         var w := Walk(e.path, e.currency, e.price as real);
         e.path != [] && w.Some? && w.value.at == USD && Reads(e.usd, RoundHalfAway(w.value.units))
  }

  lemma WalkNext(path: seq<FxStep>, i: nat, from: string, units: real)
    requires i < |path|
    ensures var before, s := Walk(path[..i], from, units), path[i];
            Walk(path[..i + 1], from, units) ==
            if before.None? || Ends(s).None? || Ends(s).value.0 != before.value.at || s.rate <= 0 then None
            else Some(Walked(Ends(s).value.1, Apply(before.value.units, s)))
  {
    assert path[..i + 1][..i] == path[..i];
  }

  lemma {:induction false} WalkStuck(path: seq<FxStep>, k: nat, from: string, units: real)
    requires k <= |path| && Walk(path[..k], from, units).None?
    ensures Walk(path, from, units).None?
    decreases |path| - k
  {
    if k == |path| {
      assert path[..k] == path;
    } else {
      WalkNext(path, k, from, units);
      WalkStuck(path, k + 1, from, units);
    }
  }

  method FollowPath(path: seq<FxStep>, from: string, units: real) returns (r: Option<Walked>)
    ensures r == Walk(path, from, units)
  {
    var at, value := from, units;
    for i := 0 to |path|
      invariant Walk(path[..i], from, units) == Some(Walked(at, value))
    {
      WalkNext(path, i, from, units);
      var ends := Ends(path[i]);
      if ends.None? || ends.value.0 != at || path[i].rate <= 0 {
        WalkStuck(path, i + 1, from, units);
        return None;
      }
      value := Apply(value, path[i]);
      at := ends.value.1;
    }
    assert path[..|path|] == path;
    return Some(Walked(at, value));
  }

  // ----- What a conversion is

  /** What a step multiplies an amount by: its rate if it is direct, one over its rate if it is inverse. */
  ghost function Factor(s: FxStep): real
    requires s.rate > 0
  {
    if s.direction == "direct" then s.rate as real / SCALE else SCALE / s.rate as real
  }

  /** The quote behind a step. */
  ghost function QuoteOf(s: FxStep): FxPaths.Quote {
    FxPaths.Quote(0, s.base, s.quote, 0, None, 0, s.rate as real / SCALE)
  }

  ghost predicate GoesBetween(s: FxStep, from: string, to: string) {
    && s.rate > 0 && s.base != "" && s.quote != ""
    && ((s.direction == "direct" && s.base == from && s.quote == to)
        || (s.direction == "inverse" && s.base == to && s.quote == from))
  }

  lemma Cancels(x: real, y: real, a: real, b: real)
    requires b > 0.0 && Times(x, b) == a && Times(y, a) == b
    ensures Times(x, y) == 1.0
  {
    var z := Times(x, y);
    assert z * b == Times(y, Times(x, b));
    assert (z - 1.0) * b == 0.0;
  }

  lemma OneOver(r: int)
    requires r > 0
    ensures r as real / SCALE > 0.0 && SCALE / r as real == 1.0 / (r as real / SCALE)
  {
    var x, y := r as real / SCALE, SCALE / r as real;
    Cancels(x, y, r as real, SCALE);
    assert x > 0.0 && x * y == 1.0;
  }

  /** A step means what a quote means on a valuation's path: forward along a direct one, otherwise in reverse. */
  lemma StepLeads(s: FxStep, from: string, to: string)
    requires GoesBetween(s, from, to)
    ensures var edge := FxPaths.Edge(0, if s.direction == "direct" then FxPaths.Forward else FxPaths.Reverse);
            FxPaths.Leads([QuoteOf(s)], edge, from, to, Factor(s))
  {
    OneOver(s.rate);
    assert QuoteOf(s) in [QuoteOf(s)];
  }

  /** A path that goes from one currency to another, step by step. */
  ghost predicate Chains(path: seq<FxStep>, from: string, to: string) {
    if path == [] then from == to
    else
      var s := path[|path| - 1];
      var mid := if s.direction == "direct" then s.base else s.quote;
      GoesBetween(s, mid, to) && Chains(path[..|path| - 1], from, mid)
  }

  ghost predicate AllPositive(path: seq<FxStep>) {
    forall i :: 0 <= i < |path| ==> path[i].rate > 0
  }

  ghost function Product(path: seq<FxStep>): real
    requires AllPositive(path)
  {
    if path == [] then 1.0 else Times(Product(path[..|path| - 1]), Factor(path[|path| - 1]))
  }

  lemma {:induction false} ChainsPositive(path: seq<FxStep>, from: string, to: string)
    requires Chains(path, from, to)
    ensures AllPositive(path)
  {
    if path != [] {
      var n := |path| - 1;
      var mid := if path[n].direction == "direct" then path[n].base else path[n].quote;
      ChainsPositive(path[..n], from, mid);
      forall i | 0 <= i < |path| ensures path[i].rate > 0 { if i < n { assert path[..n][i] == path[i]; } }
    }
  }

  lemma ApplyIs(units: real, s: FxStep)
    requires s.rate > 0
    ensures Apply(units, s) == Times(units, Factor(s))
  {
  }

  lemma Reassociate(a: real, b: real, c: real)
    ensures Times(Times(a, b), c) == Times(a, Times(b, c)) && Times(a, 1.0) == a
  {
  }

  lemma {:induction false} WalkIs(path: seq<FxStep>, from: string, to: string, units: real)
    ensures Chains(path, from, to) <==> Walk(path, from, units).Some? && Walk(path, from, units).value.at == to
    ensures Chains(path, from, to) ==>
              AllPositive(path) && Walk(path, from, units) == Some(Walked(to, Times(units, Product(path))))
  {
    if path == [] {
      Reassociate(units, 1.0, 1.0);
    } else {
      var n := |path| - 1;
      var s := path[n];
      var mid := if s.direction == "direct" then s.base else s.quote;
      WalkIs(path[..n], from, mid, units);
      if Chains(path, from, to) {
        ChainsPositive(path, from, to);
        ApplyIs(Times(units, Product(path[..n])), s);
        Reassociate(units, Product(path[..n]), Factor(s));
      }
    }
  }

  /**
   * An accepted revision: a positive price whose USD text reads as the price itself, if it is in USD, and otherwise as
   * the nearest unit to the price times what the steps of its path from its currency to USD multiply by.
   */
  ghost predicate ConvertedTo(e: Entry, units: int) {
    && e.price > 0 && units > 0 && e.currency != "" && Reads(e.usd, units)
    && if e.currency == "USD" then e.path == [] && units == e.price
       else
         && e.path != [] && Chains(e.path, e.currency, "USD") && AllPositive(e.path)
         && units == RoundHalfAway(Times(e.price as real, Product(e.path)))
  }

  lemma ReadsOnce(text: string, units: int)
    requires Reads(text, units)
    ensures ReadsPositive(text) <==> units > 0
  {
    var x := ParseDecimal(text).value;
    ParsedValid(text);
    Signs(x.num, x.den, units);
  }

  lemma ParsedValid(text: string)
    requires ParseDecimal(text).Some?
    ensures ParseDecimal(text).value.den > 0
  {
  }

  lemma Signs(num: int, den: int, units: int)
    requires den > 0 && num * UNIT == units * den
    ensures num > 0 <==> units > 0
  {
    if units > 0 { assert units * den > 0; } else { assert units * den <= 0; }
  }

  /** What the verifier accepts is exactly that. */
  lemma ConvertsExactly(e: Entry)
    ensures Converts(e) <==> exists units :: ConvertedTo(e, units)
  {
    var w := Walk(e.path, e.currency, e.price as real);
    WalkIs(e.path, e.currency, "USD", e.price as real);
    if Converts(e) {
      var units := if e.currency == USD then e.price else RoundHalfAway(w.value.units);
      ReadsOnce(e.usd, units);
      assert ConvertedTo(e, units);
    }
    if units :| ConvertedTo(e, units) {
      ReadsOnce(e.usd, units);
    }
  }

  method ValidateConversion(e: Entry) returns (ok: bool)
    ensures ok <==> Converts(e)
    ensures ok <==> exists units :: ConvertedTo(e, units)
  {
    ConvertsExactly(e);
    if e.price <= 0 || !ReadsPositive(e.usd) || e.currency == "" {
      return false;
    }
    if e.currency == USD {
      return e.path == [] && Reads(e.usd, e.price);
    }
    if e.path == [] {
      return false;
    }
    var w := FollowPath(e.path, e.currency, e.price as real);
    return w.Some? && w.value.at == USD && Reads(e.usd, RoundHalfAway(w.value.units));
  }

  // ----- The verifier

  type History = map<Day, string>

  /** The last listed USD price of each day. */
  function LastPerDay(entries: seq<Entry>): History {
    if entries == [] then map[]
    else
      var last := entries[|entries| - 1];
      LastPerDay(entries[..|entries| - 1])[DayOf(last) := last.usd]
  }

  ghost predicate IsLast(entries: seq<Entry>, i: int, day: Day) {
    && 0 <= i < |entries| && DayOf(entries[i]) == day
    && forall j :: i < j < |entries| ==> DayOf(entries[j]) != day
  }

  /** A day is in the history only if it is listed. */
  lemma {:induction false} DayIsListed(entries: seq<Entry>, day: Day)
    requires day in LastPerDay(entries)
    ensures exists i :: 0 <= i < |entries| && DayOf(entries[i]) == day
  {
    var n := |entries| - 1;
    if DayOf(entries[n]) != day {
      DayIsListed(entries[..n], day);
      var i :| 0 <= i < n && DayOf(entries[..n][i]) == day;
      assert entries[..n][i] == entries[i];
    }
  }

  /** A listed day is in the history, with the text of its last entry. */
  lemma {:induction false} LastIsShown(entries: seq<Entry>, i: nat, day: Day)
    requires IsLast(entries, i, day)
    ensures day in LastPerDay(entries) && LastPerDay(entries)[day] == entries[i].usd
  {
    var n := |entries| - 1;
    if i < n {
      assert DayOf(entries[n]) != day;
      LastIsShown(entries[..n], i, day);
    }
  }

  /** Whether the stored rows bear out a listed revision. */
  type Genuine = (string, Entry) -> bool

  /** The two groups of listings; cash instruments have a native currency. */
  datatype Group = Priced | Cash(native: map<string, string>)

  /** An entry for a day of USD cash: one dollar is worth one dollar, and the day is that of the entry. */
  ghost predicate IsConstant(e: Entry) {
    e.constant == Some(DayOf(e)) && e.price == UNIT && e.currency == USD && e.usd == "1" && e.path == []
  }

  /** A listed revision that is genuine and converts, or constant USD cash. */
  ghost predicate Holds(k: string, e: Entry, group: Group, genuine: Genuine) {
    if group.Priced? then genuine(k, e) && Converts(e)
    else
      && k in group.native && group.native[k] != ""
      && if e.constant.Some? then group.native[k] == USD && IsConstant(e)
         else e.currency == group.native[k] && genuine(k, e) && Converts(e)
  }

  method CheckEntry(k: string, e: Entry, group: Group, genuine: Genuine) returns (ok: bool)
    ensures ok <==> Holds(k, e, group, genuine)
  {
    if group.Cash? {
      if k !in group.native || group.native[k] == "" {
        return false;
      }
      if e.constant.Some? {
        return group.native[k] == USD && e.constant == Some(DayOf(e)) && e.price == UNIT && e.currency == USD
          && e.usd == "1" && e.path == [];
      }
      if e.currency != group.native[k] {
        return false;
      }
    }
    if !genuine(k, e) {
      return false;
    }
    ok := ValidateConversion(e);
  }

  type Listings = map<string, seq<Entry>>

  /** A bundle: the sealed histories by instrument, and the revisions listed for priced and for cash instruments. */
  datatype Bundle = Bundle(histories: map<string, History>, priced: Listings, cash: Listings)

  ghost predicate AllHold(k: string, listed: seq<Entry>, group: Group, genuine: Genuine) {
    forall i :: 0 <= i < |listed| ==> Holds(k, listed[i], group, genuine)
  }

  ghost predicate ListingsSound(listings: Listings, group: Group, genuine: Genuine) {
    forall k :: k in listings ==> listings[k] != [] && AllHold(k, listings[k], group, genuine)
  }

  function Entries(b: Bundle, k: string): seq<Entry> {
    if k in b.priced then b.priced[k] else if k in b.cash then b.cash[k] else []
  }

  /** What an accepted bundle is: every listed revision holds up, and each history is the last price of each day. */
  ghost predicate Acceptable(b: Bundle, native: map<string, string>, genuine: Genuine) {
    && ListingsSound(b.priced, Priced, genuine) && ListingsSound(b.cash, Cash(native), genuine)
    && b.priced.Keys !! b.cash.Keys
    && b.histories.Keys == b.priced.Keys + b.cash.Keys
    && forall k :: k in b.histories ==> b.histories[k] == LastPerDay(Entries(b, k))
  }

  ghost predicate HoldUpTo(k: string, entries: seq<Entry>, n: nat, group: Group, genuine: Genuine) {
    forall i :: 0 <= i < n && i < |entries| ==> Holds(k, entries[i], group, genuine)
  }

  lemma HoldNext(k: string, entries: seq<Entry>, n: nat, group: Group, genuine: Genuine)
    requires n < |entries| && HoldUpTo(k, entries, n, group, genuine) && Holds(k, entries[n], group, genuine)
    ensures HoldUpTo(k, entries, n + 1, group, genuine)
  {
    forall i | 0 <= i < n + 1 && i < |entries| ensures Holds(k, entries[i], group, genuine) {
      if i == n { assert entries[i] == entries[n]; }
    }
  }

  /** Checks the listed revisions of one instrument and collects the history they call for. */
  method VerifyEntries(k: string, entries: seq<Entry>, group: Group, genuine: Genuine) returns (r: Option<History>)
    ensures r.Some? <==> entries != [] && AllHold(k, entries, group, genuine)
    ensures r.Some? ==> r.value == LastPerDay(entries)
  {
    if entries == [] {
      return None;
    }
    var expected: History := map[];
    for i := 0 to |entries|
      invariant expected == LastPerDay(entries[..i])
      invariant HoldUpTo(k, entries, i, group, genuine)
    {
      assert entries[..i + 1][..i] == entries[..i];
      var ok := CheckEntry(k, entries[i], group, genuine);
      if !ok {
        return None;
      }
      HoldNext(k, entries, i, group, genuine);
      expected := expected[DayOf(entries[i]) := entries[i].usd];
    }
    assert entries[..|entries|] == entries;
    return Some(expected);
  }

  /** The histories the listings so far call for. */
  ghost predicate Collected(expected: map<string, History>, done: set<string>, listings: Listings) {
    forall k :: k in done ==> k in listings && k in expected && expected[k] == LastPerDay(listings[k])
  }

  ghost predicate Done(done: set<string>, listings: Listings, group: Group, genuine: Genuine) {
    forall k :: k in done && k in listings ==>
      listings[k] != [] && AllHold(k, listings[k], group, genuine)
  }

  /** One group of listings, instrument by instrument; an instrument listed in an earlier group is refused. */
  method VerifyGroup(listings: Listings, earlier: map<string, History>, group: Group, genuine: Genuine)
    returns (r: Option<map<string, History>>)
    ensures r.Some? <==> ListingsSound(listings, group, genuine) && listings.Keys !! earlier.Keys
    ensures r.Some? ==> r.value.Keys == earlier.Keys + listings.Keys && Collected(r.value, listings.Keys, listings)
    ensures r.Some? ==> forall k :: k in earlier ==> r.value[k] == earlier[k]
  {
    var expected, left, done := earlier, listings.Keys, {};
    while left != {}
      invariant left + done == listings.Keys && left !! done
      invariant expected.Keys == earlier.Keys + done && done !! earlier.Keys
      invariant Collected(expected, done, listings) && Done(done, listings, group, genuine)
      invariant forall k :: k in earlier ==> k in expected && expected[k] == earlier[k]
      decreases left
    {
      var k :| k in left;
      var history := VerifyEntries(k, listings[k], group, genuine);
      if history.None? {
        return None;
      }
      if k in expected {
        assert k in earlier;
        return None;
      }
      expected := expected[k := history.value];
      left, done := left - {k}, done + {k};
    }
    assert done == listings.Keys;
    return Some(expected);
  }

  /** Compares the sealed histories with the ones the listings call for. */
  method Verify(b: Bundle, native: map<string, string>, genuine: Genuine) returns (ok: bool)
    ensures ok <==> Acceptable(b, native, genuine)
  {
    var priced := VerifyGroup(b.priced, map[], Priced, genuine);
    if priced.None? {
      return false;
    }
    var all := VerifyGroup(b.cash, priced.value, Cash(native), genuine);
    if all.None? {
      return false;
    }
    CollectedIsExpected(b, priced.value, all.value);
    ok := b.histories == all.value;
    SameHistories(b.histories, all.value);
  }

  lemma CollectedIsExpected(b: Bundle, priced: map<string, History>, all: map<string, History>)
    requires priced.Keys == b.priced.Keys && Collected(priced, b.priced.Keys, b.priced)
    requires all.Keys == priced.Keys + b.cash.Keys && Collected(all, b.cash.Keys, b.cash)
    requires b.priced.Keys !! b.cash.Keys && forall k :: k in priced ==> all[k] == priced[k]
    ensures forall k :: k in all ==> all[k] == LastPerDay(Entries(b, k))
  {
  }

  lemma SameHistories(a: map<string, History>, b: map<string, History>)
    ensures a == b <==> a.Keys == b.Keys && forall k :: k in a && k in b ==> a[k] == b[k]
  {
    if a.Keys == b.Keys && forall k :: k in a && k in b ==> a[k] == b[k] { assert a == b; }
  }

  // ----- The producer

  /** The entries in the order sort.SliceStable leaves them: by time, then id. */
  ghost predicate InOrder(entries: seq<Entry>) {
    forall i, j :: 0 <= i < j < |entries| ==>
      entries[i].time < entries[j].time || (entries[i].time == entries[j].time && entries[i].id <= entries[j].id)
  }

  /** The first entry of each time. */
  function Selected(ordered: seq<Entry>): (r: seq<Entry>)
    ensures r == [] <==> ordered == []
    ensures r != [] ==> r[|r| - 1].time == ordered[|ordered| - 1].time
    ensures forall e :: e in r ==> e in ordered
  {
    if ordered == [] then []
    else
      var before, last := Selected(ordered[..|ordered| - 1]), ordered[|ordered| - 1];
      if before != [] && before[|before| - 1].time == last.time then before else before + [last]
  }

  ghost predicate TimesAscend(entries: seq<Entry>) {
    forall i, j :: 0 <= i < j < |entries| ==> entries[i].time < entries[j].time
  }

  /** Sorted entries are listed once for each time, in order of time. */
  lemma {:induction false} SelectedAscends(ordered: seq<Entry>)
    requires InOrder(ordered)
    ensures TimesAscend(Selected(ordered))
    ensures forall i :: 0 <= i < |Selected(ordered)| ==> Selected(ordered)[i].time <= ordered[|ordered| - 1].time
  {
    if ordered != [] { SelectedAscends(ordered[..|ordered| - 1]); }
  }

  /** Every sorted entry has a listed one of the same time, with the lowest id of that time. */
  lemma {:induction false} SelectedIsFirst(ordered: seq<Entry>, k: nat)
    requires InOrder(ordered) && k < |ordered|
    ensures exists e :: e in Selected(ordered) && e.time == ordered[k].time && e.id <= ordered[k].id
  {
    var n := |ordered| - 1;
    var before := Selected(ordered[..n]);
    if k < n {
      SelectedIsFirst(ordered[..n], k);
      var e :| e in before && e.time == ordered[k].time && e.id <= ordered[k].id;
      assert e in Selected(ordered);
    } else if before != [] && before[|before| - 1].time == ordered[n].time {
      var last := before[|before| - 1];
      assert last in before && last in Selected(ordered) && last in ordered[..n];
    } else {
      assert ordered[n] in Selected(ordered);
    }
  }

  /** The text a history carries: the USD price, or the stored price where no conversion was found. */
  function Shown(e: Entry): string {
    if e.usd == "" then PrintUnits(e.price) else e.usd
  }

  function Aggregated(listed: seq<Entry>): History {
    if listed == [] then map[]
    else Aggregated(listed[..|listed| - 1])[DayOf(listed[|listed| - 1]) := Shown(listed[|listed| - 1])]
  }

  lemma SelectedNext(ordered: seq<Entry>, i: nat)
    requires i < |ordered|
    ensures var before, e := Selected(ordered[..i]), ordered[i];
            Selected(ordered[..i + 1]) ==
            if before != [] && before[|before| - 1].time == e.time then before else before + [e]
  {
    assert ordered[..i + 1][..i] == ordered[..i];
  }

  method SelectRevisions(ordered: seq<Entry>) returns (listed: seq<Entry>)
    ensures listed == Selected(ordered)
  {
    listed := [];
    for i := 0 to |ordered|
      invariant listed == Selected(ordered[..i])
    {
      SelectedNext(ordered, i);
      if listed == [] || listed[|listed| - 1].time != ordered[i].time {
        listed := listed + [ordered[i]];
      }
    }
    assert ordered[..|ordered|] == ordered;
  }

  lemma AggregatedNext(listed: seq<Entry>, i: nat, day: Day, text: string)
    requires i < |listed| && day == DayOf(listed[i]) && text == Shown(listed[i])
    ensures Aggregated(listed[..i + 1]) == Aggregated(listed[..i])[day := text]
  {
    assert listed[..i + 1][..i] == listed[..i];
  }

  method AggregateHistory(listed: seq<Entry>) returns (history: History)
    ensures history == Aggregated(listed)
  {
    history := map[];
    for i := 0 to |listed|
      invariant history == Aggregated(listed[..i])
    {
      var day, text := DayOf(listed[i]), Shown(listed[i]);
      AggregatedNext(listed, i, day, text);
      history := history[day := text];
    }
    assert listed[..|listed|] == listed;
  }

  /** Lists the selected revisions and seals the last price of each day. */
  method Produce(ordered: seq<Entry>) returns (listed: seq<Entry>, history: History)
    ensures listed == Selected(ordered) && history == Aggregated(listed)
  {
    listed := SelectRevisions(ordered);
    history := AggregateHistory(listed);
  }

  /** A revision's USD text as the producer fills it in, from the FX revision it found. */
  function Filled(e: Entry, fx: Option<FxStep>): Result<Entry, ()> {
    if e.currency == USD then Ok(e.(usd := PrintUnits(e.price), path := []))
    else if fx.None? then Ok(e.(usd := "", path := []))
    else if e.price <= 0 || fx.value.rate <= 0 then Err(())
    else if fx.value.direction != DIRECT && fx.value.direction != INVERSE then Err(())
    else Ok(e.(usd := PrintUnits(RoundHalfAway(Apply(e.price as real, fx.value))), path := [fx.value]))
  }

  /**
   * What it prints: the price itself in USD, nothing without an FX revision, and otherwise the nearest unit to the
   * price times what the one step multiplies by.
   */
  lemma FilledPrints(e: Entry, fx: Option<FxStep>)
    ensures e.currency == "USD" ==> Filled(e, fx) == Ok(e.(usd := PrintUnits(e.price), path := []))
    ensures e.currency != "USD" && fx.None? ==> Filled(e, fx) == Ok(e.(usd := "", path := []))
    ensures e.currency != "USD" && fx.Some? ==>
              && (Filled(e, fx).Ok? <==>
                    e.price > 0 && fx.value.rate > 0
                    && (fx.value.direction == "direct" || fx.value.direction == "inverse"))
              && (Filled(e, fx).Ok? ==>
                    Filled(e, fx).value.path == [fx.value] && Filled(e, fx).value.currency == e.currency
                    && Filled(e, fx).value.price == e.price
                    && Filled(e, fx).value.usd == PrintUnits(RoundHalfAway(Times(e.price as real, Factor(fx.value)))))
  {
    if fx.Some? && fx.value.rate > 0 { ApplyIs(e.price as real, fx.value); }
  }

  /** The FX histories hold quotes between a currency and USD, direct or inverse. */
  ghost predicate QuotesToUsd(fx: FxStep, currency: string) {
    || (fx.direction == DIRECT && fx.base == currency && fx.quote == USD)
    || (fx.direction == INVERSE && fx.base == USD && fx.quote == currency)
  }

  lemma PrintedReads(units: int, other: int)
    ensures Reads(PrintUnits(units), other) <==> units == other
    ensures ReadsPositive(PrintUnits(units)) <==> units > 0
  {
    ParsePrinted(units);
  }

  lemma EmptyReadsNothing()
    ensures !ReadsPositive("")
  {
  }

  lemma WalkOne(fx: FxStep, from: string, units: real)
    ensures Walk([fx], from, units) ==
            if Ends(fx).None? || Ends(fx).value.0 != from || fx.rate <= 0 then None
            else Some(Walked(Ends(fx).value.1, Apply(units, fx)))
  {
    assert [fx][..0] == [];
  }

  /**
   * A filled-in revision holds up exactly when its price is positive, an FX rate was found, and it does not round to
   * zero.
   */
  lemma FilledConverts(e: Entry, fx: Option<FxStep>)
    requires e.currency != "" && Filled(e, fx).Ok? && (fx.Some? ==> QuotesToUsd(fx.value, e.currency))
    ensures Converts(Filled(e, fx).value) <==>
              if e.currency == USD then e.price > 0
              else fx.Some? && RoundHalfAway(Times(e.price as real, Factor(fx.value))) > 0
  {
    EmptyReadsNothing();
    if e.currency == USD {
      PrintedReads(e.price, e.price);
    } else if fx.Some? {
      var units := RoundHalfAway(Apply(e.price as real, fx.value));
      PrintedReads(units, units);
      WalkOne(fx.value, e.currency, e.price as real);
      ApplyIs(e.price as real, fx.value);
    }
  }

  lemma {:induction false} AggregatedIsLast(listed: seq<Entry>)
    requires forall i :: 0 <= i < |listed| ==> listed[i].usd != ""
    ensures Aggregated(listed) == LastPerDay(listed)
  {
    if listed != [] { AggregatedIsLast(listed[..|listed| - 1]); }
  }

  ghost predicate Produced(b: Bundle, orders: Listings) {
    && b.priced.Keys !! b.cash.Keys
    && b.histories.Keys == b.priced.Keys + b.cash.Keys == orders.Keys
    && forall k :: k in orders ==>
         InOrder(orders[k]) && orders[k] != [] && Entries(b, k) == Selected(orders[k]) &&
           b.histories[k] == Aggregated(Entries(b, k))
  }

  function GroupOf(b: Bundle, k: string, native: map<string, string>): Group {
    if k in b.priced then Priced else Cash(native)
  }

  lemma HeldText(k: string, e: Entry, group: Group, genuine: Genuine)
    requires Holds(k, e, group, genuine)
    ensures e.usd != ""
  {
    EmptyReadsNothing();
  }

  lemma HistoryMatches(k: string, listed: seq<Entry>, group: Group, genuine: Genuine)
    requires AllHold(k, listed, group, genuine)
    ensures Aggregated(listed) == LastPerDay(listed)
  {
    forall i | 0 <= i < |listed| ensures listed[i].usd != "" { HeldText(k, listed[i], group, genuine); }
    AggregatedIsLast(listed);
  }

  ghost predicate EachHolds(b: Bundle, orders: Listings, native: map<string, string>, genuine: Genuine) {
    forall k :: k in orders ==> AllHold(k, Selected(orders[k]), GroupOf(b, k, native), genuine)
  }

  lemma EachHoldsAccepted(b: Bundle, orders: Listings, native: map<string, string>, genuine: Genuine)
    requires Produced(b, orders) && EachHolds(b, orders, native, genuine)
    ensures Acceptable(b, native, genuine)
  {
    forall k | k in orders ensures b.histories[k] == LastPerDay(Entries(b, k)) {
      HistoryMatches(k, Entries(b, k), GroupOf(b, k, native), genuine);
    }
    forall k | k in b.priced ensures b.priced[k] != [] && AllHold(k, b.priced[k], Priced, genuine) {
      assert k in orders && Entries(b, k) == b.priced[k];
    }
    forall k | k in b.cash ensures b.cash[k] != [] && AllHold(k, b.cash[k], Cash(native), genuine) {
      assert k in orders && Entries(b, k) == b.cash[k];
    }
  }

  lemma AcceptedHolds(b: Bundle, orders: Listings, native: map<string, string>, genuine: Genuine)
    requires Produced(b, orders) && Acceptable(b, native, genuine)
    ensures EachHolds(b, orders, native, genuine)
  {
    forall k | k in orders ensures AllHold(k, Selected(orders[k]), GroupOf(b, k, native), genuine) {
      assert k in b.priced || k in b.cash;
    }
  }

  /** A producer's bundle is accepted exactly when every revision it lists holds up on its own. */
  lemma ProducedAccepted(b: Bundle, orders: Listings, native: map<string, string>, genuine: Genuine)
    requires Produced(b, orders)
    ensures Acceptable(b, native, genuine) <==> EachHolds(b, orders, native, genuine)
  {
    if EachHolds(b, orders, native, genuine) {
      EachHoldsAccepted(b, orders, native, genuine);
    }
    if Acceptable(b, native, genuine) {
      AcceptedHolds(b, orders, native, genuine);
    }
  }

  /** A price the producer filled in from the FX revision it found, if any. */
  ghost predicate FilledIn(e: Entry) {
    exists raw: Entry, fx: Option<FxStep> ::
      Filled(raw, fx) == Ok(e) && raw.currency != "" && (fx.Some? ==> QuotesToUsd(fx.value, raw.currency))
  }

  /**
   * What the producer lists: constant entries for USD cash, filled-in revisions otherwise, for cash in its own
   * currency.
   */
  ghost predicate ProducedEntry(k: string, e: Entry, group: Group, genuine: Genuine) {
    && (group.Cash? ==> k in group.native && group.native[k] == e.currency)
    && if e.constant.Some? then group.Cash? && IsConstant(e) else genuine(k, e) && FilledIn(e)
  }

  /** A rate was found for the price, and the converted price does not round to zero. */
  ghost predicate FoundAndPositive(e: Entry) {
    if e.constant.Some? || e.currency == USD then e.price > 0
    else e.path != [] && e.path[0].rate > 0 && RoundHalfAway(Times(e.price as real, Factor(e.path[0]))) > 0
  }

  lemma FilledInConverts(e: Entry)
    requires FilledIn(e) && e.constant.None?
    ensures e.currency != "" && (Converts(e) <==> FoundAndPositive(e))
  {
    var raw: Entry, fx: Option<FxStep> :|
      Filled(raw, fx) == Ok(e) && raw.currency != "" && (fx.Some? ==> QuotesToUsd(fx.value, raw.currency));
    FilledConverts(raw, fx);
  }

  lemma ProducedHolds(k: string, e: Entry, group: Group, genuine: Genuine)
    requires ProducedEntry(k, e, group, genuine)
    ensures Holds(k, e, group, genuine) <==> FoundAndPositive(e)
  {
    if e.constant.None? { FilledInConverts(e); }
  }

  ghost predicate AllProduced(b: Bundle, orders: Listings, native: map<string, string>, genuine: Genuine) {
    forall k :: k in orders ==> forall i :: 0 <= i < |Selected(orders[k])| ==>
      ProducedEntry(k, Selected(orders[k])[i], GroupOf(b, k, native), genuine)
  }

  ghost predicate AllFound(listed: seq<Entry>) {
    forall i :: 0 <= i < |listed| ==> FoundAndPositive(listed[i])
  }

  /**
   * The verifier accepts exactly the producer's bundles in which every price found an FX rate and no price
   * rounds to zero in USD; where a rate is missing the producer still seals the unconverted price, and is refused.
   */
  lemma ProducerAcceptedExactly(b: Bundle, orders: Listings, native: map<string, string>, genuine: Genuine)
    requires Produced(b, orders) && AllProduced(b, orders, native, genuine)
    ensures Acceptable(b, native, genuine) <==> forall k :: k in orders ==> AllFound(Selected(orders[k]))
  {
    ProducedAccepted(b, orders, native, genuine);
    forall k | k in orders
      ensures AllHold(k, Selected(orders[k]), GroupOf(b, k, native), genuine) <==> AllFound(Selected(orders[k]))
    {
      forall i | 0 <= i < |Selected(orders[k])|
        ensures Holds(k, Selected(orders[k])[i], GroupOf(b, k, native), genuine) <==>
                  FoundAndPositive(Selected(orders[k])[i])
      {
        ProducedHolds(k, Selected(orders[k])[i], GroupOf(b, k, native), genuine);
      }
    }
  }

  // ----- A price without a rate

  const EURO_PRICE := Entry(1, None, 0, UNIT, "EUR", "", [])
  const UNCONVERTED := Bundle(map["bond" := map[0 := PrintUnits(UNIT)]], map["bond" := [EURO_PRICE]], map[])

  /** The producer seals a euro price for which it found no FX rate, and whatever the stored rows say it is refused. */
  lemma MissingRateRefused(native: map<string, string>, genuine: Genuine)
    ensures Filled(EURO_PRICE, None) == Ok(EURO_PRICE) && Produced(UNCONVERTED, map["bond" := [EURO_PRICE]])
    ensures !Acceptable(UNCONVERTED, native, genuine)
  {
    var orders := map["bond" := [EURO_PRICE]];
    assert [EURO_PRICE][..0] == [];
    assert Selected([EURO_PRICE]) == [EURO_PRICE];
    assert DayOf(EURO_PRICE) == 0 && Shown(EURO_PRICE) == PrintUnits(UNIT);
    assert Aggregated([EURO_PRICE]) == map[0 := PrintUnits(UNIT)];
    EmptyReadsNothing();
    assert !Converts(EURO_PRICE) && !Holds("bond", EURO_PRICE, Priced, genuine);
    assert UNCONVERTED.priced["bond"][0] == EURO_PRICE;
  }
}
