/** Exact subset enumeration: the allocation loop and what it computes. */
module Allocation {
  import opened Results
  import opened Decimals
  import opened Subsets
  import opened Permutations
  import opened Shapley
  import opened Enumeration

  const MAX_SUPPORTED_FACTORS := 8

  type ValueFunction = set<string> -> Result<real, Failure>

  /** The values a value function returns, with 0 where it fails. */
  ghost function Worth(value: ValueFunction): Game {
    S => if value(S).Ok? then value(S).value else 0.0
  }

  predicate ValidFactors(names: seq<string>, maxFactors: int) {
    && (forall i :: 0 <= i < |names| ==> names[i] != "")
    && Distinct(names)
    && |names| <= MAX_SUPPORTED_FACTORS
    && 0 <= maxFactors
    && |names| <= maxFactors
  }

  /** Names that are not attributed: an empty one, a repeated one, or more than eight or than the caller allows. */
  ghost predicate NamesRefused(names: seq<string>, maxFactors: int) {
    || "" in names
    || (exists i, j :: 0 <= i < j < |names| && names[i] == names[j])
    || |names| > 8 || maxFactors < 0 || |names| > maxFactors
  }

  lemma ValidFactorsExactly(names: seq<string>, maxFactors: int)
    ensures ValidFactors(names, maxFactors) <==> !NamesRefused(names, maxFactors)
  {
  }

  ghost predicate AllValued(value: ValueFunction, names: seq<string>) {
    forall S :: S <= Elements(names) ==> value(S).Ok?
  }

  ghost predicate Covers(cache: map<set<string>, real>, names: seq<string>, v: Game) {
    forall S :: S <= Elements(names) ==> S in cache && cache[S] == v(S)
  }

  /** Allocates a scalar utility: each name's share is its average marginal contribution. */
  method ShapleyAllocate(names: seq<string>, value: ValueFunction, maxFactors: int)
    returns (r: Result<map<string, real>, Failure>)
    ensures NamesRefused(names, maxFactors) <==> !ValidFactors(names, maxFactors)
    ensures NamesRefused(names, maxFactors) ==> r == Err(AttributionInvalid)
    ensures ValidFactors(names, maxFactors) ==> (r.Ok? <==> AllValued(value, names))
    ensures ValidFactors(names, maxFactors) && r.Err? ==> exists S :: S <= Elements(names) && value(S) == Err(r.error)
    ensures r.Ok? ==> r.value.Keys == Elements(names)
    ensures r.Ok? ==> forall f :: f in names ==> r.value[f] == OrderingAverage(names, Worth(value), f)
  {
    ValidFactorsExactly(names, maxFactors);
    if !ValidFactors(names, maxFactors) {
      return Err(AttributionInvalid);
    }
    var filled := FillCache(names, value);
    if filled.Err? {
      return Err(filled.error);
    }
    var contributions: map<string, real> := map[];
    for i := 0 to |names|
      invariant contributions.Keys == Elements(names[..i])
      invariant forall f :: f in names[..i] ==> contributions[f] == OrderingAverage(names, Worth(value), f)
    {
      var contribution := ContributionOf(names, filled.value, names[i], Worth(value));
      contributions := contributions[names[i] := contribution];
      assert names[..i + 1] == names[..i] + [names[i]];
    }
    assert names[..|names|] == names;
    return Ok(contributions);
  }

  method FillCache(names: seq<string>, value: ValueFunction) returns (r: Result<map<set<string>, real>, Failure>)
    requires Distinct(names)
    ensures r.Ok? <==> AllValued(value, names)
    ensures r.Err? ==> exists S :: S <= Elements(names) && value(S) == Err(r.error)
    ensures r.Ok? ==> Covers(r.value, names, Worth(value))
  {
    var cache: map<set<string>, real> := map[];
    for size := 0 to |names| + 1
      invariant forall S :: S <= Elements(names) && |S| < size ==> S in cache
      invariant forall S :: S in cache ==> value(S) == Ok(cache[S])
    {
      var more := FillSize(cache, Combinations(names, size), value);
      if more.Err? {
        CombinationsShape(names, size);
        return Err(more.error);
      }
      cache := more.value;
      forall S | S <= Elements(names) && |S| == size ensures S in cache {
        CombinationsComplete(names, size, S);
      }
    }
    forall S | S <= Elements(names) ensures S in cache && cache[S] == Worth(value)(S) {
      SubsetSize(S, Elements(names));
      ElementsSize(names);
    }
    return Ok(cache);
  }

  /** Adds the selections of one size to the cache. */
  method FillSize(cache: map<set<string>, real>, selections: seq<seq<string>>, value: ValueFunction)
    returns (r: Result<map<set<string>, real>, Failure>)
    requires forall S :: S in cache ==> value(S) == Ok(cache[S])
    ensures r.Ok? ==> cache.Keys <= r.value.Keys
    ensures r.Ok? ==> forall i :: 0 <= i < |selections| ==> Elements(selections[i]) in r.value
    ensures r.Ok? ==> forall S :: S in r.value ==> value(S) == Ok(r.value[S])
    ensures r.Err? ==> exists c :: c in selections && value(Elements(c)) == Err(r.error)
  {
    var filled := cache;
    for j := 0 to |selections|
      invariant cache.Keys <= filled.Keys
      invariant forall i :: 0 <= i < j ==> Elements(selections[i]) in filled
      invariant forall S :: S in filled ==> value(S) == Ok(filled[S])
    {
      var subset := Elements(selections[j]);
      var outcome := value(subset);
      if outcome.Err? {
        assert selections[j] in selections;
        return Err(outcome.error);
      }
      filled := filled[subset := outcome.value];
    }
    return Ok(filled);
  }

  /** How much one subset with size names counts among the orderings of count names. */
  function SubsetWeight(size: int, count: int): real {
    (Factorial(size) * Factorial(count - size - 1)) as real / Max1(Factorial(count)) as real
  }

  method ContributionOf(names: seq<string>, cache: map<set<string>, real>, factor: string, ghost v: Game)
    returns (contribution: real)
    requires Distinct(names) && factor in names && Covers(cache, names, v)
    ensures contribution == OrderingAverage(names, v, factor)
  {
    var count := |names|;
    var remaining := Drop(names, factor);
    ghost var g := Shared(count, WeightedGain(count - 1, v, factor));
    contribution := 0.0;
    for size := 0 to |remaining| + 1
      invariant contribution == SumSizes(remaining, {}, g, size)
    {
      var weight := SubsetWeight(size, count);
      SelectionGains(names, count, size, v, factor, weight, g);
      var added := WeighSelections(cache, factor, Combinations(remaining, size), weight, names, v, g);
      contribution := contribution + added;
    }
    LoopTotal(names, count, v, factor, g);
  }

  lemma LoopTotal(names: seq<string>, n: int, v: Game, f: string, g: Game)
    requires Distinct(names) && f in names && n == |names| && g == Shared(n, WeightedGain(n - 1, v, f))
    ensures SumSizes(Drop(names, f), {}, g, |Drop(names, f)| + 1) == OrderingAverage(names, v, f)
  {
    DropDistinct(names, f);
    SizesCoverSubsets(Drop(names, f), {}, g);
    SubsetFormIsAverage(names, n, n - 1, v, f);
  }

  lemma SelectionGains(names: seq<string>, n: int, size: nat, v: Game, f: string, weight: real, g: Game)
    requires Distinct(names) && n == |names| && weight == SubsetWeight(size, n)
    requires g == Shared(n, WeightedGain(n - 1, v, f))
    ensures forall c :: c in Combinations(Drop(names, f), size) ==>
              Elements(c) <= Elements(names) && Times(weight, Gain(v, f)(Elements(c))) == g(Elements(c))
  {
    DropDistinct(names, f);
    CombinationsShape(Drop(names, f), size);
    forall c | c in Combinations(Drop(names, f), size)
      ensures Elements(c) <= Elements(names) && Times(weight, Gain(v, f)(Elements(c))) == g(Elements(c))
    {
      DropElements(names, f);
      SelectionGain(n, n - 1, size, v, f, c, weight);
    }
  }

  /** The innermost loop: one weight applied to the gain on each selection of one size. */
  method WeighSelections(cache: map<set<string>, real>, factor: string, selections: seq<seq<string>>, weight: real,
                         ghost names: seq<string>, ghost v: Game, ghost g: Game)
    returns (total: real)
    requires factor in names && Covers(cache, names, v)
    requires forall c :: c in selections ==>
               Elements(c) <= Elements(names) && Times(weight, Gain(v, factor)(Elements(c))) == g(Elements(c))
    ensures total == SumList(selections, {}, g)
  {
    total := 0.0;
    assert factor in Elements(names);
    for j := 0 to |selections|
      invariant total == SumList(selections[..j], {}, g)
    {
      var subset := Elements(selections[j]);
      assert selections[j] in selections;
      var gain := cache[subset + {factor}] - cache[subset];
      assert gain == Gain(v, factor)(subset);
      SumListNext(selections, j, g);
      total := total + Times(weight, gain);
    }
    assert selections[..|selections|] == selections;
  }

  lemma SumListNext(cs: seq<seq<string>>, j: nat, g: Game)
    requires j < |cs|
    ensures SumList(cs[..j + 1], {}, g) == SumList(cs[..j], {}, g) + g(Elements(cs[j]))
  {
    assert cs[..j + 1][..j] == cs[..j];
    assert {} + Elements(cs[j]) == Elements(cs[j]);
  }

  lemma FractionOfProduct(x: real, k: real, g: real)
    requires k != 0.0
    ensures x / k * g == (x * g) / k
  {
    var q := x / k;
    assert q * k == x;
    MultiplyThenDivide(k, q * g);
    assert x * g == k * (q * g);
  }

  lemma WeightIsShare(n: int, k: int, w: int, weight: real, d: real)
    requires k == Factorial(n) && k >= 1 && weight == w as real / k as real
    ensures Times(weight, d) == Share(n, Times(w as real, d))
  {
    FractionOfProduct(w as real, k as real, d);
  }

  lemma WeightedGainAt(m: int, v: Game, f: string, S: set<string>, size: int, w: int)
    requires |S| == size && w == Weight(size, m)
    ensures WeightedGain(m, v, f)(S) == Times(w as real, Gain(v, f)(S))
  {
  }

  lemma SubsetWeightIs(size: int, n: int, m: int, w: int, k: int)
    requires m == n - 1 && w == Weight(size, m) && k == Factorial(n) && k >= 1
    ensures SubsetWeight(size, n) == w as real / k as real
  {
    assert n - size - 1 == m - size;
  }

  lemma SelectionGain(n: int, m: int, size: nat, v: Game, f: string, c: seq<string>, weight: real)
    requires Distinct(c) && |c| == size && m == n - 1 && weight == SubsetWeight(size, n)
    ensures Times(weight, Gain(v, f)(Elements(c))) == Shared(n, WeightedGain(m, v, f))(Elements(c))
  {
    var S := Elements(c);
    ElementsSize(c);
    FactorialPositive(n);
    GainByWeight(n, m, size, v, f, S, weight, Weight(size, m));
  }

  lemma GainByWeight(n: int, m: int, size: nat, v: Game, f: string, S: set<string>, weight: real, w: int)
    requires |S| == size && m == n - 1 && weight == SubsetWeight(size, n) && w == Weight(size, m) && Factorial(n) >= 1
    ensures Times(weight, Gain(v, f)(S)) == Shared(n, WeightedGain(m, v, f))(S)
  {
    SubsetWeightIs(size, n, m, w, Factorial(n));
    WeightedGainAt(m, v, f, S, size, w);
    WeightIsShare(n, Factorial(n), w, weight, Gain(v, f)(S));
  }
}
