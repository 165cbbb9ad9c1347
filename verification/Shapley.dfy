/** The Shapley value of a coalition game: the average marginal contribution over all orderings. */
module Shapley {
  import opened Decimals
  import opened Subsets
  import opened Permutations

  /** One n!-th of x. */
  ghost function Share(n: int, x: real): real {
    x / Max1(Factorial(n)) as real
  }

  function Max1(n: int): (r: int)
    ensures r >= 1 && (n >= 1 ==> r == n)
  {
    if n >= 1 then n else 1
  }

  lemma ShareAdds(n: int, x: real, y: real)
    ensures Share(n, x + y) == Share(n, x) + Share(n, y)
    ensures Share(n, 0.0) == 0.0
  {
  }

  lemma MultiplyThenDivide(k: real, x: real)
    requires k != 0.0
    ensures (k * x) / k == x
  {
    var q := (k * x) / k;
    assert q * k == k * x;
    assert k * (q - x) == 0.0;
  }

  lemma ShareOfAll(n: int, k: int, x: real, kx: real)
    requires k == Factorial(n) && kx == k as real * x
    ensures Share(n, kx) == x
  {
    FactorialPositive(n);
    MultiplyThenDivide(k as real, x);
  }

  /** What f adds on average when the names in s join one at a time, over all n! orderings. */
  ghost function OrderingAverage(s: seq<string>, v: Game, f: string): real {
    Share(|s|, OrderingSum(Orderings(s), v, f))
  }

  ghost function Gain(v: Game, f: string): Game {
    S => v(S + {f}) - v(S)
  }

  /** In how many orderings with m other names exactly a given set of size names comes first. */
  ghost function Weight(size: int, m: int): int {
    Factorial(size) * Factorial(m - size)
  }

  /** The subset weights before division by n!, for m other names. */
  ghost function WeightedGain(m: int, v: Game, f: string): Game {
    S => Times(Weight(|S|, m) as real, Gain(v, f)(S))
  }

  /** The gain of coming last, once for each ordering of the others. */
  ghost function TopGain(m: int, v: Game, f: string, S: set<string>): real {
    Times(Factorial(m) as real, Gain(v, f)(S))
  }

  // ----- Orderings grouped by their last name

  lemma {:induction false} AppendOther(ps: seq<seq<string>>, v: Game, x: string, f: string)
    requires x != f && forall p :: p in ps ==> f in p
    ensures OrderingSum(AppendEach(ps, x), v, f) == OrderingSum(ps, v, f)
  {
    if ps != [] {
      BeforeAppend(ps[0], x, f);
      assert ps[0] in ps;
      AppendOther(ps[1..], v, x, f);
    }
  }

  lemma OneMoreGain(k: int, d: real)
    ensures d + Times(k as real, d) == Times((k + 1) as real, d)
  {
  }

  lemma {:induction false} AppendSelf(ps: seq<seq<string>>, v: Game, E: set<string>, f: string, d: real)
    requires f !in E && (forall p :: p in ps ==> Elements(p) == E) && d == Gain(v, f)(E)
    ensures OrderingSum(AppendEach(ps, f), v, f) == Times(|ps| as real, d)
  {
    if ps != [] {
      assert ps[0] in ps;
      assert f !in ps[0] by { assert f !in Elements(ps[0]); }
      BeforeAppend(ps[0], f, f);
      AppendSelf(ps[1..], v, E, f, d);
      OneMoreGain(|ps[1..]|, d);
    }
  }

  /** The total over the orderings of s that end in x, where s has m names besides x. */
  ghost function LastStep(s: seq<string>, m: int, v: Game, f: string): string -> real {
    x => if x == f then TopGain(m, v, f, Elements(Drop(s, f))) else OrderingSum(Orderings(Drop(s, x)), v, f)
  }

  lemma SelfLast(s: seq<string>, m: int, v: Game, f: string)
    requires Distinct(s) && f in s && m == |s| - 1
    ensures OrderingSum(AppendEach(OrderingsWithout(s, f), f), v, f) == TopGain(m, v, f, Elements(Drop(s, f)))
  {
    var r := Drop(s, f);
    DropElements(s, f); DropDistinct(s, f); DropShortens(s, f);
    OrderingsExact(r);
    AppendSelf(Orderings(r), v, Elements(r), f, Gain(v, f)(Elements(r)));
  }

  lemma OtherLast(s: seq<string>, v: Game, f: string, x: string)
    requires Distinct(s) && f in s && x in s && x != f
    ensures OrderingSum(AppendEach(OrderingsWithout(s, x), x), v, f) == OrderingSum(Orderings(Drop(s, x)), v, f)
  {
    var r := Drop(s, x);
    DropElements(s, x); DropDistinct(s, x);
    OrderingsExact(r);
    forall p | p in Orderings(r) ensures f in p { assert f in Elements(s); assert f in Elements(p); }
    AppendOther(Orderings(r), v, x, f);
  }

  lemma LastStepOf(s: seq<string>, m: int, v: Game, f: string, x: string)
    requires Distinct(s) && f in s && x in s && m == |s| - 1
    ensures OrderingSum(AppendEach(OrderingsWithout(s, x), x), v, f) == LastStep(s, m, v, f)(x)
  {
    if x == f { SelfLast(s, m, v, f); } else { OtherLast(s, v, f, x); }
  }

  lemma {:induction false} OrderingsEndingSum(s: seq<string>, ends: seq<string>, m: int, v: Game, f: string)
    requires Distinct(s) && f in s && m == |s| - 1 && forall x :: x in ends ==> x in s
    ensures OrderingSum(OrderingsEnding(s, ends), v, f) == ElemSum(ends, LastStep(s, m, v, f))
  {
    if ends != [] {
      LastStepOf(s, m, v, f, ends[0]);
      OrderingSumConcat(AppendEach(OrderingsWithout(s, ends[0]), ends[0]), OrderingsEnding(s, ends[1..]), v, f);
      OrderingsEndingSum(s, ends[1..], m, v, f);
    }
  }

  // ----- The subset form

  lemma FactorialStep(n: int)
    requires n > 0
    ensures Factorial(n) == n * Factorial(n - 1)
  {
  }

  lemma RealProduct(x: int, y: int)
    ensures (x * y) as real == x as real * y as real
  {
  }

  lemma Regroup(k: int, a: int, b: int, g: real)
    ensures k as real * ((a * b) as real * g) == (a * (k * b)) as real * g
  {
    RealProduct(k, a * b);
    assert a * (k * b) == k * (a * b);
    var x, y := k as real, (a * b) as real;
    assert x * (y * g) == (x * y) * g;
  }

  lemma WeightStep(m: int, d: int, v: Game, f: string, S: set<string>)
    requires m == d + 1 && |S| < m
    ensures Shortfall(m, WeightedGain(d, v, f))(S) == WeightedGain(m, v, f)(S)
  {
    var k := m - |S|;
    assert Factorial(k) == k * Factorial(d - |S|) by { FactorialStep(k); }
    Regroup(k, Factorial(|S|), Factorial(d - |S|), Gain(v, f)(S));
  }

  lemma WeightAtTop(m: int, v: Game, f: string, S: set<string>)
    requires m == |S|
    ensures WeightedGain(m, v, f)(S) == TopGain(m, v, f, S)
  {
    assert Factorial(m - |S|) == 1;
  }

  lemma ShortfallAtTop(m: int, g: Game, S: set<string>)
    requires m == |S|
    ensures Shortfall(m, g)(S) == 0.0
  {
  }

  lemma SumSubsetsNewTop(r: seq<string>, g: Game, h: Game)
    requires Distinct(r)
    requires forall S :: S < Elements(r) ==> g(S) == h(S)
    requires h(Elements(r)) == 0.0
    ensures SumSubsets(r, {}, g) == SumSubsets(r, {}, h) + g(Elements(r))
  {
    assert {} + Elements(r) == Elements(r);
    SumSubsetsAtTop(r, {}, g, h);
  }

  /** Passing from m - 1 to m other names: each subset gains a factor, and the full set is new. */
  lemma WeightedGainStep(r: seq<string>, m: int, d: int, v: Game, f: string)
    requires Distinct(r) && m == |r| && m == d + 1
    ensures SumSubsets(r, {}, WeightedGain(m, v, f)) ==
            SumSubsets(r, {}, Shortfall(m, WeightedGain(d, v, f))) + TopGain(m, v, f, Elements(r))
  {
    ElementsSize(r);
    forall S | S < Elements(r) ensures WeightedGain(m, v, f)(S) == Shortfall(m, WeightedGain(d, v, f))(S) {
      SubsetSize(S, Elements(r));
      WeightStep(m, d, v, f, S);
    }
    ShortfallAtTop(m, WeightedGain(d, v, f), Elements(r));
    SumSubsetsNewTop(r, WeightedGain(m, v, f), Shortfall(m, WeightedGain(d, v, f)));
    WeightAtTop(m, v, f, Elements(r));
  }

  lemma LastStepAtSelf(s: seq<string>, m: int, v: Game, f: string)
    ensures LastStep(s, m, v, f)(f) == TopGain(m, v, f, Elements(Drop(s, f)))
  {
  }

  /** The weighted subset sum of the allocation loop is the sum of marginals over all orderings. */
  lemma {:induction false} SubsetFormIsOrderingForm(s: seq<string>, m: int, v: Game, f: string)
    requires Distinct(s) && f in s && m == |s| - 1
    ensures SumSubsets(Drop(s, f), {}, WeightedGain(m, v, f)) == OrderingSum(Orderings(s), v, f)
    decreases m, 2
  {
    var r, step := Drop(s, f), LastStep(s, m, v, f);
    calc {
      OrderingSum(Orderings(s), v, f);
      { OrderingsEndingSum(s, s, m, v, f); }
      ElemSum(s, step);
      { ElemSumDrop(s, f, step); }
      step(f) + ElemSum(r, step);
      { SubsetFormLastStep(s, m, v, f); }
      SumSubsets(r, {}, WeightedGain(m, v, f));
    }
  }

  lemma SubsetFormAlone(s: seq<string>, m: int, v: Game, f: string)
    requires Drop(s, f) == [] && m == 0
    ensures SumSubsets(Drop(s, f), {}, WeightedGain(m, v, f)) ==
            LastStep(s, m, v, f)(f) + ElemSum(Drop(s, f), LastStep(s, m, v, f))
  {
    var r, g, step := Drop(s, f), WeightedGain(m, v, f), LastStep(s, m, v, f);
    calc {
      SumSubsets(r, {}, g);
      g({});
      { WeightAtTop(m, v, f, {}); }
      TopGain(m, v, f, {});
      { assert Elements(r) == {}; LastStepAtSelf(s, m, v, f); }
      step(f);
      step(f) + ElemSum(r, step);
    }
  }

  lemma {:induction false} SubsetFormLastStep(s: seq<string>, m: int, v: Game, f: string)
    requires Distinct(s) && f in s && m == |s| - 1
    ensures SumSubsets(Drop(s, f), {}, WeightedGain(m, v, f)) ==
            LastStep(s, m, v, f)(f) + ElemSum(Drop(s, f), LastStep(s, m, v, f))
    decreases m, 1
  {
    DropDistinct(s, f);
    if m == 0 {
      SubsetFormAlone(s, m, v, f);
    } else {
      var d := m - 1;
      WeightedGainStep(Drop(s, f), m, d, v, f);
      OthersLast(s, m, d, v, f);
      LastStepAtSelf(s, m, v, f);
    }
  }

  lemma {:induction false} OthersLast(s: seq<string>, m: int, d: int, v: Game, f: string)
    requires Distinct(s) && f in s && m == |s| - 1 && d == m - 1 >= 0
    ensures ElemSum(Drop(s, f), LastStep(s, m, v, f)) ==
            SumSubsets(Drop(s, f), {}, Shortfall(m, WeightedGain(d, v, f)))
    decreases m, 0
  {
    var r := Drop(s, f);
    DropDistinct(s, f); DropElements(s, f);
    forall x | x in r
      ensures LastStep(s, m, v, f)(x) == SumAvoiding(r, {}, WeightedGain(d, v, f))(x)
    {
      assert x in Elements(r);
      SubsetFormWithout(s, d, v, f, x);
    }
    ElemSumCongruent(r, LastStep(s, m, v, f), SumAvoiding(r, {}, WeightedGain(d, v, f)));
    DoubleCount(r, {}, m, WeightedGain(d, v, f));
  }

  lemma {:induction false} SubsetFormWithout(s: seq<string>, d: int, v: Game, f: string, x: string)
    requires Distinct(s) && f in s && x in s && x != f && d == |s| - 2
    ensures OrderingSum(Orderings(Drop(s, x)), v, f) == SumSubsets(Drop(Drop(s, f), x), {}, WeightedGain(d, v, f))
    decreases d, 3
  {
    DropDistinct(s, x); DropElements(s, x);
    assert f in Drop(s, x) by { assert f in Elements(s); assert f in Elements(Drop(s, x)); }
    SubsetFormIsOrderingForm(Drop(s, x), d, v, f);
    DropCommutes(s, x, f);
  }

  ghost function Shared(n: int, g: Game): Game {
    S => Share(n, g(S))
  }

  lemma {:induction false} SumSubsetsShared(r: seq<string>, base: set<string>, n: int, g: Game)
    ensures SumSubsets(r, base, Shared(n, g)) == Share(n, SumSubsets(r, base, g))
  {
    if r != [] {
      SumSubsetsShared(r[1..], base, n, g);
      SumSubsetsShared(r[1..], base + {r[0]}, n, g);
      ShareAdds(n, SumSubsets(r[1..], base, g), SumSubsets(r[1..], base + {r[0]}, g));
    }
  }

  /** The loop's weighted sum over subsets, divided by n!, is the average over all n! orderings. */
  lemma SubsetFormIsAverage(s: seq<string>, n: int, m: int, v: Game, f: string)
    requires Distinct(s) && f in s && n == |s| && m == n - 1
    ensures SumSubsets(Drop(s, f), {}, Shared(n, WeightedGain(m, v, f))) == OrderingAverage(s, v, f)
  {
    SumSubsetsShared(Drop(s, f), {}, n, WeightedGain(m, v, f));
    SubsetFormIsOrderingForm(s, m, v, f);
  }

  /** A name's share does not depend on the order in which the names are listed. */
  lemma ShareReordered(s: seq<string>, t: seq<string>, v: Game, f: string)
    requires Distinct(s) && Distinct(t) && Elements(s) == Elements(t) && f in s
    ensures OrderingAverage(s, v, f) == OrderingAverage(t, v, f)
  {
    ElementsSize(s); ElementsSize(t);
    assert f in Elements(t);
    DropDistinct(s, f); DropDistinct(t, f);
    DropElements(s, f); DropElements(t, f);
    ShareFromSubsets(s, t, |s|, |s| - 1, v, f);
  }

  lemma ShareFromSubsets(s: seq<string>, t: seq<string>, n: int, m: int, v: Game, f: string)
    requires Distinct(s) && Distinct(t) && f in s && f in t && n == |s| == |t| && m == n - 1
    requires Distinct(Drop(s, f)) && Distinct(Drop(t, f)) && Elements(Drop(s, f)) == Elements(Drop(t, f))
    ensures OrderingAverage(s, v, f) == OrderingAverage(t, v, f)
  {
    SubsetFormIsAverage(s, n, m, v, f);
    SubsetFormIsAverage(t, n, m, v, f);
    SumSubsetsReordered(Drop(s, f), Drop(t, f), {}, Shared(n, WeightedGain(m, v, f)));
  }

  // ----- Efficiency

  ghost function MarginalsIn(v: Game, p: seq<string>): string -> real {
    f => Marginal(v, p, f)
  }

  lemma {:induction false} ElemSumSnoc(q: seq<string>, x: string, h: string -> real)
    ensures ElemSum(q + [x], h) == ElemSum(q, h) + h(x)
  {
    if q == [] {
      assert (q + [x])[1..] == [];
    } else {
      assert (q + [x])[1..] == q[1..] + [x];
      ElemSumSnoc(q[1..], x, h);
    }
  }

  /** Along one ordering the marginal contributions telescope. */
  lemma {:induction false} MarginalsTelescope(p: seq<string>, v: Game)
    requires Distinct(p)
    ensures ElemSum(p, MarginalsIn(v, p)) == v(Elements(p)) - v({})
    decreases |p|
  {
    if p == [] {
      assert Elements(p) == {};
    } else {
      var q, x := p[..|p| - 1], p[|p| - 1];
      assert p == q + [x] && x !in q;
      assert Elements(p) == Elements(q) + {x};
      MarginalsTelescope(q, v);
      forall f | f in q ensures MarginalsIn(v, p)(f) == MarginalsIn(v, q)(f) { BeforeAppend(q, x, f); }
      ElemSumCongruent(q, MarginalsIn(v, p), MarginalsIn(v, q));
      BeforeAppend(q, x, x);
      ElemSumSnoc(q, x, MarginalsIn(v, p));
    }
  }

  ghost function SumsOver(ps: seq<seq<string>>, v: Game): string -> real {
    f => OrderingSum(ps, v, f)
  }

  lemma {:induction false} SumsOverNone(s: seq<string>, v: Game)
    ensures ElemSum(s, SumsOver([], v)) == 0.0
  {
    if s != [] { SumsOverNone(s[1..], v); }
  }

  lemma SumsOverFirst(s: seq<string>, ps: seq<seq<string>>, v: Game)
    requires Distinct(s) && ps != [] && IsOrdering(ps[0], s)
    ensures ElemSum(s, SumsOver(ps, v)) == v(Elements(s)) - v({}) + ElemSum(s, SumsOver(ps[1..], v))
  {
    ElemSumPlus(s, MarginalsIn(v, ps[0]), SumsOver(ps[1..], v), SumsOver(ps, v));
    ElemSumReordered(s, ps[0], MarginalsIn(v, ps[0]));
    MarginalsTelescope(ps[0], v);
  }

  lemma {:induction false} SumsOverAll(s: seq<string>, ps: seq<seq<string>>, k: int, v: Game, gain: real)
    requires Distinct(s) && forall p :: p in ps ==> IsOrdering(p, s)
    requires k == |ps| && gain == v(Elements(s)) - v({})
    ensures ElemSum(s, SumsOver(ps, v)) == Times(k as real, gain)
    decreases |ps|
  {
    if ps == [] {
      SumsOverNone(s, v);
    } else {
      assert ps[0] in ps;
      SumsOverFirst(s, ps, v);
      SumsOverAll(s, ps[1..], k - 1, v, gain);
      OneMoreGain(k - 1, gain);
    }
  }

  ghost function Averages(s: seq<string>, v: Game): string -> real {
    f => OrderingAverage(s, v, f)
  }

  lemma {:induction false} AveragesShared(t: seq<string>, s: seq<string>, v: Game)
    ensures ElemSum(t, Averages(s, v)) == Share(|s|, ElemSum(t, SumsOver(Orderings(s), v)))
  {
    if t == [] {
      ShareAdds(|s|, 0.0, 0.0);
    } else {
      AveragesShared(t[1..], s, v);
      ShareAdds(|s|, OrderingSum(Orderings(s), v, t[0]), ElemSum(t[1..], SumsOver(Orderings(s), v)));
    }
  }

  /** Efficiency: the shares add up to the value of everything minus the value of nothing. */
  lemma Efficiency(s: seq<string>, v: Game)
    requires Distinct(s)
    ensures ElemSum(s, Averages(s, v)) == v(Elements(s)) - v({})
  {
    var ps, k, gain := Orderings(s), Factorial(|s|), v(Elements(s)) - v({});
    OrderingsExact(s);
    SumsOverAll(s, ps, k, v, gain);
    AveragesShared(s, s, v);
    ShareOfAll(|s|, k, gain, ElemSum(s, SumsOver(ps, v)));
  }

  // ----- Additivity and null players

  lemma {:induction false} BeforeWithin(p: seq<string>, f: string)
    ensures Before(p, f) <= Elements(p) && f !in Before(p, f)
  {
    if p != [] && p[0] != f {
      BeforeWithin(p[1..], f);
      assert p == [p[0]] + p[1..];
      ElementsCons(p[0], p[1..]);
    }
  }

  lemma {:induction false} OrderingSumAdditive(s: seq<string>, ps: seq<seq<string>>, v: Game, u: Game, w: Game,
                                               f: string)
    requires f in s && forall p :: p in ps ==> IsOrdering(p, s)
    requires forall S :: S <= Elements(s) ==> v(S) == u(S) + w(S)
    ensures OrderingSum(ps, v, f) == OrderingSum(ps, u, f) + OrderingSum(ps, w, f)
  {
    if ps != [] {
      assert ps[0] in ps;
      BeforeWithin(ps[0], f);
      assert f in Elements(s);
      OrderingSumAdditive(s, ps[1..], v, u, w, f);
    }
  }

  /** Additivity: the share in a sum of games is the sum of the shares. */
  lemma Additivity(s: seq<string>, v: Game, u: Game, w: Game, f: string)
    requires Distinct(s) && f in s
    requires forall S :: S <= Elements(s) ==> v(S) == u(S) + w(S)
    ensures OrderingAverage(s, v, f) == OrderingAverage(s, u, f) + OrderingAverage(s, w, f)
  {
    OrderingsExact(s);
    OrderingSumAdditive(s, Orderings(s), v, u, w, f);
    ShareAdds(|s|, OrderingSum(Orderings(s), u, f), OrderingSum(Orderings(s), w, f));
  }

  lemma {:induction false} OrderingSumNull(s: seq<string>, ps: seq<seq<string>>, v: Game, f: string)
    requires f in s && forall p :: p in ps ==> IsOrdering(p, s)
    requires forall S :: S <= Elements(s) ==> v(S + {f}) == v(S)
    ensures OrderingSum(ps, v, f) == 0.0
  {
    if ps != [] {
      assert ps[0] in ps;
      BeforeWithin(ps[0], f);
      OrderingSumNull(s, ps[1..], v, f);
    }
  }

  /** Null players: a name that never changes the value gets exactly nothing. */
  lemma NullPlayer(s: seq<string>, v: Game, f: string)
    requires Distinct(s) && f in s
    requires forall S :: S <= Elements(s) ==> v(S + {f}) == v(S)
    ensures OrderingAverage(s, v, f) == 0.0
  {
    OrderingsExact(s);
    OrderingSumNull(s, Orderings(s), v, f);
    ShareAdds(|s|, 0.0, 0.0);
  }

  // ----- Bounds

  ghost predicate Bounded(v: Game, all: set<string>, m: real) {
    forall S :: S <= all ==> -m <= v(S) <= m
  }

  lemma {:induction false} OrderingSumBounded(s: seq<string>, ps: seq<seq<string>>, k: int, v: Game, f: string, m: real,
                                              d: real)
    requires f in s && k == |ps| && (forall p :: p in ps ==> IsOrdering(p, s))
    requires Bounded(v, Elements(s), m) && d == 2.0 * m
    ensures -Times(k as real, d) <= OrderingSum(ps, v, f) <= Times(k as real, d)
    decreases |ps|
  {
    if ps != [] {
      assert ps[0] in ps;
      assert f in Elements(s);
      BeforeWithin(ps[0], f);
      OrderingSumBounded(s, ps[1..], k - 1, v, f, m, d);
      OneMoreGain(k - 1, d);
    }
  }

  lemma QuotientAtMost(x: real, k: real, d: real)
    requires k > 0.0 && x <= Times(k, d)
    ensures x / k <= d
  {
    var q := x / k;
    assert q * k == x;
    ScaleOrder(d, q, k);
  }

  lemma ShareWithin(n: int, k: int, x: real, d: real)
    requires k == Factorial(n) && -Times(k as real, d) <= x <= Times(k as real, d)
    ensures -d <= Share(n, x) <= d
  {
    FactorialPositive(n);
    QuotientAtMost(x, k as real, d);
    QuotientAtMost(-x, k as real, d);
    NegatedShare(x, k as real);
  }

  lemma NegatedShare(x: real, k: real)
    requires k > 0.0
    ensures (-x) / k == -(x / k)
  {
  }

  /** In a game whose values are at most m either way no share exceeds 2m. */
  lemma ShareBounded(s: seq<string>, v: Game, f: string, m: real)
    requires Distinct(s) && f in s && Bounded(v, Elements(s), m)
    ensures -2.0 * m <= OrderingAverage(s, v, f) <= 2.0 * m
  {
    OrderingsExact(s);
    OrderingSumBounded(s, Orderings(s), Factorial(|s|), v, f, m, 2.0 * m);
    ShareWithin(|s|, Factorial(|s|), OrderingSum(Orderings(s), v, f), 2.0 * m);
  }
}
