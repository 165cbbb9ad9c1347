/** All the orderings of a list of factor names, and sums over them. */
module Permutations {
  import opened Subsets

  function Factorial(n: int): int {
    if n <= 0 then 1 else n * Factorial(n - 1)
  }

  lemma {:induction false} FactorialPositive(n: int)
    ensures Factorial(n) >= 1
    decreases n
  {
    if n > 0 { FactorialPositive(n - 1); }
  }

  ghost function AppendEach(ps: seq<seq<string>>, x: string): seq<seq<string>> {
    if ps == [] then [] else [ps[0] + [x]] + AppendEach(ps[1..], x)
  }

  /** The orderings of s that end in one of the elements listed in ends. */
  ghost function OrderingsEnding(s: seq<string>, ends: seq<string>): seq<seq<string>>
    requires forall x :: x in ends ==> x in s
    decreases |s|, 1, |ends|
  {
    if ends == [] then []
    else
      AppendEach(OrderingsWithout(s, ends[0]), ends[0]) + OrderingsEnding(s, ends[1..])
  }

  ghost function OrderingsWithout(s: seq<string>, x: string): seq<seq<string>>
    requires x in s
    decreases |s|, 0
  {
    DropShortens(s, x);
    Orderings(Drop(s, x))
  }

  /** Every ordering of the names in s, grouped by the name that comes last. */
  ghost function Orderings(s: seq<string>): seq<seq<string>>
    decreases |s|, 2
  {
    if s == [] then [[]] else OrderingsEnding(s, s)
  }

  lemma {:induction false} DropShortens(s: seq<string>, x: string)
    requires x in s
    ensures |Drop(s, x)| < |s|
  {
    if s[0] == x { DropElements(s[1..], x); } else { DropShortens(s[1..], x); }
  }

  ghost predicate IsOrdering(p: seq<string>, s: seq<string>) {
    Distinct(p) && Elements(p) == Elements(s)
  }

  // ----- The list holds exactly the orderings, each of them once

  lemma {:induction false} AppendEachAt(ps: seq<seq<string>>, x: string)
    ensures |AppendEach(ps, x)| == |ps|
    ensures forall i :: 0 <= i < |ps| ==> AppendEach(ps, x)[i] == ps[i] + [x]
  {
    if ps != [] { AppendEachAt(ps[1..], x); }
  }

  lemma {:induction false} OrderingsEndingSound(s: seq<string>, ends: seq<string>)
    requires Distinct(s) && (forall x :: x in ends ==> x in s)
    ensures forall p :: p in OrderingsEnding(s, ends) ==> IsOrdering(p, s) && p != [] && p[|p| - 1] in ends
    decreases |s|, 1, |ends|
  {
    if ends != [] {
      var x, rest := ends[0], OrderingsWithout(s, ends[0]);
      DropShortens(s, x); DropElements(s, x); DropDistinct(s, x);
      OrderingsSound(Drop(s, x));
      OrderingsEndingSound(s, ends[1..]);
      AppendEachAt(rest, x);
      forall p | p in AppendEach(rest, x) ensures IsOrdering(p, s) && p != [] && p[|p| - 1] == x {
        var i :| 0 <= i < |rest| && p == rest[i] + [x];
        ExtendOrdering(rest[i], s, x);
      }
    }
  }

  lemma ExtendOrdering(q: seq<string>, s: seq<string>, x: string)
    requires x in s && IsOrdering(q, Drop(s, x))
    ensures IsOrdering(q + [x], s)
  {
    DropElements(s, x);
    assert x !in q by { assert x !in Elements(q); }
    assert Elements(q + [x]) == Elements(q) + {x};
    assert x in Elements(s);
  }

  lemma {:induction false} OrderingsSound(s: seq<string>)
    requires Distinct(s)
    ensures forall p :: p in Orderings(s) ==> IsOrdering(p, s)
    decreases |s|, 2
  {
    if s != [] { OrderingsEndingSound(s, s); }
  }

  lemma {:induction false} OrderingsEndingComplete(s: seq<string>, ends: seq<string>, p: seq<string>)
    requires Distinct(s) && (forall x :: x in ends ==> x in s)
    requires IsOrdering(p, s) && p != [] && p[|p| - 1] in ends
    ensures p in OrderingsEnding(s, ends)
    decreases |s|, 1, |ends|
  {
    var x, q := p[|p| - 1], p[..|p| - 1];
    if ends[0] == x {
      var rest := OrderingsWithout(s, x);
      DropShortens(s, x); DropElements(s, x); DropDistinct(s, x);
      assert p == q + [x];
      assert Elements(p) == Elements(q) + {x} && x !in q;
      assert IsOrdering(q, Drop(s, x));
      OrderingsComplete(Drop(s, x), q);
      AppendEachAt(rest, x);
      var i :| 0 <= i < |rest| && rest[i] == q;
      assert AppendEach(rest, x)[i] == p;
    } else {
      OrderingsEndingComplete(s, ends[1..], p);
    }
  }

  lemma {:induction false} OrderingsComplete(s: seq<string>, p: seq<string>)
    requires Distinct(s) && IsOrdering(p, s)
    ensures p in Orderings(s)
    decreases |s|, 2
  {
    ElementsSize(s); ElementsSize(p);
    if s != [] {
      assert p[|p| - 1] in Elements(p);
      OrderingsEndingComplete(s, s, p);
    }
  }

  ghost predicate NoRepeats(ps: seq<seq<string>>) {
    forall i, j :: 0 <= i < j < |ps| ==> ps[i] != ps[j]
  }

  lemma AppendEachNoRepeats(ps: seq<seq<string>>, x: string)
    requires NoRepeats(ps)
    ensures NoRepeats(AppendEach(ps, x))
  {
    AppendEachAt(ps, x);
    forall i, j | 0 <= i < j < |ps| ensures ps[i] + [x] != ps[j] + [x] {
      assert (ps[i] + [x])[..|ps[i]|] == ps[i] && (ps[j] + [x])[..|ps[j]|] == ps[j];
    }
  }

  lemma AppendEachLast(ps: seq<seq<string>>, x: string)
    ensures forall p :: p in AppendEach(ps, x) ==> p != [] && p[|p| - 1] == x
  {
    AppendEachAt(ps, x);
  }

  lemma NoRepeatsConcat(ps: seq<seq<string>>, qs: seq<seq<string>>)
    requires NoRepeats(ps) && NoRepeats(qs)
    requires forall p :: p in ps ==> p !in qs
    ensures NoRepeats(ps + qs)
  {
    forall i, j | 0 <= i < j < |ps + qs| ensures (ps + qs)[i] != (ps + qs)[j] {
      if i < |ps| <= j { assert ps[i] in ps && qs[j - |ps|] in qs; }
    }
  }

  lemma {:induction false} OrderingsEndingOnce(s: seq<string>, ends: seq<string>)
    requires Distinct(s) && Distinct(ends) && (forall x :: x in ends ==> x in s)
    ensures NoRepeats(OrderingsEnding(s, ends))
    decreases |s|, 1, |ends|
  {
    if ends != [] {
      var x, rest := ends[0], OrderingsWithout(s, ends[0]);
      DropShortens(s, x); DropDistinct(s, x);
      OrderingsOnce(Drop(s, x));
      OrderingsEndingOnce(s, ends[1..]);
      OrderingsEndingSound(s, ends[1..]);
      AppendEachLast(rest, x);
      AppendEachNoRepeats(rest, x);
      NoRepeatsConcat(AppendEach(rest, x), OrderingsEnding(s, ends[1..]));
    }
  }

  lemma {:induction false} OrderingsOnce(s: seq<string>)
    requires Distinct(s)
    ensures NoRepeats(Orderings(s))
    decreases |s|, 2
  {
    if s != [] { OrderingsEndingOnce(s, s); }
  }

  lemma OneMore(k: int, f: int)
    ensures f + k * f == (k + 1) * f
  {
  }

  lemma OrderingsEndingSize(s: seq<string>, ends: seq<string>, x: string)
    requires ends != [] && x == ends[0] && forall y :: y in ends ==> y in s
    ensures |OrderingsEnding(s, ends)| == |OrderingsWithout(s, x)| + |OrderingsEnding(s, ends[1..])|
  {
    AppendEachAt(OrderingsWithout(s, x), x);
  }

  lemma {:induction false} OrderingsEndingCount(s: seq<string>, ends: seq<string>, f: int)
    requires Distinct(s) && (forall x :: x in ends ==> x in s) && f == Factorial(|s| - 1)
    ensures |OrderingsEnding(s, ends)| == |ends| * f
    decreases |s|, 1, |ends|
  {
    if ends != [] {
      var x := ends[0];
      DropShortens(s, x); DropDistinct(s, x);
      OrderingsCount(Drop(s, x));
      OrderingsEndingCount(s, ends[1..], f);
      OrderingsEndingSize(s, ends, x);
      OneMore(|ends[1..]|, f);
    }
  }

  lemma {:induction false} OrderingsCount(s: seq<string>)
    requires Distinct(s)
    ensures |Orderings(s)| == Factorial(|s|)
    decreases |s|, 2
  {
    if s != [] { OrderingsEndingCount(s, s, Factorial(|s| - 1)); }
  }

  /** The list holds every ordering of s exactly once, n! in all. */
  lemma OrderingsExact(s: seq<string>)
    requires Distinct(s)
    ensures forall p :: p in Orderings(s) <==> IsOrdering(p, s)
    ensures NoRepeats(Orderings(s))
    ensures |Orderings(s)| == Factorial(|s|)
  {
    OrderingsSound(s);
    forall p | IsOrdering(p, s) ensures p in Orderings(s) { OrderingsComplete(s, p); }
    OrderingsOnce(s);
    OrderingsCount(s);
  }

  // ----- Marginal contributions

  /** The names that come before f in the ordering p. */
  ghost function Before(p: seq<string>, f: string): set<string> {
    if p == [] || p[0] == f then {} else {p[0]} + Before(p[1..], f)
  }

  ghost function Marginal(v: Game, p: seq<string>, f: string): real {
    v(Before(p, f) + {f}) - v(Before(p, f))
  }

  ghost function OrderingSum(ps: seq<seq<string>>, v: Game, f: string): real {
    if ps == [] then 0.0 else Marginal(v, ps[0], f) + OrderingSum(ps[1..], v, f)
  }

  lemma {:induction false} BeforeAppend(q: seq<string>, x: string, f: string)
    ensures f in q ==> Before(q + [x], f) == Before(q, f)
    ensures f !in q && x == f ==> Before(q + [x], f) == Elements(q)
    ensures f !in q ==> Before(q, f) == Elements(q)
  {
    if q == [] {
    } else {
      assert (q + [x])[1..] == q[1..] + [x];
      assert q == [q[0]] + q[1..];
      ElementsCons(q[0], q[1..]);
      BeforeAppend(q[1..], x, f);
    }
  }

  lemma {:induction false} OrderingSumConcat(ps: seq<seq<string>>, qs: seq<seq<string>>, v: Game, f: string)
    ensures OrderingSum(ps + qs, v, f) == OrderingSum(ps, v, f) + OrderingSum(qs, v, f)
  {
    if ps == [] {
      assert ps + qs == qs;
    } else {
      assert (ps + qs)[1..] == ps[1..] + qs;
      OrderingSumConcat(ps[1..], qs, v, f);
    }
  }
}
