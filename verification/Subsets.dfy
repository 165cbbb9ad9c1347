/** Finite sums over the elements, the subsets and the orderings of a list of factor names. */
module Subsets {

  /** A coalition game: the value of every set of included factors. */
  type Game = set<string> -> real

  function Elements(s: seq<string>): set<string> {
    set x | x in s
  }

  predicate Distinct(s: seq<string>) {
    forall i, j :: 0 <= i < j < |s| ==> s[i] != s[j]
  }

  /** The list comprehension `[name for name in s if name != x]`. */
  function Drop(s: seq<string>, x: string): seq<string> {
    if s == [] then []
    else if s[0] == x then Drop(s[1..], x)
    else [s[0]] + Drop(s[1..], x)
  }

  lemma {:induction false} DropElements(s: seq<string>, x: string)
    ensures Elements(Drop(s, x)) == Elements(s) - {x}
    ensures x !in s ==> Drop(s, x) == s
    ensures |Drop(s, x)| <= |s|
  {
    if s != [] {
      DropElements(s[1..], x);
      assert s == [s[0]] + s[1..];
      ElementsCons(s[0], s[1..]);
      ElementsCons(s[0], Drop(s[1..], x));
    }
  }

  lemma ElementsCons(a: string, t: seq<string>)
    ensures Elements([a] + t) == {a} + Elements(t)
  {
    assert forall x :: x in [a] + t <==> x == a || x in t;
  }

  lemma {:induction false} DropDistinct(s: seq<string>, x: string)
    requires Distinct(s)
    ensures Distinct(Drop(s, x))
    ensures x in s ==> |Drop(s, x)| == |s| - 1
  {
    if s != [] {
      DropDistinct(s[1..], x);
      DropElements(s[1..], x);
      var t := Drop(s[1..], x);
      if s[0] != x {
        assert s[0] !in t by {
          assert s[0] !in s[1..];
          assert s[0] !in Elements(t);
        }
        assert s == [s[0]] + s[1..];
      } else {
        assert x !in s[1..];
      }
    }
  }

  lemma {:induction false} DropCommutes(s: seq<string>, x: string, y: string)
    ensures Drop(Drop(s, x), y) == Drop(Drop(s, y), x)
  {
    if s != [] {
      DropCommutes(s[1..], x, y);
      if s[0] != x { assert Drop(s, x)[1..] == Drop(s[1..], x); }
      if s[0] != y { assert Drop(s, y)[1..] == Drop(s[1..], y); }
    }
  }

  lemma {:induction false} ElementsSize(s: seq<string>)
    requires Distinct(s)
    ensures |Elements(s)| == |s|
  {
    if s != [] {
      ElementsSize(s[1..]);
      assert Elements(s) == Elements(s[1..]) + {s[0]};
    }
  }

  // ----- Sums over the elements of a list

  ghost function ElemSum(s: seq<string>, h: string -> real): real {
    if s == [] then 0.0 else h(s[0]) + ElemSum(s[1..], h)
  }

  lemma {:induction false} ElemSumCongruent(s: seq<string>, h: string -> real, k: string -> real)
    requires forall x :: x in s ==> h(x) == k(x)
    ensures ElemSum(s, h) == ElemSum(s, k)
  {
    if s != [] { ElemSumCongruent(s[1..], h, k); }
  }

  lemma {:induction false} ElemSumPlus(s: seq<string>, h: string -> real, k: string -> real, hk: string -> real)
    requires forall x :: x in s ==> hk(x) == h(x) + k(x)
    ensures ElemSum(s, hk) == ElemSum(s, h) + ElemSum(s, k)
  {
    if s != [] { ElemSumPlus(s[1..], h, k, hk); }
  }

  lemma {:induction false} ElemSumScale(s: seq<string>, c: real, h: string -> real, ch: string -> real)
    requires forall x :: x in s ==> ch(x) == c * h(x)
    ensures ElemSum(s, ch) == c * ElemSum(s, h)
  {
    if s != [] { ElemSumScale(s[1..], c, h, ch); }
  }

  lemma {:induction false} ElemSumDrop(s: seq<string>, x: string, h: string -> real)
    requires Distinct(s) && x in s
    ensures ElemSum(s, h) == h(x) + ElemSum(Drop(s, x), h)
  {
    if s[0] == x {
      assert x !in s[1..];
      DropElements(s[1..], x);
    } else {
      ElemSumDrop(s[1..], x, h);
      assert Drop(s, x)[1..] == Drop(s[1..], x);
    }
  }

  /** A sum does not depend on the order in which the elements are listed. */
  lemma {:induction false} ElemSumReordered(s: seq<string>, t: seq<string>, h: string -> real)
    requires Distinct(s) && Distinct(t) && Elements(s) == Elements(t)
    ensures ElemSum(s, h) == ElemSum(t, h)
    decreases |s|
  {
    if s == [] {
      ElementsSize(t);
    } else {
      var x := s[0];
      assert x in Elements(s);
      ElemSumDrop(s, x, h);
      ElemSumDrop(t, x, h);
      DropElements(s, x); DropElements(t, x);
      DropDistinct(s, x); DropDistinct(t, x);
      ElemSumReordered(Drop(s, x), Drop(t, x), h);
    }
  }

  // ----- Sums over the subsets of a list

  /** The sum of g over every set that extends base by some of the elements of r. */
  ghost function SumSubsets(r: seq<string>, base: set<string>, g: Game): real {
    if r == [] then g(base)
    else SumSubsets(r[1..], base, g) + SumSubsets(r[1..], base + {r[0]}, g)
  }

  lemma {:induction false} SumSubsetsCongruent(r: seq<string>, base: set<string>, g: Game, h: Game)
    requires forall S :: base <= S <= base + Elements(r) ==> g(S) == h(S)
    ensures SumSubsets(r, base, g) == SumSubsets(r, base, h)
  {
    if r != [] {
      assert Elements(r) == Elements(r[1..]) + {r[0]};
      SumSubsetsCongruent(r[1..], base, g, h);
      SumSubsetsCongruent(r[1..], base + {r[0]}, g, h);
    }
  }

  lemma {:induction false} SumSubsetsPlus(r: seq<string>, base: set<string>, g: Game, h: Game, gh: Game)
    requires forall S :: base <= S <= base + Elements(r) ==> gh(S) == g(S) + h(S)
    ensures SumSubsets(r, base, gh) == SumSubsets(r, base, g) + SumSubsets(r, base, h)
  {
    if r != [] {
      assert Elements(r) == Elements(r[1..]) + {r[0]};
      SumSubsetsPlus(r[1..], base, g, h, gh);
      SumSubsetsPlus(r[1..], base + {r[0]}, g, h, gh);
    }
  }

  lemma {:induction false} SumSubsetsScale(r: seq<string>, base: set<string>, c: real, g: Game, cg: Game)
    requires forall S :: base <= S <= base + Elements(r) ==> cg(S) == c * g(S)
    ensures SumSubsets(r, base, cg) == c * SumSubsets(r, base, g)
  {
    if r != [] {
      assert Elements(r) == Elements(r[1..]) + {r[0]};
      SumSubsetsScale(r[1..], base, c, g, cg);
      SumSubsetsScale(r[1..], base + {r[0]}, c, g, cg);
      var a, b := SumSubsets(r[1..], base, g), SumSubsets(r[1..], base + {r[0]}, g);
      assert c * a + c * b == c * (a + b);
    }
  }

  /** Taking an element out of the list: the subsets without it and the subsets with it. */
  lemma {:induction false} SumSubsetsDrop(r: seq<string>, x: string, base: set<string>, g: Game)
    requires Distinct(r) && x in r
    ensures SumSubsets(r, base, g) == SumSubsets(Drop(r, x), base, g) + SumSubsets(Drop(r, x), base + {x}, g)
  {
    if r[0] == x {
      assert x !in r[1..];
      DropElements(r[1..], x);
    } else {
      SumSubsetsDrop(r[1..], x, base, g);
      SumSubsetsDrop(r[1..], x, base + {r[0]}, g);
      assert base + {r[0]} + {x} == base + {x} + {r[0]};
      assert Drop(r, x)[1..] == Drop(r[1..], x);
    }
  }

  /** A sum over subsets does not depend on the order in which the elements are listed. */
  lemma {:induction false} SumSubsetsReordered(r: seq<string>, t: seq<string>, base: set<string>, g: Game)
    requires Distinct(r) && Distinct(t) && Elements(r) == Elements(t)
    ensures SumSubsets(r, base, g) == SumSubsets(t, base, g)
    decreases |r|
  {
    if r == [] {
      ElementsSize(t);
    } else {
      var x := r[0];
      assert x in Elements(r);
      SumSubsetsDrop(r, x, base, g);
      SumSubsetsDrop(t, x, base, g);
      DropElements(r, x); DropElements(t, x);
      DropDistinct(r, x); DropDistinct(t, x);
      SumSubsetsReordered(Drop(r, x), Drop(t, x), base, g);
      SumSubsetsReordered(Drop(r, x), Drop(t, x), base + {x}, g);
    }
  }

  /** Two games that differ only on the full set have sums that differ by that one value. */
  lemma {:induction false} SumSubsetsAtTop(r: seq<string>, base: set<string>, g: Game, h: Game)
    requires Distinct(r) && Elements(r) !! base
    requires forall S :: base <= S < base + Elements(r) ==> g(S) == h(S)
    ensures var top := base + Elements(r);
            SumSubsets(r, base, g) == SumSubsets(r, base, h) + g(top) - h(top)
  {
    if r == [] {
      assert base + Elements(r) == base;
    } else {
      var top := base + Elements(r);
      assert Elements(r) == Elements(r[1..]) + {r[0]};
      assert r[0] !in Elements(r[1..]);
      assert (base + {r[0]}) + Elements(r[1..]) == top;
      assert r[0] in top && r[0] !in base + Elements(r[1..]);
      SumSubsetsCongruent(r[1..], base, g, h);
      SumSubsetsAtTop(r[1..], base + {r[0]}, g, h);
    }
  }

  ghost function Shortfall(c: int, g: Game): Game {
    S => (c - |S|) as real * g(S)
  }

  ghost function SumAvoiding(r: seq<string>, base: set<string>, g: Game): string -> real {
    x => SumSubsets(Drop(r, x), base, g)
  }

  /** Subsets that avoid x, split by whether they hold the first element. */
  lemma SumAvoidingFirst(r: seq<string>, base: set<string>, g: Game, x: string)
    requires r != [] && x != r[0]
    ensures SumAvoiding(r, base, g)(x) == SumAvoiding(r[1..], base, g)(x) + SumAvoiding(r[1..], base + {r[0]}, g)(x)
  {
    assert Drop(r, x)[1..] == Drop(r[1..], x);
  }

  lemma ShortfallStep(t: seq<string>, base: set<string>, c: int, d: int, g: Game)
    requires c == d + 1
    ensures SumSubsets(t, base, Shortfall(c, g)) == SumSubsets(t, base, Shortfall(d, g)) + SumSubsets(t, base, g)
  {
    forall S | base <= S <= base + Elements(t)
      ensures Shortfall(c, g)(S) == Shortfall(d, g)(S) + g(S)
    {
      var k := (d - |S|) as real;
      assert (k + 1.0) * g(S) == k * g(S) + g(S);
    }
    SumSubsetsPlus(t, base, Shortfall(d, g), g, Shortfall(c, g));
  }

  lemma SumAvoidingSplit(r: seq<string>, base: set<string>, g: Game)
    requires r != [] && r[0] !in r[1..]
    ensures ElemSum(r, SumAvoiding(r, base, g)) ==
            SumSubsets(r[1..], base, g) + ElemSum(r[1..], SumAvoiding(r[1..], base, g))
            + ElemSum(r[1..], SumAvoiding(r[1..], base + {r[0]}, g))
  {
    var a, t := r[0], r[1..];
    var whole := SumAvoiding(r, base, g);
    DropElements(t, a);
    assert whole(a) == SumSubsets(t, base, g);
    forall x | x in t
      ensures whole(x) == SumAvoiding(t, base, g)(x) + SumAvoiding(t, base + {a}, g)(x)
    {
      SumAvoidingFirst(r, base, g, x);
    }
    ElemSumPlus(t, SumAvoiding(t, base, g), SumAvoiding(t, base + {a}, g), whole);
  }

  lemma ApartFrom(a: string, t: seq<string>, base: set<string>)
    requires Distinct([a] + t) && Elements([a] + t) !! base
    ensures Distinct(t) && a !in t && Elements(t) !! base && Elements(t) !! base + {a} && |base + {a}| == |base| + 1
  {
    var r := [a] + t;
    ElementsCons(a, t);
    assert r[0] == a && r[1..] == t;
    assert a in Elements(r);
  }

  /**
   * Double counting: summing, over each element x, the sum of g over the subsets that avoid x
   * counts every subset once per element it leaves out.
   */
  lemma {:induction false} DoubleCount(r: seq<string>, base: set<string>, c: int, g: Game)
    requires Distinct(r) && Elements(r) !! base && c == |r| + |base|
    ensures ElemSum(r, SumAvoiding(r, base, g)) == SumSubsets(r, base, Shortfall(c, g))
    decreases |r|
  {
    if r == [] {
      assert Shortfall(c, g)(base) == 0.0;
    } else {
      var a, t, d := r[0], r[1..], c - 1;
      assert r == [a] + t;
      ApartFrom(a, t, base);
      DoubleCount(t, base, d, g);
      DoubleCount(t, base + {a}, c, g);
      SumAvoidingSplit(r, base, g);
      ShortfallStep(t, base, c, d, g);
    }
  }

  lemma SubsetSize(S: set<string>, T: set<string>)
    requires S <= T
    ensures |S| <= |T| && (|S| == |T| ==> S == T)
  {
    assert T == S + (T - S);
  }
}
