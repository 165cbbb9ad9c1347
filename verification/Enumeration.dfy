/** Enumeration of subsets by size, in the order of itertools.combinations. */
module Enumeration {
  import opened Subsets

  function PrependEach(x: string, cs: seq<seq<string>>): seq<seq<string>> {
    if cs == [] then [] else [[x] + cs[0]] + PrependEach(x, cs[1..])
  }

  /** The k-element selections of s, each in the order of s. */
  function Combinations(s: seq<string>, k: nat): seq<seq<string>> {
    if k == 0 then [[]]
    else if s == [] then []
    else PrependEach(s[0], Combinations(s[1..], k - 1)) + Combinations(s[1..], k)
  }

  lemma {:induction false} PrependEachAt(x: string, cs: seq<seq<string>>)
    ensures |PrependEach(x, cs)| == |cs|
    ensures forall i :: 0 <= i < |cs| ==> PrependEach(x, cs)[i] == [x] + cs[i]
  {
    if cs != [] { PrependEachAt(x, cs[1..]); }
  }

  ghost predicate IsSelection(c: seq<string>, s: seq<string>, k: nat) {
    |c| == k && Distinct(c) && Elements(c) <= Elements(s)
  }

  lemma SelectionExtends(c: seq<string>, s: seq<string>, k: nat)
    requires s != [] && Distinct(s)
    ensures IsSelection(c, s[1..], k) ==> IsSelection([s[0]] + c, s, k + 1)
    ensures IsSelection(c, s[1..], k) ==> IsSelection(c, s, k)
  {
    ElementsCons(s[0], s[1..]);
    assert s == [s[0]] + s[1..];
    ElementsCons(s[0], c);
    if IsSelection(c, s[1..], k) {
      assert s[0] !in c by { assert s[0] !in Elements(s[1..]); assert s[0] !in Elements(c); }
    }
  }

  lemma {:induction false} CombinationsShape(s: seq<string>, k: nat)
    requires Distinct(s)
    ensures forall c :: c in Combinations(s, k) ==> IsSelection(c, s, k)
    ensures k > |s| ==> Combinations(s, k) == []
  {
    if k != 0 && s != [] {
      var first, rest := Combinations(s[1..], k - 1), Combinations(s[1..], k);
      CombinationsShape(s[1..], k - 1);
      CombinationsShape(s[1..], k);
      PrependEachAt(s[0], first);
      forall c | c in PrependEach(s[0], first) ensures IsSelection(c, s, k) {
        var i :| 0 <= i < |first| && c == [s[0]] + first[i];
        SelectionExtends(first[i], s, k - 1);
      }
      forall c | c in rest ensures IsSelection(c, s, k) { SelectionExtends(c, s, k); }
    }
  }

  lemma CombinationsMembers(s: seq<string>, k: nat, d: nat, c: seq<string>)
    requires s != [] && k == d + 1
    ensures c in Combinations(s[1..], d) ==> [s[0]] + c in Combinations(s, k)
    ensures c in Combinations(s[1..], k) ==> c in Combinations(s, k)
  {
    var first, rest := Combinations(s[1..], d), Combinations(s[1..], k);
    PrependEachAt(s[0], first);
    if c in first {
      var i :| 0 <= i < |first| && first[i] == c;
      assert (PrependEach(s[0], first) + rest)[i] == [s[0]] + c;
    }
  }

  ghost predicate Listed(S: set<string>, s: seq<string>, k: nat) {
    exists c :: c in Combinations(s, k) && Elements(c) == S
  }

  /** Every subset with k elements is enumerated among the k-element selections. */
  lemma {:induction false} CombinationsComplete(s: seq<string>, k: nat, S: set<string>)
    requires S <= Elements(s) && |S| == k
    ensures Listed(S, s, k)
    decreases |s|
  {
    if k == 0 {
      assert [] in Combinations(s, 0) && Elements([]) == S;
    } else {
      assert s != [];
      ElementsCons(s[0], s[1..]);
      assert s == [s[0]] + s[1..];
      var d := k - 1;
      if s[0] in S {
        CombinationsComplete(s[1..], d, S - {s[0]});
        var c :| c in Combinations(s[1..], d) && Elements(c) == S - {s[0]};
        CombinationsMembers(s, k, d, c);
        ElementsCons(s[0], c);
        assert Elements([s[0]] + c) == S;
      } else {
        CombinationsComplete(s[1..], k, S);
        var c :| c in Combinations(s[1..], k) && Elements(c) == S;
        CombinationsMembers(s, k, d, c);
      }
    }
  }

  // ----- Sums over the enumeration

  ghost function SumList(cs: seq<seq<string>>, base: set<string>, g: Game): real {
    if cs == [] then 0.0 else SumList(cs[..|cs| - 1], base, g) + g(base + Elements(cs[|cs| - 1]))
  }

  lemma {:induction false} SumListConcat(cs: seq<seq<string>>, ds: seq<seq<string>>, base: set<string>, g: Game)
    ensures SumList(cs + ds, base, g) == SumList(cs, base, g) + SumList(ds, base, g)
    decreases |ds|
  {
    if ds == [] {
      assert cs + ds == cs;
    } else {
      var n := |ds| - 1;
      assert (cs + ds)[..|cs + ds| - 1] == cs + ds[..n];
      SumListConcat(cs, ds[..n], base, g);
    }
  }

  lemma {:induction false} SumListPrepend(x: string, cs: seq<seq<string>>, base: set<string>, g: Game)
    ensures SumList(PrependEach(x, cs), base, g) == SumList(cs, base + {x}, g)
  {
    if cs != [] {
      SumListPrepend(x, cs[1..], base, g);
      SumListConcat([[x] + cs[0]], PrependEach(x, cs[1..]), base, g);
      SumListConcat([cs[0]], cs[1..], base + {x}, g);
      assert cs == [cs[0]] + cs[1..];
      ElementsCons(x, cs[0]);
      assert base + Elements([x] + cs[0]) == base + {x} + Elements(cs[0]);
      assert SumList([[x] + cs[0]], base, g) == g(base + Elements([x] + cs[0])) by {
        assert [[x] + cs[0]][..0] == [];
      }
      assert SumList([cs[0]], base + {x}, g) == g(base + {x} + Elements(cs[0])) by {
        assert [cs[0]][..0] == [];
      }
    }
  }

  /** The sum over all selections with fewer than bound elements. */
  ghost function SumSizes(r: seq<string>, base: set<string>, g: Game, bound: nat): real {
    if bound == 0 then 0.0
    else SumSizes(r, base, g, bound - 1) + SumList(Combinations(r, bound - 1), base, g)
  }

  lemma {:induction false} SumSizesSplit(r: seq<string>, base: set<string>, g: Game, bound: nat)
    requires r != []
    ensures SumSizes(r, base, g, bound + 1) ==
            SumSizes(r[1..], base, g, bound + 1) + SumSizes(r[1..], base + {r[0]}, g, bound)
  {
    if bound == 0 {
      assert SumSizes(r, base, g, 0) == 0.0;
    } else {
      var first, rest := Combinations(r[1..], bound - 1), Combinations(r[1..], bound);
      SumSizesSplit(r, base, g, bound - 1);
      SumListConcat(PrependEach(r[0], first), rest, base, g);
      SumListPrepend(r[0], first, base, g);
    }
  }

  /** Walking the sizes 0..n and the selections of each size visits every subset exactly once. */
  lemma {:induction false} SizesCoverSubsets(r: seq<string>, base: set<string>, g: Game)
    requires Distinct(r)
    ensures SumSizes(r, base, g, |r| + 1) == SumSubsets(r, base, g)
  {
    if r == [] {
      assert SumSizes(r, base, g, 1) == SumSizes(r, base, g, 0) + SumList([[]], base, g);
      var none: seq<seq<string>> := [[]];
      assert none[..0] == [];
      assert base + Elements([]) == base;
    } else {
      var t := r[1..];
      SizesCoverSubsets(t, base, g);
      SizesCoverSubsets(t, base + {r[0]}, g);
      SumSizesSplit(r, base, g, |r|);
      CombinationsShape(t, |r|);
      assert SumSizes(t, base, g, |r| + 1) == SumSizes(t, base, g, |r|) + SumList([], base, g);
    }
  }
}
