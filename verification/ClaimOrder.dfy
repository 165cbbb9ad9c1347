/** The order in which due rows are claimed: by one or two times, then by id. */
module ClaimOrder {

  /** The columns a claim orders by before the id. */
  datatype Key = Key(first: int, second: int)

  predicate Earlier(a: Key, x: nat, b: Key, y: nat) {
    || a.first < b.first
    || (a.first == b.first && a.second < b.second)
    || (a == b && x < y)
  }

  predicate IsFirst(keys: map<nat, Key>, candidates: set<nat>, first: nat)
    requires candidates <= keys.Keys
  {
    first in candidates && forall id :: id in candidates ==> !Earlier(keys[id], id, keys[first], first)
  }

  /** A nonempty set of candidates has a first one in claim order. */
  lemma {:induction false} FirstExists(keys: map<nat, Key>, candidates: set<nat>) returns (first: nat)
    requires candidates != {} && candidates <= keys.Keys
    ensures IsFirst(keys, candidates, first)
  {
    var some :| some in candidates;
    var rest := candidates - {some};
    if rest == {} {
      assert candidates == {some};
      first := some;
    } else {
      var best := FirstExists(keys, rest);
      first := if Earlier(keys[some], some, keys[best], best) then some else best;
      forall id | id in candidates ensures !Earlier(keys[id], id, keys[first], first) {
        assert id == some || id in rest;
      }
    }
  }

  /** There is only one, so a claim leaves no choice. */
  lemma FirstUnique(keys: map<nat, Key>, candidates: set<nat>, a: nat, b: nat)
    requires candidates <= keys.Keys && IsFirst(keys, candidates, a) && IsFirst(keys, candidates, b)
    ensures a == b
  {
    assert !Earlier(keys[a], a, keys[b], b);
  }

  method ChooseFirst(keys: map<nat, Key>, candidates: set<nat>) returns (first: nat)
    requires candidates != {} && candidates <= keys.Keys
    ensures IsFirst(keys, candidates, first)
  {
    ghost var some := FirstExists(keys, candidates);
    first :| first in candidates && IsFirst(keys, candidates, first);
  }
}
