/** Price levels: a `std::map` from price to a list, read in priority order. `Flatten` is the
    abstraction from levels to one sequence in price-time priority. */
module Levels {
  import opened Types
  import opened Matching

  ghost predicate IsBest(side: Side, keys: set<Price>, p: Price) {
    p in keys && forall q :: q in keys ==> !Better(side, q, p)
  }

  lemma {:induction false} BestExists(side: Side, keys: set<Price>)
    requires keys != {}
    ensures exists p :: IsBest(side, keys, p)
  {
    var k :| k in keys;
    if keys == {k} {
      assert IsBest(side, keys, k);
    } else {
      assert keys == {k} + (keys - {k});
      BestExists(side, keys - {k});
      var p :| IsBest(side, keys - {k}, p);
      assert IsBest(side, keys, if Better(side, k, p) then k else p);
    }
  }

  /** The key at `begin()`: the greatest bid price, the least ask price. */
  function Best(side: Side, keys: set<Price>): (p: Price)
    requires keys != {}
    ensures IsBest(side, keys, p)
  {
    BestExists(side, keys);
    var p :| p in keys && forall q :: q in keys ==> !Better(side, q, p);
    p
  }

  /** All list elements, best level first, each level front to back. */
  function Flatten<T>(side: Side, m: map<Price, seq<T>>): seq<T>
    decreases m.Keys
  {
    if m == map[] then []
    else
      var p := Best(side, m.Keys);
      m[p] + Flatten(side, m - {p})
  }

  lemma {:induction false} InFlatten<T>(side: Side, m: map<Price, seq<T>>, x: T)
    ensures x in Flatten(side, m) <==> exists p :: p in m && x in m[p]
    decreases m.Keys
  {
    if m != map[] {
      var p := Best(side, m.Keys);
      InFlatten(side, m - {p}, x);
      assert forall q :: q in m ==> q == p || (q in m - {p} && (m - {p})[q] == m[q]);
      assert forall q :: q in m - {p} ==> q in m && (m - {p})[q] == m[q];
    }
  }

  /** The first element of a non-empty best level is the first of the flattened side. */
  lemma FlattenFront<T>(side: Side, m: map<Price, seq<T>>, p: Price)
    requires p in m && p == Best(side, m.Keys) && m[p] != []
    ensures Flatten(side, m) == [m[p][0]] + Flatten(side, m[p := m[p][1..]])
  {
    var m' := m[p := m[p][1..]];
    assert m'.Keys == m.Keys;
    assert m' - {p} == m - {p};
  }

  /** Erasing an exhausted best level does not change the flattened side. */
  lemma FlattenDrop<T>(side: Side, m: map<Price, seq<T>>, p: Price)
    requires p in m && p == Best(side, m.Keys) && m[p] == []
    ensures Flatten(side, m) == Flatten(side, m - {p})
  {
  }
}
