/** The map obtained by visiting key/value pairs in order and assigning
    `m[key] = value` for each one, starting from an empty map. This is what
    the request visitors do to fill a connection's locals and queries. */
module Visit {

  /** The map after visiting every pair of `pairs`, first to last. */
  function FromPairs<K, W>(pairs: seq<(K, W)>): (m: map<K, W>)
    ensures m.Keys == set i | 0 <= i < |pairs| :: pairs[i].0
  {
    if pairs == [] then map[]
    else
      var init := pairs[..|pairs| - 1];
      var last := pairs[|pairs| - 1];
      var m := FromPairs(init)[last.0 := last.1];
      assert m.Keys == FromPairs(init).Keys + {last.0};
      assert forall i :: 0 <= i < |init| ==> init[i] == pairs[i];
      m
  }

  /** Index `i` holds the last occurrence of its key in `pairs`. */
  predicate IsLastOccurrence<K(==), W>(pairs: seq<(K, W)>, i: nat)
  {
    i < |pairs| && forall j :: i < j < |pairs| ==> pairs[j].0 != pairs[i].0
  }

  /** The value a key maps to is the one of its last occurrence. */
  lemma {:induction false} FromPairsLastWins<K, W>(pairs: seq<(K, W)>, i: nat)
    requires IsLastOccurrence(pairs, i)
    ensures pairs[i].0 in FromPairs(pairs)
    ensures FromPairs(pairs)[pairs[i].0] == pairs[i].1
  {
    if i < |pairs| - 1 {
      var init := pairs[..|pairs| - 1];
      assert IsLastOccurrence(init, i);
      FromPairsLastWins(init, i);
    }
  }
}
