/** The rows of a query: a finite set of keys, each listed once, in whatever order. */
module Listings {
  ghost predicate Distinct<K(!new)>(order: seq<K>) {
    forall i, j | 0 <= i < j < |order| :: order[i] != order[j]
  }

  ghost predicate Lists<K(!new)>(order: seq<K>, keys: set<K>) {
    Distinct(order) && (forall k :: k in order <==> k in keys)
  }

  lemma {:induction false} SizeOfList<K(!new)>(order: seq<K>, keys: set<K>)
    requires Lists(order, keys)
    ensures |order| == |keys|
  {
    if order == [] {
      assert keys == {};
    } else {
      var last := order[|order| - 1];
      var rest := order[..|order| - 1];
      assert order == rest + [last];
      assert last !in rest && last in keys;
      SizeOfList(rest, keys - {last});
    }
  }

  /** A listing that ends in a given key. */
  ghost function ListEndingIn<K(!new)>(keys: set<K>, last: K): (order: seq<K>)
    requires last in keys
    ensures Lists(order, keys) && order[|order| - 1] == last
    decreases |keys|, 0
  {
    ListOf(keys - {last}) + [last]
  }

  ghost function ListOf<K(!new)>(keys: set<K>): (order: seq<K>)
    ensures Lists(order, keys)
    decreases |keys|, 1
  {
    if keys == {} then [] else
      var last :| last in keys;
      ListEndingIn(keys, last)
  }
}
