/**
 * Python's `sorted(items, key=..., reverse=True)` (and `list.sort` with the
 * same arguments) over items identified by their index. The sort is stable,
 * so items with equal keys keep their original relative order; with indices
 * as identities that order is "smaller index first".
 */
module Ranking {
  import opened Common

  /** Index `a` is placed before index `b`: a larger key, or an equal key and an earlier index. */
  predicate Before(keys: seq<real>, a: nat, b: nat) {
    a < |keys| && b < |keys| && (keys[a] > keys[b] || (keys[a] == keys[b] && a < b))
  }

  /** `order` lists indices of `keys` in the order a stable descending sort produces. */
  predicate IsRanking(keys: seq<real>, order: seq<nat>) {
    forall i, j :: 0 <= i < j < |order| ==> Before(keys, order[i], order[j])
  }

  lemma RankingDistinct(keys: seq<real>, order: seq<nat>)
    requires IsRanking(keys, order)
    ensures Distinct(order)
  {
  }

  /** Inserts index `p` into a ranking that does not hold it yet. */
  function Insert(keys: seq<real>, p: nat, order: seq<nat>): (r: seq<nat>)
    requires p < |keys| && p !in order && IsRanking(keys, order)
    requires forall x :: x in order ==> x < |keys|
    ensures |r| == |order| + 1
    ensures forall x :: x in r <==> x == p || x in order
    ensures IsRanking(keys, r)
  {
    if order == [] then [p]
    else if Before(keys, p, order[0]) then [p] + order
    else
      var rest := Insert(keys, p, order[1..]);
      assert order[0] in order;
      assert forall x :: x in rest ==> Before(keys, order[0], x) by {
        forall x | x in rest ensures Before(keys, order[0], x) {
          if x != p {
            var j :| 0 <= j < |order[1..]| && order[1..][j] == x;
            assert order[j + 1] == x;
          }
        }
      }
      [order[0]] + rest
  }

  /** The ranking of the indices `lo .. |keys|-1`. */
  function RankFrom(keys: seq<real>, lo: nat): (r: seq<nat>)
    requires lo <= |keys|
    ensures |r| == |keys| - lo
    ensures forall x: nat :: x in r <==> lo <= x < |keys|
    ensures IsRanking(keys, r)
    decreases |keys| - lo
  {
    if lo == |keys| then [] else Insert(keys, lo, RankFrom(keys, lo + 1))
  }

  /**
   * The indices of `keys` sorted by key, largest first, ties in index order:
   * the index order of Python's stable `sorted(..., reverse=True)`.
   */
  function RankDesc(keys: seq<real>): (order: seq<nat>)
    ensures |order| == |keys|
    ensures forall x: nat :: x in order <==> x < |keys|
    ensures IsRanking(keys, order)
  {
    RankFrom(keys, 0)
  }

  /**
   * A ranking is determined by the indices it holds: any stable descending
   * sort of the same items yields exactly the same order.
   */
  lemma {:induction false} RankingUnique(keys: seq<real>, o1: seq<nat>, o2: seq<nat>)
    requires IsRanking(keys, o1) && IsRanking(keys, o2)
    requires forall x :: x in o1 <==> x in o2
    ensures o1 == o2
  {
    if o1 != [] || o2 != [] {
      assert o1 != [] ==> o1[0] in o2;
      assert o2 != [] ==> o2[0] in o1;
      var i :| 0 <= i < |o1| && o1[i] == o2[0];
      var j :| 0 <= j < |o2| && o2[j] == o1[0];
      assert i != 0 ==> Before(keys, o1[0], o1[i]);
      assert j != 0 ==> Before(keys, o2[0], o2[j]);
      assert o1[0] == o2[0];
      RankingDistinct(keys, o1);
      RankingDistinct(keys, o2);
      forall x ensures x in o1[1..] <==> x in o2[1..] {
        assert x in o1[1..] <==> x in o1 && x != o1[0];
        assert x in o2[1..] <==> x in o2 && x != o2[0];
      }
      RankingUnique(keys, o1[1..], o2[1..]);
    }
  }

  /**
   * The first `n` places of a ranking (Python's `[:n]` after the sort): an
   * index left out comes after every index kept.
   */
  lemma PrefixBeforeRest(keys: seq<real>, n: int, p: nat)
    requires p < |keys| && p !in PyPrefix(RankDesc(keys), n)
    ensures forall k :: 0 <= k < |PyPrefix(RankDesc(keys), n)| ==> Before(keys, PyPrefix(RankDesc(keys), n)[k], p)
  {
    var ranked := RankDesc(keys);
    var top := PyPrefix(ranked, n);
    assert p in ranked;
    var m :| 0 <= m < |ranked| && ranked[m] == p;
    assert forall k :: 0 <= k < |top| ==> top[k] == ranked[k];
  }
}
