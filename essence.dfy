/**
 * Essence selection of engine version 2 (`MemoryEngine.compress_to_scroll`):
 * the head and tail messages are always kept, the remaining slots are filled
 * with the most important other messages (ties to the earlier message), and
 * the kept indices are emitted in document order. Also the sums over the
 * kept messages that feed the compression quality score.
 */
module Essence {
  import opened Common
  import opened Ranking

  /** The head and tail anchors of a segment of `n` messages. */
  function Anchors(n: nat): (anchors: set<nat>)
    ensures forall x :: x in anchors ==> x < n
    ensures n > 0 ==> 0 in anchors
    ensures n > 1 ==> n - 1 in anchors
    ensures |anchors| == Min(n, 2)
  {
    (if n > 0 then {0} else {}) + (if n > 1 then {n - 1} else {})
  }

  /** `s` without the members of `drop`, order kept. */
  function Without(s: seq<nat>, drop: set<nat>): (r: seq<nat>)
    ensures forall x :: x in r <==> x in s && x !in drop
    ensures |r| <= |s|
  {
    if s == [] then [] else (if s[0] in drop then [] else [s[0]]) + Without(s[1..], drop)
  }

  lemma {:induction false} WithoutAppend(a: seq<nat>, b: seq<nat>, drop: set<nat>)
    ensures Without(a + b, drop) == Without(a, drop) + Without(b, drop)
  {
    if a == [] {
      assert a + b == b;
    } else {
      assert (a + b)[1..] == a[1..] + b;
      WithoutAppend(a[1..], b, drop);
    }
  }

  /** Dropping members keeps a ranking a ranking. */
  lemma {:induction false} WithoutRanking(keys: seq<real>, s: seq<nat>, drop: set<nat>)
    requires IsRanking(keys, s)
    ensures IsRanking(keys, Without(s, drop))
  {
    if s != [] {
      var rest := Without(s[1..], drop);
      WithoutRanking(keys, s[1..], drop);
      forall x | x in rest ensures Before(keys, s[0], x) {
        var j :| 0 <= j < |s[1..]| && s[1..][j] == x;
        assert s[j + 1] == x;
      }
    }
  }

  /** Slots the fill loop takes: `k_modes - len(anchors)`, but at least one, since the loop tests its budget only after adding. */
  function FillCount(n: nat, kModes: int): nat {
    Max(kModes - Min(n, 2), 1)
  }

  /** The non-anchor indices, most important first, ties to the earlier index. */
  function Candidates(importances: seq<real>): seq<nat> {
    Without(RankDesc(importances), Anchors(|importances|))
  }

  /** The reference selection: the anchors plus the first `FillCount` candidates. */
  function EssenceSet(importances: seq<real>, kModes: int): set<nat> {
    var fill := Candidates(importances);
    Anchors(|importances|) + Elements(fill[..Min(FillCount(|importances|, kModes), |fill|)])
  }

  /** `sorted(essence_indices)`: the kept indices in document order. */
  function EssenceIndices(importances: seq<real>, kModes: int): seq<nat> {
    Ascending(EssenceSet(importances, kModes), |importances|)
  }

  lemma CandidatesFacts(importances: seq<real>)
    ensures var c := Candidates(importances);
      && IsRanking(importances, c)
      && Distinct(c)
      && (forall x: nat :: x in c <==> x < |importances| && x !in Anchors(|importances|))
      && |c| == |importances| - Min(|importances|, 2)
  {
    var c := Candidates(importances);
    WithoutRanking(importances, RankDesc(importances), Anchors(|importances|));
    RankingDistinct(importances, c);
    CandidatesCard(importances);
  }

  lemma CandidatesCard(importances: seq<real>)
    requires Distinct(Candidates(importances))
    ensures |Candidates(importances)| == |importances| - Min(|importances|, 2)
  {
    var n := |importances|;
    var c := Candidates(importances);
    var anchors := Anchors(n);
    DistinctCard(c);
    assert Elements(c) == Range(n) - anchors;
    assert anchors <= Range(n);
  }

  /** Every kept index is a message, and both anchors are kept. */
  lemma EssenceAnchors(importances: seq<real>, kModes: int)
    ensures var s := EssenceSet(importances, kModes);
      && (forall x :: x in s ==> x < |importances|)
      && (|importances| > 0 ==> 0 in s)
      && (|importances| > 1 ==> |importances| - 1 in s)
  {
    CandidatesFacts(importances);
  }

  /** The filled slots are distinct non-anchor indices. */
  lemma FillCard(importances: seq<real>, kModes: int)
    ensures var fill := Candidates(importances);
      var part := Elements(fill[..Min(FillCount(|importances|, kModes), |fill|)]);
      && |part| == Min(FillCount(|importances|, kModes), |fill|)
      && Anchors(|importances|) * part == {}
  {
    var fill := Candidates(importances);
    var t := Min(FillCount(|importances|, kModes), |fill|);
    CandidatesFacts(importances);
    assert Distinct(fill[..t]);
    DistinctCard(fill[..t]);
  }

  /**
   * With `n` messages and `a = min(n, 2)` anchors the essence has
   * `min(n, max(k_modes, a + 1))` messages: all of them when `n <= k_modes`,
   * exactly `k_modes` when `n > k_modes > a`, and `a + 1` (one more than
   * `k_modes` allows) when `k_modes <= a < n`.
   */
  lemma EssenceSize(importances: seq<real>, kModes: int)
    ensures var n, a := |importances|, Min(|importances|, 2);
      && |EssenceSet(importances, kModes)| == Min(n, Max(kModes, a + 1))
      && |EssenceIndices(importances, kModes)| == |EssenceSet(importances, kModes)|
      && (n <= kModes ==> EssenceSet(importances, kModes) == Range(n))
      && (a < kModes < n ==> |EssenceSet(importances, kModes)| == kModes)
      && (kModes <= a < n ==> |EssenceSet(importances, kModes)| == a + 1)
  {
    var n := |importances|;
    var s := EssenceSet(importances, kModes);
    EssenceCard(importances, kModes);
    EssenceAnchors(importances, kModes);
    AscendingCard(s, n);
    if n <= kModes {
      EssenceAll(importances, kModes);
    }
  }

  lemma EssenceCard(importances: seq<real>, kModes: int)
    ensures |EssenceSet(importances, kModes)|
      == Min(|importances|, 2) + Min(FillCount(|importances|, kModes), |importances| - Min(|importances|, 2))
  {
    CandidatesFacts(importances);
    FillCard(importances, kModes);
  }

  /** When `k_modes` covers the segment every message is kept. */
  lemma EssenceAll(importances: seq<real>, kModes: int)
    requires |importances| <= kModes
    ensures EssenceSet(importances, kModes) == Range(|importances|)
  {
    var fill := Candidates(importances);
    CandidatesFacts(importances);
    assert fill[..Min(FillCount(|importances|, kModes), |fill|)] == fill;
  }

  /**
   * Greedy fill: every kept non-anchor message comes before every dropped
   * message in the ranking, i.e. it is more important, or equally important
   * and earlier.
   */
  lemma EssenceGreedy(importances: seq<real>, kModes: int)
    ensures var s, anchors := EssenceSet(importances, kModes), Anchors(|importances|);
      forall i, j: nat :: i in s && i !in anchors && j < |importances| && j !in s ==> Before(importances, i, j)
  {
    var s := EssenceSet(importances, kModes);
    forall i, j: nat | i in s && i !in Anchors(|importances|) && j < |importances| && j !in s
      ensures Before(importances, i, j)
    {
      GreedyPair(importances, kModes, i, j);
    }
  }

  lemma GreedyPair(importances: seq<real>, kModes: int, i: nat, j: nat)
    requires i in EssenceSet(importances, kModes) && i !in Anchors(|importances|)
    requires j < |importances| && j !in EssenceSet(importances, kModes)
    ensures Before(importances, i, j)
  {
    var fill := Candidates(importances);
    var t := Min(FillCount(|importances|, kModes), |fill|);
    CandidatesFacts(importances);
    var x :| 0 <= x < t && fill[..t][x] == i;
    var y :| 0 <= y < |fill| && fill[y] == j;
    FillKept(importances, kModes);
    assert fill[x] == i;
  }

  /** The first `FillCount` candidates are kept. */
  lemma FillKept(importances: seq<real>, kModes: int)
    ensures var fill := Candidates(importances);
      forall z :: 0 <= z < Min(FillCount(|importances|, kModes), |fill|) ==> fill[z] in EssenceSet(importances, kModes)
  {
    var fill := Candidates(importances);
    var t := Min(FillCount(|importances|, kModes), |fill|);
    assert forall z :: 0 <= z < t ==> fill[z] == fill[..t][z];
  }

  /** The kept indices are strictly increasing, so the essence keeps document order. */
  lemma EssenceOrdered(importances: seq<real>, kModes: int)
    ensures var idx := EssenceIndices(importances, kModes);
      && (forall i, j :: 0 <= i < j < |idx| ==> idx[i] < idx[j])
      && (forall x :: x in idx ==> x < |importances|)
  {
  }

  /**
   * `compress_to_scroll`'s selection loop: anchors first, then walk the
   * messages by descending importance, adding each one not yet kept until
   * the remaining slot count drops to zero.
   */
  method SelectEssence(importances: seq<real>, kModes: int) returns (essenceIndices: set<nat>)
    ensures essenceIndices == EssenceSet(importances, kModes)
  {
    var n := |importances|;
    essenceIndices := {};
    if n > 0 {
      essenceIndices := essenceIndices + {0};
    }
    if n > 1 {
      essenceIndices := essenceIndices + {n - 1};
    }
    assert essenceIndices == Anchors(n);
    var sortedByImportance := RankDesc(importances);
    var remainingSlots := kModes - |essenceIndices|;
    ghost var added: seq<nat> := [];
    var p := 0;
    WalkedInit(importances, kModes, essenceIndices, remainingSlots);
    while p < |sortedByImportance|
      invariant p <= |sortedByImportance|
      invariant Walked(importances, kModes, p, essenceIndices, added, remainingSlots)
    {
      var idx := sortedByImportance[p];
      SelectStep(importances, kModes, p, essenceIndices, added, remainingSlots);
      if idx !in essenceIndices {
        essenceIndices := essenceIndices + {idx};
        remainingSlots := remainingSlots - 1;
        added := added + [idx];
        if remainingSlots <= 0 {
          break;
        }
      }
      p := p + 1;
    }
    if p == |sortedByImportance| {
      FillExhausted(importances, kModes, essenceIndices, added, remainingSlots);
    }
  }

  /** The state of the selection loop after walking the first `p` ranking positions without running out of slots. */
  ghost predicate Walked(importances: seq<real>, kModes: int, p: nat, essence: set<nat>, added: seq<nat>, remaining: int)
  {
    var anchors := Anchors(|importances|);
    && p <= |importances|
    && added == Without(RankDesc(importances)[..p], anchors)
    && essence == anchors + Elements(added)
    && remaining == kModes - |anchors| - |added|
    && |added| < FillCount(|importances|, kModes)
  }

  lemma WalkedInit(importances: seq<real>, kModes: int, essence: set<nat>, remaining: int)
    requires essence == Anchors(|importances|)
    requires remaining == kModes - |essence|
    ensures Walked(importances, kModes, 0, essence, [], remaining)
  {
    assert RankDesc(importances)[..0] == [];
  }

  /** One iteration of the selection loop keeps `Walked`, or ends with the slot budget spent and the reference selection reached. */
  lemma SelectStep(importances: seq<real>, kModes: int, p: nat, essence: set<nat>, added: seq<nat>, remaining: int)
    requires p < |importances|
    requires Walked(importances, kModes, p, essence, added, remaining)
    ensures var idx := RankDesc(importances)[p];
      && (idx in essence ==> Walked(importances, kModes, p + 1, essence, added, remaining))
      && (idx !in essence && remaining - 1 > 0 ==>
            Walked(importances, kModes, p + 1, essence + {idx}, added + [idx], remaining - 1))
      && (idx !in essence && remaining - 1 <= 0 ==> essence + {idx} == EssenceSet(importances, kModes))
  {
    var idx := RankDesc(importances)[p];
    StepFacts(importances, kModes, p, essence, added, remaining);
    if idx !in essence && remaining - 1 <= 0 {
      FillDone(importances, kModes, p + 1, added + [idx]);
    }
  }

  lemma StepFacts(importances: seq<real>, kModes: int, p: nat, essence: set<nat>, added: seq<nat>, remaining: int)
    requires p < |importances|
    requires Walked(importances, kModes, p, essence, added, remaining)
    ensures var idx, anchors := RankDesc(importances)[p], Anchors(|importances|);
      && (idx in essence <==> idx in anchors)
      && Without(RankDesc(importances)[..p + 1], anchors) == added + (if idx in anchors then [] else [idx])
      && essence + {idx} == anchors + Elements(added + [idx])
  {
    var order := RankDesc(importances);
    RankingDistinct(importances, order);
    WithoutStep(order, p, Anchors(|importances|));
    StepElements(Anchors(|importances|), essence, added, order[p]);
  }

  lemma StepElements(anchors: set<nat>, essence: set<nat>, added: seq<nat>, idx: nat)
    requires essence == anchors + Elements(added)
    requires idx !in added
    ensures idx in essence <==> idx in anchors
    ensures essence + {idx} == anchors + Elements(added + [idx])
  {
    ElementsSnoc(added, idx);
  }

  /** One more step of the walk over the ranking: the next index is new, and kept unless it is an anchor. */
  lemma WithoutStep(order: seq<nat>, p: nat, drop: set<nat>)
    requires p < |order|
    requires Distinct(order)
    ensures Without(order[..p + 1], drop) == Without(order[..p], drop) + (if order[p] in drop then [] else [order[p]])
    ensures order[p] !in Without(order[..p], drop)
  {
    assert order[..p + 1] == order[..p] + [order[p]];
    WithoutAppend(order[..p], [order[p]], drop);
  }

  lemma ElementsSnoc<T>(s: seq<T>, x: T)
    ensures Elements(s + [x]) == Elements(s) + {x}
  {
  }

  /** The loop stopped on its slot budget after `q` ranking positions: it took exactly the first `FillCount` candidates. */
  lemma FillDone(importances: seq<real>, kModes: int, q: nat, added: seq<nat>)
    requires q <= |RankDesc(importances)|
    requires added == Without(RankDesc(importances)[..q], Anchors(|importances|))
    requires 0 < |added| <= FillCount(|importances|, kModes) && kModes - Min(|importances|, 2) - |added| <= 0
    ensures Anchors(|importances|) + Elements(added) == EssenceSet(importances, kModes)
  {
    var fill := Candidates(importances);
    FillPrefix(RankDesc(importances), q, Anchors(|importances|));
    assert |added| == Min(FillCount(|importances|, kModes), |fill|);
    assert added == fill[..|added|];
  }

  /** The loop ran through the whole ranking: it took every candidate. */
  lemma FillExhausted(importances: seq<real>, kModes: int, essence: set<nat>, added: seq<nat>, remaining: int)
    requires Walked(importances, kModes, |importances|, essence, added, remaining)
    ensures essence == EssenceSet(importances, kModes)
  {
    var order := RankDesc(importances);
    assert order[..|order|] == order;
  }

  /** What the loop has added so far is a prefix of the candidate list. */
  lemma FillPrefix(order: seq<nat>, q: nat, drop: set<nat>)
    requires q <= |order|
    ensures Without(order[..q], drop) <= Without(order, drop)
  {
    assert order == order[..q] + order[q..];
    WithoutAppend(order[..q], order[q..], drop);
  }

  // ---------------------------------------------------------------------
  // Sums over the kept messages
  // ---------------------------------------------------------------------

  /** Left-to-right sum, as the accumulation loop computes it. */
  function Sum(vals: seq<real>): real {
    if vals == [] then 0.0 else Sum(vals[..|vals| - 1]) + vals[|vals| - 1]
  }

  /** Sum of `vals[i]` over the members `i < n` of `s`, taken in increasing index order. */
  function SumIn(vals: seq<real>, s: set<nat>, n: nat): real
    requires n <= |vals|
  {
    if n == 0 then 0.0 else SumIn(vals, s, n - 1) + (if n - 1 in s then vals[n - 1] else 0.0)
  }

  function NatSum(vals: seq<nat>): nat {
    if vals == [] then 0 else NatSum(vals[..|vals| - 1]) + vals[|vals| - 1]
  }

  function NatSumIn(vals: seq<nat>, s: set<nat>, n: nat): nat
    requires n <= |vals|
  {
    if n == 0 then 0 else NatSumIn(vals, s, n - 1) + (if n - 1 in s then vals[n - 1] else 0)
  }

  /** Concatenation of the token lists, in order. */
  function Flatten(tokens: seq<seq<string>>): seq<string> {
    if tokens == [] then [] else Flatten(tokens[..|tokens| - 1]) + tokens[|tokens| - 1]
  }

  /** Concatenation of the token lists at the members `i < n` of `s`, in increasing index order. */
  function FlattenIn(tokens: seq<seq<string>>, s: set<nat>, n: nat): seq<string>
    requires n <= |tokens|
  {
    if n == 0 then [] else FlattenIn(tokens, s, n - 1) + (if n - 1 in s then tokens[n - 1] else [])
  }

  /** With non-negative values, what the kept indices sum to lies between 0 and the total. */
  lemma {:induction false} SumInBounds(vals: seq<real>, s: set<nat>, n: nat)
    requires n <= |vals|
    requires forall i :: 0 <= i < |vals| ==> 0.0 <= vals[i]
    ensures 0.0 <= SumIn(vals, s, n) <= Sum(vals[..n])
  {
    if n > 0 {
      SumInBounds(vals, s, n - 1);
      assert vals[..n][..n - 1] == vals[..n - 1];
    }
  }

  lemma {:induction false} NatSumInBound(vals: seq<nat>, s: set<nat>, n: nat)
    requires n <= |vals|
    ensures NatSumIn(vals, s, n) <= NatSum(vals[..n])
  {
    if n > 0 {
      NatSumInBound(vals, s, n - 1);
      assert vals[..n][..n - 1] == vals[..n - 1];
    }
  }

  /** Every token kept at the listed indices is a token of the segment. */
  lemma {:induction false} FlattenInSubset(tokens: seq<seq<string>>, s: set<nat>, n: nat)
    requires n <= |tokens|
    ensures Elements(FlattenIn(tokens, s, n)) <= Elements(Flatten(tokens[..n]))
  {
    if n > 0 {
      FlattenInSubset(tokens, s, n - 1);
      assert tokens[..n][..n - 1] == tokens[..n - 1];
      var last := if n - 1 in s then tokens[n - 1] else [];
      assert Elements(FlattenIn(tokens, s, n)) == Elements(FlattenIn(tokens, s, n - 1)) + Elements(last);
      assert Elements(Flatten(tokens[..n])) == Elements(Flatten(tokens[..n - 1])) + Elements(tokens[n - 1]);
    }
  }
}
