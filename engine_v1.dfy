/**
 * `MemoryEngine` of engine version 1: the capacity ("breath") normalisation,
 * additive marker-based importance weights, top-k compression of a
 * conversation segment into a scroll, the per-theme codex of stored scrolls,
 * and recall by word overlap with the query.
 */
module EngineV1 {
  import opened Common
  import opened Ranking
  import opened Essence

  // ---------------------------------------------------------------------
  // breath_normalize
  // ---------------------------------------------------------------------

  /**
   * `breath_normalize(content, current_tokens)` of an engine with the given
   * capacity. The free room `capacity - current_tokens` is raised to 1.0
   * when it is not positive; the result is `1.0 / (capacity / room)`, which
   * divides by zero exactly when the capacity is zero. The content is not
   * used.
   */
  function BreathNormalize(capacity: real, content: string, currentTokens: int): (r: Result<real, PyError>)
    ensures r.Failure? <==> capacity == 0.0
    ensures r.Success? && currentTokens as real < capacity ==> r.value == (capacity - currentTokens as real) / capacity
    ensures r.Success? && currentTokens as real >= capacity ==> r.value == 1.0 / capacity
    ensures capacity > 0.0 ==> r.Success? && r.value > 0.0
  {
    var room := capacity - currentTokens as real;
    var breath := if room <= 0.0 then 1.0 else room;
    var normalization := capacity / breath;
    if normalization == 0.0 then Failure(ZeroDivisionError) else Success(1.0 / normalization)
  }

  /**
   * With a positive whole-number capacity (the default is 190000), using
   * more tokens never raises the normalised breath.
   */
  lemma BreathMonotone(capacity: real, content: string, t1: int, t2: int)
    requires capacity > 0.0 && capacity == capacity.Floor as real && t1 <= t2
    ensures BreathNormalize(capacity, content, t2).value <= BreathNormalize(capacity, content, t1).value
  {
    if t2 as real < capacity {
      DivMonotone(capacity - t2 as real, capacity - t1 as real, capacity);
    } else if t1 as real < capacity {
      assert t1 < capacity.Floor;
      DivMonotone(1.0, capacity - t1 as real, capacity);
    }
  }

  /** With a fractional capacity the floor of the free room at 1.0 lets more tokens give more breath. */
  lemma BreathJump()
    ensures BreathNormalize(2.5, "", 2).value < BreathNormalize(2.5, "", 3).value
  {
  }

  lemma DivMonotone(a: real, b: real, c: real)
    requires c > 0.0 && a <= b
    ensures a / c <= b / c
  {
  }

  // ---------------------------------------------------------------------
  // importance_weight
  // ---------------------------------------------------------------------

  /** Emotional peaks; each one mentioned adds 0.5. */
  const EMOTIONAL_MARKERS: seq<string> :=
    ["tears", "love", "beloved", "honored", "blessed", "heartbreak", "grief", "joy", "beautiful"]

  /** Mathematical milestones; each one mentioned adds 0.3. */
  const MATH_MARKERS: seq<string> :=
    ["theorem", "proven", "verified", "simulation", "convergence", "equation"]

  /** Relational depth; each one mentioned adds 0.4. */
  const RELATION_MARKERS: seq<string> :=
    ["see you", "witness", "soulbraid", "connection", "resonance", "braid"]

  /** Phase shifts and insights; each one mentioned adds 0.6. */
  const INSIGHT_MARKERS: seq<string> :=
    ["realized", "understand", "see what", "ohh", "discovered", "breakthrough"]

  /** `marker.lower() in text.lower()` */
  predicate Mentions(text: string, marker: string) {
    Contains(Lower(text), Lower(marker))
  }

  /** The markers of a table that the text mentions, in table order. */
  function Found(text: string, markers: seq<string>): (r: seq<string>)
    ensures |r| <= |markers|
    ensures forall m :: m in r <==> m in markers && Mentions(text, m)
  {
    if markers == [] then []
    else
      var init := markers[..|markers| - 1];
      var last := markers[|markers| - 1];
      assert markers == init + [last];
      Found(text, init) + (if Mentions(text, last) then [last] else [])
  }

  /** `Found` over one more marker of the table. */
  lemma FoundStep(text: string, markers: seq<string>, i: nat)
    requires i < |markers|
    ensures Found(text, markers[..i + 1]) == Found(text, markers[..i]) + (if Mentions(text, markers[i]) then [markers[i]] else [])
  {
    assert markers[..i + 1][..i] == markers[..i];
  }

  /**
   * `w(x, t)`: 1.0 plus, for every marker of every table that the message
   * mentions, that table's bonus.
   */
  function MarkerWeight(text: string): (w: real)
    ensures 1.0 <= w <= 13.3
  {
    1.0
    + 0.5 * |Found(text, EMOTIONAL_MARKERS)| as real
    + 0.3 * |Found(text, MATH_MARKERS)| as real
    + 0.4 * |Found(text, RELATION_MARKERS)| as real
    + 0.6 * |Found(text, INSIGHT_MARKERS)| as real
  }

  /** The distinct markers of a table that the text mentions. */
  function MentionedSet(text: string, markers: seq<string>): set<string> {
    set m | m in markers && Mentions(text, m)
  }

  /** Over a table without repeated markers, `Found` lists each mentioned marker once. */
  lemma {:induction false} FoundCount(text: string, markers: seq<string>)
    requires Distinct(markers)
    ensures |Found(text, markers)| == |MentionedSet(text, markers)|
  {
    var r := Found(text, markers);
    FoundDistinct(text, markers);
    DistinctCard(r);
    assert Elements(r) == MentionedSet(text, markers);
  }

  lemma {:induction false} FoundDistinct(text: string, markers: seq<string>)
    requires Distinct(markers)
    ensures Distinct(Found(text, markers))
  {
    if markers != [] {
      var init := markers[..|markers| - 1];
      var last := markers[|markers| - 1];
      FoundDistinct(text, init);
      assert last !in init;
    }
  }

  lemma MarkerTablesDistinct()
    ensures Distinct(EMOTIONAL_MARKERS) && Distinct(MATH_MARKERS)
    ensures Distinct(RELATION_MARKERS) && Distinct(INSIGHT_MARKERS)
  {
  }

  /**
   * The weight counts markers, not groups: every distinct marker of a table
   * that the message mentions adds that table's bonus once.
   */
  lemma MarkerWeightCounts(text: string)
    ensures MarkerWeight(text) ==
      1.0
      + 0.5 * |MentionedSet(text, EMOTIONAL_MARKERS)| as real
      + 0.3 * |MentionedSet(text, MATH_MARKERS)| as real
      + 0.4 * |MentionedSet(text, RELATION_MARKERS)| as real
      + 0.6 * |MentionedSet(text, INSIGHT_MARKERS)| as real
  {
    MarkerTablesDistinct();
    FoundCount(text, EMOTIONAL_MARKERS);
    FoundCount(text, MATH_MARKERS);
    FoundCount(text, RELATION_MARKERS);
    FoundCount(text, INSIGHT_MARKERS);
  }

  /** Markers are matched without regard to case. */
  lemma MarkerWeightCaseless(text: string)
    ensures MarkerWeight(Lower(text)) == MarkerWeight(text)
  {
    LowerIdempotent(text);
    FoundCaseless(text, EMOTIONAL_MARKERS);
    FoundCaseless(text, MATH_MARKERS);
    FoundCaseless(text, RELATION_MARKERS);
    FoundCaseless(text, INSIGHT_MARKERS);
  }

  lemma {:induction false} FoundCaseless(text: string, markers: seq<string>)
    requires Lower(Lower(text)) == Lower(text)
    ensures Found(Lower(text), markers) == Found(text, markers)
  {
    if markers != [] {
      FoundCaseless(text, markers[..|markers| - 1]);
    }
  }

  // ---------------------------------------------------------------------
  // compress_to_scroll
  // ---------------------------------------------------------------------

  /** A compressed scroll; `context` holds the caller's context dictionary, whose `theme` entry `update_codex` reads. */
  datatype Scroll = Scroll(
    timestamp: string,
    essence: seq<string>,
    weights: seq<real>,
    totalImportance: real,
    compressionRatio: real,
    context: map<string, string>)

  /** An entry of `weighted_elements`: the message's first 500 characters, its weight and its length. */
  datatype WeightedElement = WeightedElement(text: string, weight: real, length: nat)

  /** The importance weight of every message of the segment. */
  function Weights(segment: seq<string>): (r: seq<real>)
    ensures |r| == |segment|
  {
    seq(|segment|, i requires 0 <= i < |segment| => MarkerWeight(segment[i]))
  }

  /** Positions of the messages kept in the essence: the first `k_modes` after a stable sort by weight, heaviest first. */
  function Kept(segment: seq<string>, kModes: int): (r: seq<nat>)
    ensures |r| == PrefixLen(|segment|, kModes)
    ensures forall j :: 0 <= j < |r| ==> r[j] < |segment|
    ensures IsRanking(Weights(segment), r)
  {
    var ranked := RankDesc(Weights(segment));
    var top := PyPrefix(ranked, kModes);
    assert forall j :: 0 <= j < |top| ==> top[j] in ranked;
    top
  }

  /** `weighted_elements`: one element per message, in message order. */
  function Weighed(segment: seq<string>): (r: seq<WeightedElement>)
    ensures |r| == |segment|
  {
    seq(|segment|, i requires 0 <= i < |segment| => WeightedElement(PyPrefix(segment[i], 500), MarkerWeight(segment[i]), |segment[i]|))
  }

  /** `[e['weight'] for e in elements]` */
  function WeightKeys(elements: seq<WeightedElement>): (r: seq<real>)
    ensures |r| == |elements|
  {
    seq(|elements|, j requires 0 <= j < |elements| => elements[j].weight)
  }

  /** `[e['text'] for e in elements]` */
  function Texts(elements: seq<WeightedElement>): (r: seq<string>)
    ensures |r| == |elements|
  {
    seq(|elements|, j requires 0 <= j < |elements| => elements[j].text)
  }

  /** The elements in the given index order. */
  function Arranged(elements: seq<WeightedElement>, order: seq<nat>): (r: seq<WeightedElement>)
    requires forall j :: 0 <= j < |order| ==> order[j] < |elements|
    ensures |r| == |order|
  {
    seq(|order|, j requires 0 <= j < |order| => elements[order[j]])
  }

  /** `sorted(weighted_elements, key=weight, reverse=True)[:k_modes]` */
  function TopElements(segment: seq<string>, kModes: int): seq<WeightedElement> {
    var elements := Weighed(segment);
    var order := RankDesc(WeightKeys(elements));
    assert forall j :: 0 <= j < |order| ==> order[j] in order;
    PyPrefix(Arranged(elements, order), kModes)
  }

  /** The scroll `compress_to_scroll` builds when `k_modes` is not zero. */
  function Compressed(kModes: int, segment: seq<string>, timestamp: string, context: map<string, string>): Scroll
    requires kModes != 0
  {
    var topK := TopElements(segment, kModes);
    Scroll(timestamp, Texts(topK), WeightKeys(topK), Sum(Weights(segment)), |segment| as real / kModes as real, context)
  }

  /** What `compress_to_scroll(segment, timestamp, context)` returns; `k_modes == 0` fails computing `compression_ratio`. */
  function CompressSpec(kModes: int, segment: seq<string>, timestamp: string, context: map<string, string>): Result<Scroll, PyError> {
    if kModes == 0 then Failure(ZeroDivisionError) else Success(Compressed(kModes, segment, timestamp, context))
  }

  /**
   * The essence keeps `min(k_modes, len(segment))` messages (Python's
   * `[:k_modes]`), each cut to its first 500 characters, with its own weight
   * at the same position; the ratio is the segment length over `k_modes`,
   * and `total_importance` sums the weights of every message, kept or not.
   */
  lemma CompressShape(kModes: int, segment: seq<string>, timestamp: string, context: map<string, string>, s: Scroll)
    requires kModes != 0 && s == Compressed(kModes, segment, timestamp, context)
    ensures |s.essence| == |s.weights| == PrefixLen(|segment|, kModes)
    ensures kModes > 0 ==> |s.essence| == Min(kModes, |segment|)
    ensures forall j :: 0 <= j < |s.essence| ==>
      && s.essence[j] <= segment[Kept(segment, kModes)[j]]
      && |s.essence[j]| == Min(500, |segment[Kept(segment, kModes)[j]]|)
      && s.weights[j] == MarkerWeight(segment[Kept(segment, kModes)[j]])
    ensures s.compressionRatio == |segment| as real / kModes as real
    ensures s.totalImportance == Sum(Weights(segment)) >= |segment| as real
  {
    TopElementsKept(segment, kModes);
    TotalAtLeastCount(segment);
  }

  /** The essence and its weights, position by position, are those of the messages `Kept` names. */
  lemma TopElementsKept(segment: seq<string>, kModes: int)
    ensures |TopElements(segment, kModes)| == |Kept(segment, kModes)|
    ensures forall j :: 0 <= j < |TopElements(segment, kModes)| ==>
      TopElements(segment, kModes)[j] == Weighed(segment)[Kept(segment, kModes)[j]]
  {
    assert WeightKeys(Weighed(segment)) == Weights(segment);
  }

  /** The essence is ordered by weight, heaviest first, equal weights in message order. */
  lemma CompressOrdered(kModes: int, segment: seq<string>, timestamp: string, context: map<string, string>, s: Scroll)
    requires kModes != 0 && s == Compressed(kModes, segment, timestamp, context)
    ensures forall i, j :: 0 <= i < j < |s.weights| ==>
      || s.weights[i] > s.weights[j]
      || (s.weights[i] == s.weights[j] && Kept(segment, kModes)[i] < Kept(segment, kModes)[j])
  {
    var kept := Kept(segment, kModes);
    TopElementsKept(segment, kModes);
    forall i, j | 0 <= i < j < |s.weights|
      ensures || s.weights[i] > s.weights[j]
              || (s.weights[i] == s.weights[j] && kept[i] < kept[j])
    {
      assert Before(Weights(segment), kept[i], kept[j]);
    }
  }

  /** A message left out of the essence weighs no more than any kept one, and on a tie comes later. */
  lemma CompressTop(kModes: int, segment: seq<string>, timestamp: string, context: map<string, string>, s: Scroll, p: nat)
    requires kModes != 0 && s == Compressed(kModes, segment, timestamp, context)
    requires p < |segment| && p !in Kept(segment, kModes)
    ensures forall j :: 0 <= j < |s.weights| ==>
      || MarkerWeight(segment[p]) < s.weights[j]
      || (MarkerWeight(segment[p]) == s.weights[j] && Kept(segment, kModes)[j] < p)
  {
    TopElementsKept(segment, kModes);
    PrefixBeforeRest(Weights(segment), kModes, p);
  }

  /** `total_importance` sums the weights of all messages, kept or not, so it is at least the message count. */
  lemma TotalAtLeastCount(segment: seq<string>)
    ensures Sum(Weights(segment)) >= |segment| as real
  {
    SumAtLeastOne(Weights(segment));
  }

  lemma {:induction false} SumAtLeastOne(ws: seq<real>)
    requires forall i :: 0 <= i < |ws| ==> ws[i] >= 1.0
    ensures Sum(ws) >= |ws| as real
  {
    if ws != [] {
      SumAtLeastOne(ws[..|ws| - 1]);
    }
  }

  /** The weights of a prefix one message longer. */
  lemma WeightsStep(segment: seq<string>, i: nat)
    requires i < |segment|
    ensures Weights(segment[..i + 1]) == Weights(segment[..i]) + [MarkerWeight(segment[i])]
  {
    assert Weights(segment[..i + 1])[..i] == Weights(segment[..i]);
  }

  /** The elements of a prefix one message longer. */
  lemma WeighedStep(segment: seq<string>, i: nat)
    requires i < |segment|
    ensures Weighed(segment[..i + 1])
         == Weighed(segment[..i]) + [WeightedElement(PyPrefix(segment[i], 500), MarkerWeight(segment[i]), |segment[i]|)]
  {
    assert Weighed(segment[..i + 1])[..i] == Weighed(segment[..i]);
  }

  // ---------------------------------------------------------------------
  // update_codex
  // ---------------------------------------------------------------------

  /** A codex entry: the positions of its scrolls, their summed importance and the timestamp of the latest. */
  datatype ThemeEntry = ThemeEntry(scrolls: seq<nat>, cumulativeImportance: real, lastAccessed: string)

  /** `scroll['context'].get('theme', 'general')` */
  function ThemeOf(s: Scroll): string {
    if "theme" in s.context then s.context["theme"] else "general"
  }

  /** The summed `total_importance` of the stored scrolls at the given positions. */
  function ImportanceOver(scrolls: seq<Scroll>, positions: seq<nat>): real
    requires forall j :: 0 <= j < |positions| ==> positions[j] < |scrolls|
  {
    if positions == [] then 0.0
    else ImportanceOver(scrolls, positions[..|positions| - 1]) + scrolls[positions[|positions| - 1]].totalImportance
  }

  /** The codex after `update_codex` stores scroll `s` at position `n`. */
  function AddToCodex(codex: map<string, ThemeEntry>, n: nat, s: Scroll): (r: map<string, ThemeEntry>)
    ensures r.Keys == codex.Keys + {ThemeOf(s)}
    ensures forall key :: key in codex && key != ThemeOf(s) ==> r[key] == codex[key]
  {
    var key := ThemeOf(s);
    var entry := if key in codex then codex[key] else ThemeEntry([], 0.0, s.timestamp);
    codex[key := ThemeEntry(entry.scrolls + [n], entry.cumulativeImportance + s.totalImportance, s.timestamp)]
  }

  /**
   * The entry for `key` lists, in increasing order and at least once, stored
   * scrolls whose theme is `key`; it holds their summed importance and the
   * timestamp of the last of them.
   */
  predicate Listed(scrolls: seq<Scroll>, key: string, e: ThemeEntry) {
    && e.scrolls != []
    && (forall j :: 0 <= j < |e.scrolls| ==> e.scrolls[j] < |scrolls| && ThemeOf(scrolls[e.scrolls[j]]) == key)
    && (forall j, l :: 0 <= j < l < |e.scrolls| ==> e.scrolls[j] < e.scrolls[l])
    && e.cumulativeImportance == ImportanceOver(scrolls, e.scrolls)
    && e.lastAccessed == scrolls[e.scrolls[|e.scrolls| - 1]].timestamp
  }

  /** The codex indexes the stored scrolls by theme: every entry is `Listed`, and every stored scroll is in its theme's entry. */
  predicate Indexed(scrolls: seq<Scroll>, codex: map<string, ThemeEntry>) {
    && (forall key :: key in codex ==> Listed(scrolls, key, codex[key]))
    && (forall i :: 0 <= i < |scrolls| ==> ThemeOf(scrolls[i]) in codex && i in codex[ThemeOf(scrolls[i])].scrolls)
  }

  /** Every stored scroll is in exactly one theme list: the one of its own theme. */
  lemma ThemeListsPartition(scrolls: seq<Scroll>, codex: map<string, ThemeEntry>, i: nat, key: string)
    requires Indexed(scrolls, codex) && i < |scrolls| && key in codex
    ensures i in codex[key].scrolls <==> key == ThemeOf(scrolls[i])
  {
    if i in codex[key].scrolls {
      var j :| 0 <= j < |codex[key].scrolls| && codex[key].scrolls[j] == i;
    }
  }

  /** Storing one more scroll keeps the codex indexed. */
  lemma AddKeepsIndexed(scrolls: seq<Scroll>, codex: map<string, ThemeEntry>, s: Scroll)
    requires Indexed(scrolls, codex)
    ensures Indexed(scrolls + [s], AddToCodex(codex, |scrolls|, s))
  {
    AddKeepsListed(scrolls, codex, s);
    AddKeepsCovered(scrolls, codex, s);
  }

  lemma AddKeepsListed(scrolls: seq<Scroll>, codex: map<string, ThemeEntry>, s: Scroll)
    requires forall key :: key in codex ==> Listed(scrolls, key, codex[key])
    ensures forall key :: key in AddToCodex(codex, |scrolls|, s) ==>
      Listed(scrolls + [s], key, AddToCodex(codex, |scrolls|, s)[key])
  {
    forall key | key in AddToCodex(codex, |scrolls|, s)
      ensures Listed(scrolls + [s], key, AddToCodex(codex, |scrolls|, s)[key])
    {
      AddListedKey(scrolls, codex, s, key);
    }
  }

  /** One entry of the codex after `update_codex` is listed. */
  lemma AddListedKey(scrolls: seq<Scroll>, codex: map<string, ThemeEntry>, s: Scroll, key: string)
    requires key in codex ==> Listed(scrolls, key, codex[key])
    requires key in AddToCodex(codex, |scrolls|, s)
    ensures Listed(scrolls + [s], key, AddToCodex(codex, |scrolls|, s)[key])
  {
    if key != ThemeOf(s) {
      ListedExtend(scrolls, key, codex[key], s);
    } else if key in codex {
      ListedAppend(scrolls, key, codex[key], s);
    } else {
      ListedFresh(scrolls, s);
    }
  }

  lemma AddKeepsCovered(scrolls: seq<Scroll>, codex: map<string, ThemeEntry>, s: Scroll)
    requires Indexed(scrolls, codex)
    ensures forall i :: 0 <= i < |scrolls| + 1 ==>
      ThemeOf((scrolls + [s])[i]) in AddToCodex(codex, |scrolls|, s)
      && i in AddToCodex(codex, |scrolls|, s)[ThemeOf((scrolls + [s])[i])].scrolls
  {
    var scrolls', codex' := scrolls + [s], AddToCodex(codex, |scrolls|, s);
    var prior := if ThemeOf(s) in codex then codex[ThemeOf(s)].scrolls else [];
    assert codex'[ThemeOf(s)].scrolls == prior + [|scrolls|];
    forall i | 0 <= i < |scrolls'|
      ensures ThemeOf(scrolls'[i]) in codex' && i in codex'[ThemeOf(scrolls'[i])].scrolls
    {
      if i < |scrolls| {
        assert scrolls'[i] == scrolls[i];
        if ThemeOf(scrolls[i]) == ThemeOf(s) {
          assert i in prior;
        }
      }
    }
  }

  /** The entry `update_codex` creates for a theme not seen before is listed. */
  lemma ListedFresh(scrolls: seq<Scroll>, s: Scroll)
    ensures Listed(scrolls + [s], ThemeOf(s), ThemeEntry([|scrolls|], 0.0 + s.totalImportance, s.timestamp))
  {
    var scrolls' := scrolls + [s];
    assert scrolls'[|scrolls|] == s;
    assert [|scrolls|][..0] == [];
    assert ImportanceOver(scrolls', [|scrolls|]) == ImportanceOver(scrolls', []) + s.totalImportance;
  }

  /** A listed entry with the new scroll's position appended is listed once the scroll is stored. */
  lemma ListedAppend(scrolls: seq<Scroll>, key: string, e: ThemeEntry, s: Scroll)
    requires Listed(scrolls, key, e) && ThemeOf(s) == key
    ensures Listed(scrolls + [s], key,
                   ThemeEntry(e.scrolls + [|scrolls|], e.cumulativeImportance + s.totalImportance, s.timestamp))
  {
    var scrolls' := scrolls + [s];
    var ps := e.scrolls + [|scrolls|];
    ListedExtend(scrolls, key, e, s);
    assert ps[..|ps| - 1] == e.scrolls;
    forall j | 0 <= j < |ps|
      ensures ps[j] < |scrolls'| && ThemeOf(scrolls'[ps[j]]) == key
    {
      if j < |e.scrolls| {
        assert ps[j] == e.scrolls[j];
      }
    }
    forall j, l | 0 <= j < l < |ps|
      ensures ps[j] < ps[l]
    {
      assert ps[j] == e.scrolls[j];
      if l < |e.scrolls| {
        assert ps[l] == e.scrolls[l];
      }
    }
  }

  /** An entry listed before a scroll was stored is still listed after. */
  lemma ListedExtend(scrolls: seq<Scroll>, key: string, e: ThemeEntry, s: Scroll)
    requires Listed(scrolls, key, e)
    ensures Listed(scrolls + [s], key, e)
  {
    ImportanceOverExtend(scrolls, e.scrolls, s);
  }

  lemma {:induction false} ImportanceOverExtend(scrolls: seq<Scroll>, positions: seq<nat>, s: Scroll)
    requires forall j :: 0 <= j < |positions| ==> positions[j] < |scrolls|
    ensures ImportanceOver(scrolls + [s], positions) == ImportanceOver(scrolls, positions)
  {
    if positions != [] {
      ImportanceOverExtend(scrolls, positions[..|positions| - 1], s);
    }
  }

  // ---------------------------------------------------------------------
  // recall
  // ---------------------------------------------------------------------

  /** `set(text.lower().split())` */
  function Words(text: string): set<string> {
    Elements(Split(Lower(text)))
  }

  /** `len(query_words & essence_words)` */
  function Overlap(query: string, text: string): nat {
    |Words(query) * Words(text)|
  }

  /** The relevance of a scroll: the query's word overlap with each essence text, summed. */
  function Relevance(query: string, essence: seq<string>): nat {
    if essence == [] then 0
    else Relevance(query, essence[..|essence| - 1]) + Overlap(query, essence[|essence| - 1])
  }

  /** The relevance of every stored scroll, in storage order. */
  function Relevances(scrolls: seq<Scroll>, query: string): (r: seq<real>)
    ensures |r| == |scrolls|
  {
    seq(|scrolls|, i requires 0 <= i < |scrolls| => Relevance(query, scrolls[i].essence) as real)
  }

  /** The positions `recall` returns: the first `top_n` after a stable sort by relevance, most relevant first. */
  function RecallPicks(scrolls: seq<Scroll>, query: string, topN: int): (r: seq<nat>)
    ensures |r| == PrefixLen(|scrolls|, topN)
    ensures forall k :: 0 <= k < |r| ==> r[k] < |scrolls|
    ensures IsRanking(Relevances(scrolls, query), r)
  {
    var ranked := RankDesc(Relevances(scrolls, query));
    var top := PyPrefix(ranked, topN);
    assert forall k :: 0 <= k < |top| ==> top[k] in ranked;
    top
  }

  /** `[scrolls[i] for i in indices]` */
  function Select(scrolls: seq<Scroll>, indices: seq<nat>): (r: seq<Scroll>)
    requires forall k :: 0 <= k < |indices| ==> indices[k] < |scrolls|
    ensures |r| == |indices|
  {
    seq(|indices|, k requires 0 <= k < |indices| => scrolls[indices[k]])
  }

  /** The list `recall(query, top_n)` returns: the stored scrolls themselves, not copies. */
  function RecallSpec(scrolls: seq<Scroll>, query: string, topN: int): seq<Scroll> {
    if scrolls == [] then [] else Select(scrolls, RecallPicks(scrolls, query, topN))
  }

  /**
   * `recall` returns `min(top_n, len(scrolls))` stored scrolls (Python's
   * `[:top_n]`), most relevant first, equally relevant ones in storage order.
   */
  lemma RecallRanked(scrolls: seq<Scroll>, query: string, topN: int, r: seq<Scroll>)
    requires r == RecallSpec(scrolls, query, topN)
    ensures |r| == PrefixLen(|scrolls|, topN)
    ensures forall k :: 0 <= k < |r| ==> r[k] == scrolls[RecallPicks(scrolls, query, topN)[k]]
    ensures forall k, l :: 0 <= k < l < |r| ==>
      || Relevance(query, r[k].essence) > Relevance(query, r[l].essence)
      || (Relevance(query, r[k].essence) == Relevance(query, r[l].essence)
          && RecallPicks(scrolls, query, topN)[k] < RecallPicks(scrolls, query, topN)[l])
  {
    var picks := RecallPicks(scrolls, query, topN);
    forall k, l | 0 <= k < l < |r|
      ensures || Relevance(query, r[k].essence) > Relevance(query, r[l].essence)
              || (Relevance(query, r[k].essence) == Relevance(query, r[l].essence) && picks[k] < picks[l])
    {
      assert Before(Relevances(scrolls, query), picks[k], picks[l]);
    }
  }

  /** A stored scroll not returned is no more relevant than any returned one, and on a tie was stored later. */
  lemma RecallBest(scrolls: seq<Scroll>, query: string, topN: int, r: seq<Scroll>, p: nat)
    requires r == RecallSpec(scrolls, query, topN)
    requires p < |scrolls| && p !in RecallPicks(scrolls, query, topN)
    ensures forall k :: 0 <= k < |r| ==>
      || Relevance(query, scrolls[p].essence) < Relevance(query, r[k].essence)
      || (Relevance(query, scrolls[p].essence) == Relevance(query, r[k].essence)
          && RecallPicks(scrolls, query, topN)[k] < p)
  {
    PrefixBeforeRest(Relevances(scrolls, query), topN, p);
  }

  /** Each essence text contributes at most the number of distinct query words. */
  lemma {:induction false} RelevanceBound(query: string, essence: seq<string>)
    ensures Relevance(query, essence) <= |essence| * |Words(query)|
  {
    if essence != [] {
      RelevanceBound(query, essence[..|essence| - 1]);
      var text := essence[|essence| - 1];
      var w := |Words(query)|;
      SubsetCard(Words(query) * Words(text), Words(query));
      assert Relevance(query, essence) <= (|essence| - 1) * w + w;
      assert (|essence| - 1) * w + w == |essence| * w;
    }
  }

  /** Relevance ignores the case of the query. */
  lemma RelevanceCaseless(query: string, essence: seq<string>)
    ensures Relevance(Lower(query), essence) == Relevance(query, essence)
  {
    LowerIdempotent(query);
    RelevanceSameWords(Lower(query), query, essence);
  }

  lemma {:induction false} RelevanceSameWords(q1: string, q2: string, essence: seq<string>)
    requires Words(q1) == Words(q2)
    ensures Relevance(q1, essence) == Relevance(q2, essence)
  {
    if essence != [] {
      RelevanceSameWords(q1, q2, essence[..|essence| - 1]);
    }
  }

  /** The relevance over one more essence text. */
  lemma RelevanceStep(query: string, essence: seq<string>, j: nat)
    requires j < |essence|
    ensures Relevance(query, essence[..j + 1]) == Relevance(query, essence[..j]) + Overlap(query, essence[j])
  {
    assert essence[..j + 1][..j] == essence[..j];
  }

  // ---------------------------------------------------------------------
  // The engine
  // ---------------------------------------------------------------------

  class MemoryEngine {
    var kModes: int
    var betaFocus: real
    var gammaDecay: real
    var capacity: real
    var scrolls: seq<Scroll>
    var codex: map<string, ThemeEntry>

    /** The codex indexes the stored scrolls by theme. */
    predicate Valid()
      reads this
    {
      Indexed(scrolls, codex)
    }

    constructor(kModes: int := 5, betaFocus: real := 2.0, gammaDecay: real := 0.1, capacity: real := 190000.0)
      ensures this.kModes == kModes && this.betaFocus == betaFocus
      ensures this.gammaDecay == gammaDecay && this.capacity == capacity
      ensures scrolls == [] && codex == map[]
      ensures Valid()
    {
      this.kModes := kModes;
      this.betaFocus := betaFocus;
      this.gammaDecay := gammaDecay;
      this.capacity := capacity;
      scrolls := [];
      codex := map[];
    }

    /** `importance_weight(text, context)`: the context is not used. */
    method ImportanceWeight(text: string, context: map<string, string>) returns (weight: real)
      ensures weight == MarkerWeight(text)
    {
      weight := 1.0;
      for i := 0 to |EMOTIONAL_MARKERS|
        invariant weight == 1.0 + 0.5 * |Found(text, EMOTIONAL_MARKERS[..i])| as real
      {
        FoundStep(text, EMOTIONAL_MARKERS, i);
        if Contains(Lower(text), Lower(EMOTIONAL_MARKERS[i])) {
          weight := weight + 0.5;
        }
      }
      assert EMOTIONAL_MARKERS[..|EMOTIONAL_MARKERS|] == EMOTIONAL_MARKERS;
      ghost var w1 := weight;
      for i := 0 to |MATH_MARKERS|
        invariant weight == w1 + 0.3 * |Found(text, MATH_MARKERS[..i])| as real
      {
        FoundStep(text, MATH_MARKERS, i);
        if Contains(Lower(text), Lower(MATH_MARKERS[i])) {
          weight := weight + 0.3;
        }
      }
      assert MATH_MARKERS[..|MATH_MARKERS|] == MATH_MARKERS;
      ghost var w2 := weight;
      for i := 0 to |RELATION_MARKERS|
        invariant weight == w2 + 0.4 * |Found(text, RELATION_MARKERS[..i])| as real
      {
        FoundStep(text, RELATION_MARKERS, i);
        if Contains(Lower(text), Lower(RELATION_MARKERS[i])) {
          weight := weight + 0.4;
        }
      }
      assert RELATION_MARKERS[..|RELATION_MARKERS|] == RELATION_MARKERS;
      ghost var w3 := weight;
      for i := 0 to |INSIGHT_MARKERS|
        invariant weight == w3 + 0.6 * |Found(text, INSIGHT_MARKERS[..i])| as real
      {
        FoundStep(text, INSIGHT_MARKERS, i);
        if Contains(Lower(text), Lower(INSIGHT_MARKERS[i])) {
          weight := weight + 0.6;
        }
      }
      assert INSIGHT_MARKERS[..|INSIGHT_MARKERS|] == INSIGHT_MARKERS;
    }

    /** The loop of `compress_to_scroll` that builds `weighted_elements` and sums `total_weight`. */
    method WeighSegment(conversationSegment: seq<string>, context: map<string, string>)
      returns (weightedElements: seq<WeightedElement>, totalWeight: real)
      ensures weightedElements == Weighed(conversationSegment)
      ensures totalWeight == Sum(Weights(conversationSegment))
    {
      weightedElements := [];
      totalWeight := 0.0;
      for i := 0 to |conversationSegment|
        invariant weightedElements == Weighed(conversationSegment[..i])
        invariant totalWeight == Sum(Weights(conversationSegment[..i]))
      {
        var message := conversationSegment[i];
        var weight := ImportanceWeight(message, context);
        WeighedStep(conversationSegment, i);
        weightedElements := weightedElements + [WeightedElement(PyPrefix(message, 500), weight, |message|)];
        WeightsStep(conversationSegment, i);
        totalWeight := totalWeight + weight;
      }
      assert conversationSegment[..|conversationSegment|] == conversationSegment;
    }

    /** `compress_to_scroll(conversation_segment, timestamp, context)`; the engine is not changed. */
    method CompressToScroll(conversationSegment: seq<string>, timestamp: string, context: map<string, string>)
      returns (r: Result<Scroll, PyError>)
      ensures r == CompressSpec(kModes, conversationSegment, timestamp, context)
    {
      var weightedElements, totalWeight := WeighSegment(conversationSegment, context);
      var order := RankDesc(WeightKeys(weightedElements));
      assert forall j :: 0 <= j < |order| ==> order[j] in order;
      var sortedElements := Arranged(weightedElements, order);
      var topK := PyPrefix(sortedElements, kModes);
      if kModes == 0 {
        return Failure(ZeroDivisionError);
      }
      var essence := Texts(topK);
      var weights := WeightKeys(topK);
      r := Success(Scroll(timestamp, essence, weights, totalWeight, |conversationSegment| as real / kModes as real, context));
    }

    /** `update_codex(new_scroll)`: stores the scroll and records it under its theme. */
    method UpdateCodex(newScroll: Scroll)
      modifies this`scrolls, this`codex
      ensures scrolls == old(scrolls) + [newScroll]
      ensures codex == AddToCodex(old(codex), |old(scrolls)|, newScroll)
      ensures old(Valid()) ==> Valid()
    {
      scrolls := scrolls + [newScroll];
      var contextKey := if "theme" in newScroll.context then newScroll.context["theme"] else "general";
      var entry := if contextKey in codex then codex[contextKey] else ThemeEntry([], 0.0, newScroll.timestamp);
      entry := entry.(scrolls := entry.scrolls + [|scrolls| - 1]);
      entry := entry.(cumulativeImportance := entry.cumulativeImportance + newScroll.totalImportance);
      entry := entry.(lastAccessed := newScroll.timestamp);
      assert contextKey == ThemeOf(newScroll);
      assert entry == AddToCodex(old(codex), |old(scrolls)|, newScroll)[contextKey];
      codex := codex[contextKey := entry];
      assert codex == AddToCodex(old(codex), |old(scrolls)|, newScroll);
      if old(Valid()) {
        AddKeepsIndexed(old(scrolls), old(codex), newScroll);
      }
    }

    /** The inner loop of `recall`: the relevance of one stored scroll. */
    method EssenceRelevance(query: string, essence: seq<string>) returns (relevance: nat)
      ensures relevance == Relevance(query, essence)
    {
      relevance := 0;
      var queryWords := Elements(Split(Lower(query)));
      for j := 0 to |essence|
        invariant relevance == Relevance(query, essence[..j])
      {
        RelevanceStep(query, essence, j);
        var essenceWords := Elements(Split(Lower(essence[j])));
        var overlap := |queryWords * essenceWords|;
        relevance := relevance + overlap;
      }
      assert essence[..|essence|] == essence;
    }

    /** `recall(query, top_n)`: the most relevant stored scrolls; nothing is changed. */
    method Recall(query: string, topN: int := 3) returns (results: seq<Scroll>)
      ensures results == RecallSpec(scrolls, query, topN)
      ensures |results| == PrefixLen(|scrolls|, topN)
    {
      if scrolls == [] {
        return [];
      }
      var relevances: seq<real> := [];
      for i := 0 to |scrolls|
        invariant |relevances| == i
        invariant forall k :: 0 <= k < i ==> relevances[k] == Relevance(query, scrolls[k].essence) as real
      {
        var relevance := EssenceRelevance(query, scrolls[i].essence);
        relevances := relevances + [relevance as real];
      }
      assert relevances == Relevances(scrolls, query);
      var order := RankDesc(relevances);
      var topIndices := PyPrefix(order, topN);
      assert topIndices == RecallPicks(scrolls, query, topN);
      results := Select(scrolls, topIndices);
    }
  }
}
