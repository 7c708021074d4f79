/**
 * `MemoryEngine` of engine version 2: compressing a conversation segment into
 * a scroll (essence selection, retained statistics, quality score, sacred
 * tokens, document-frequency bookkeeping), storing scrolls in the codex, and
 * TF-IDF recall with temporal decay and a theme boost.
 *
 * The tokenizer, ISO-timestamp parsing, `math.exp` and `math.log` are not
 * modelled; they are the fields of `Env` and are only applied, never
 * inspected.
 */
module EngineV2 {
  import opened Common
  import opened Ranking
  import opened Scoring
  import opened Essence

  /**
   * The engine's collaborators: `SymbolicTokenizer.tokenize`,
   * `datetime.fromisoformat` as seconds on a common time line (`None` where it
   * raises), `math.exp` and `math.log`.
   */
  datatype Env = Env(
    tokenize: string -> seq<string>,
    parseIso: string -> Option<real>,
    exp: real -> real,
    ln: real -> real)

  /** The constructor arguments `k_modes`, `beta_focus`, `gamma_decay` and `theme_boost`. */
  datatype Config = Config(kModes: int, betaFocus: real, gammaDecay: real, themeBoost: real)

  /** The keys `update_codex` writes into a scroll: `id`, `access_count` and `last_accessed`. */
  datatype Access = Access(id: nat, accessCount: nat, lastAccessed: string)

  /** A scroll; `access` is `None` until the scroll is stored in the codex. */
  datatype Scroll = Scroll(
    essence: seq<string>,
    timestamp: string,
    context: map<string, string>,
    themes: seq<string>,
    tcs: Tcs,
    tokens: seq<string>,
    sacredPreserved: set<string>,
    originalMessageCount: nat,
    compressedMessageCount: nat,
    access: Option<Access>)

  /** The `_recall_meta` entry attached to every recalled copy. */
  datatype RecallMeta = RecallMeta(
    relevanceScore: real,
    tfIdf: real,
    temporalDecay: real,
    themeMatched: bool,
    attention: real)

  datatype Recalled = Recalled(scroll: Scroll, meta: RecallMeta)

  // ---------------------------------------------------------------------
  // Document frequency
  // ---------------------------------------------------------------------

  /** `df_index.get(t, 0)`; the index is a `defaultdict(int)`. */
  function Get(df: map<string, nat>, t: string): nat {
    if t in df then df[t] else 0
  }

  /** In how many of the recorded compressions `t` was a retained token. */
  function Occurrences(history: seq<set<string>>, t: string): nat {
    if history == [] then 0
    else Occurrences(history[..|history| - 1], t) + (if t in history[|history| - 1] then 1 else 0)
  }

  /**
   * The document frequency of a token is the number of compressions that
   * retained it, however often it was repeated: adding one for each member of
   * a retained-token set keeps that count exact.
   */
  lemma {:induction false} OccurrencesAppend(history: seq<set<string>>, terms: set<string>, t: string)
    ensures Occurrences(history + [terms], t) == Occurrences(history, t) + (if t in terms then 1 else 0)
  {
    assert (history + [terms])[..|history|] == history;
  }

  // ---------------------------------------------------------------------
  // compress_to_scroll
  // ---------------------------------------------------------------------

  /** One entry of `message_data`: a message with its tokens, importance and length. */
  datatype MessageData = MessageData(text: string, tokens: seq<string>, importance: real, charCount: nat)

  function Analyze(tokenize: string -> seq<string>, msg: string): MessageData {
    var tokens := tokenize(msg);
    MessageData(msg, tokens, CalculateImportance(msg, tokens), |msg|)
  }

  function AnalyzeAll(tokenize: string -> seq<string>, messages: seq<string>): (r: seq<MessageData>)
    ensures |r| == |messages|
  {
    seq(|messages|, i requires 0 <= i < |messages| => Analyze(tokenize, messages[i]))
  }

  function TokenLists(data: seq<MessageData>): (r: seq<seq<string>>)
    ensures |r| == |data|
  {
    seq(|data|, i requires 0 <= i < |data| => data[i].tokens)
  }

  function Importances(data: seq<MessageData>): (r: seq<real>)
    ensures |r| == |data|
  {
    seq(|data|, i requires 0 <= i < |data| => data[i].importance)
  }

  function CharCounts(data: seq<MessageData>): (r: seq<nat>)
    ensures |r| == |data|
  {
    seq(|data|, i requires 0 <= i < |data| => data[i].charCount)
  }

  /** The context after `compress_to_scroll`: an existing `theme` is kept, otherwise it becomes the first detected theme. */
  function ScrollContext(context: Option<map<string, string>>, themes: seq<string>): map<string, string>
    requires |themes| > 0
  {
    var ctx := if context.Some? then context.value else map[];
    if "theme" in ctx then ctx else ctx["theme" := themes[0]]
  }

  /** `[messages[i] for i in sorted(essence_indices)]` */
  function EssenceOf(messages: seq<string>, importances: seq<real>, kModes: int): seq<string>
    requires |importances| == |messages|
  {
    var order := EssenceIndices(importances, kModes);
    seq(|order|, k requires 0 <= k < |order| => messages[order[k]])
  }

  /** The quality score of keeping `kept` out of the analysed messages. */
  function TcsOf(data: seq<MessageData>, kept: set<nat>): Tcs {
    var n := |data|;
    CalculateTcs(
      Sum(Importances(data)), SumIn(Importances(data), kept, n),
      NatSum(CharCounts(data)), NatSumIn(CharCounts(data), kept, n),
      |Elements(Flatten(TokenLists(data)))|, |Elements(FlattenIn(TokenLists(data), kept, n))|)
  }

  /** The scroll `compress_to_scroll(messages, timestamp, context)` returns. */
  function ScrollFor(
    tokenize: string -> seq<string>, kModes: int,
    messages: seq<string>, timestamp: string, context: Option<map<string, string>>): Scroll
  {
    var data := AnalyzeAll(tokenize, messages);
    var themes := DetectThemes(Flatten(TokenLists(data)));
    var kept := EssenceSet(Importances(data), kModes);
    var retained := FlattenIn(TokenLists(data), kept, |data|);
    var essence := EssenceOf(messages, Importances(data), kModes);
    Scroll(essence, timestamp, ScrollContext(context, themes), themes, TcsOf(data, kept), retained,
           Elements(retained) * SACRED_TERMS, |messages|, |essence|, None)
  }

  /**
   * The per-message loop of `compress_to_scroll`: tokenize and weigh every
   * message, concatenate the tokens and total the importances and lengths.
   */
  method AnalyzeMessages(tokenize: string -> seq<string>, messages: seq<string>)
    returns (messageData: seq<MessageData>, allTokens: seq<string>, totalImportance: real, totalChars: nat)
    ensures messageData == AnalyzeAll(tokenize, messages)
    ensures allTokens == Flatten(TokenLists(messageData))
    ensures totalImportance == Sum(Importances(messageData))
    ensures totalChars == NatSum(CharCounts(messageData))
  {
    messageData, allTokens, totalImportance, totalChars := [], [], 0.0, 0;
    for i := 0 to |messages|
      invariant messageData == AnalyzeAll(tokenize, messages[..i])
      invariant allTokens == Flatten(TokenLists(messageData))
      invariant totalImportance == Sum(Importances(messageData))
      invariant totalChars == NatSum(CharCounts(messageData))
    {
      var msg := messages[i];
      var tokens := tokenize(msg);
      var importance := CalculateImportance(msg, tokens);
      var entry := MessageData(msg, tokens, importance, |msg|);
      AnalyzeStep(tokenize, messages, i, messageData, entry);
      messageData := messageData + [entry];
      allTokens := allTokens + tokens;
      totalImportance := totalImportance + importance;
      totalChars := totalChars + |msg|;
    }
    assert messages[..|messages|] == messages;
  }

  /** Appending one analysed message extends each projection by that message's part. */
  lemma AnalyzeStep(tokenize: string -> seq<string>, messages: seq<string>, i: nat, data: seq<MessageData>, entry: MessageData)
    requires i < |messages| && data == AnalyzeAll(tokenize, messages[..i])
    requires entry == Analyze(tokenize, messages[i])
    ensures data + [entry] == AnalyzeAll(tokenize, messages[..i + 1])
    ensures TokenLists(data + [entry]) == TokenLists(data) + [entry.tokens]
    ensures Importances(data + [entry]) == Importances(data) + [entry.importance]
    ensures CharCounts(data + [entry]) == CharCounts(data) + [entry.charCount]
  {
    assert (TokenLists(data) + [entry.tokens])[..i] == TokenLists(data);
  }

  /**
   * The sums over the kept messages: retained importance, retained characters
   * and the retained tokens, visiting the kept indices in increasing order.
   */
  method RetainedSums(messageData: seq<MessageData>, essenceIndices: set<nat>)
    returns (retainedImportance: real, retainedChars: nat, retainedTokens: seq<string>)
    ensures retainedImportance == SumIn(Importances(messageData), essenceIndices, |messageData|)
    ensures retainedChars == NatSumIn(CharCounts(messageData), essenceIndices, |messageData|)
    ensures retainedTokens == FlattenIn(TokenLists(messageData), essenceIndices, |messageData|)
  {
    retainedImportance, retainedChars, retainedTokens := 0.0, 0, [];
    for i := 0 to |messageData|
      invariant retainedImportance == SumIn(Importances(messageData), essenceIndices, i)
      invariant retainedChars == NatSumIn(CharCounts(messageData), essenceIndices, i)
      invariant retainedTokens == FlattenIn(TokenLists(messageData), essenceIndices, i)
    {
      if i in essenceIndices {
        retainedImportance := retainedImportance + messageData[i].importance;
        retainedChars := retainedChars + messageData[i].charCount;
        retainedTokens := retainedTokens + messageData[i].tokens;
      } else {
        assert retainedTokens + [] == retainedTokens;
      }
    }
  }

  // ---------------------------------------------------------------------
  // Properties of compress_to_scroll
  // ---------------------------------------------------------------------

  /**
   * The essence keeps document order, always holds the first and the last
   * message, and has `min(n, max(k_modes, a + 1))` messages for `a = min(n, 2)`
   * anchors.
   */
  lemma EssenceOfFacts(messages: seq<string>, importances: seq<real>, kModes: int)
    requires |importances| == |messages|
    ensures var e, n := EssenceOf(messages, importances, kModes), |messages|;
      && |e| == Min(n, Max(kModes, Min(n, 2) + 1))
      && (n > 0 ==> e[0] == messages[0])
      && (n > 1 ==> e[|e| - 1] == messages[n - 1])
      && IsEssenceOrder(EssenceIndices(importances, kModes), n, e, messages)
  {
    EssenceOfOrder(messages, importances, kModes);
    EssenceOfSize(messages, importances, kModes);
    EssenceOfEnds(messages, importances, kModes);
  }

  lemma EssenceOfOrder(messages: seq<string>, importances: seq<real>, kModes: int)
    requires |importances| == |messages|
    ensures IsEssenceOrder(EssenceIndices(importances, kModes), |messages|, EssenceOf(messages, importances, kModes), messages)
  {
  }

  lemma EssenceOfSize(messages: seq<string>, importances: seq<real>, kModes: int)
    requires |importances| == |messages|
    ensures var n := |messages|;
      |EssenceOf(messages, importances, kModes)| == Min(n, Max(kModes, Min(n, 2) + 1))
  {
    EssenceSize(importances, kModes);
  }

  lemma EssenceOfEnds(messages: seq<string>, importances: seq<real>, kModes: int)
    requires |importances| == |messages|
    ensures var e, n := EssenceOf(messages, importances, kModes), |messages|;
      && (n > 0 ==> e[0] == messages[0])
      && (n > 1 ==> e[|e| - 1] == messages[n - 1])
  {
    var order := EssenceIndices(importances, kModes);
    EssenceAnchors(importances, kModes);
    IncreasingEnds(order, |messages|);
  }

  /** In a strictly increasing list of positions below `n`, position 0 can only come first and `n - 1` only last. */
  lemma IncreasingEnds(order: seq<nat>, n: nat)
    requires forall k :: 0 <= k < |order| ==> order[k] < n
    requires forall k, l :: 0 <= k < l < |order| ==> order[k] < order[l]
    ensures 0 in order ==> order[0] == 0
    ensures n - 1 in order ==> order[|order| - 1] == n - 1
  {
    forall k | 0 < k < |order|
      ensures order[k] != 0
    {
      assert order[0] < order[k];
    }
    forall k | 0 <= k < |order| - 1
      ensures order[k] != n - 1
    {
      assert order[k] < order[|order| - 1];
    }
  }

  /** The scroll's essence and message counts, as `EssenceOfFacts` states them. */
  lemma ScrollEssence(
    tokenize: string -> seq<string>, kModes: int,
    messages: seq<string>, timestamp: string, context: Option<map<string, string>>)
    ensures var s, n := ScrollFor(tokenize, kModes, messages, timestamp, context), |messages|;
      && s.originalMessageCount == n
      && s.compressedMessageCount == |s.essence| == Min(n, Max(kModes, Min(n, 2) + 1))
      && (n > 0 ==> s.essence[0] == messages[0])
      && (n > 1 ==> s.essence[|s.essence| - 1] == messages[n - 1])
      && (exists idx: seq<nat> :: IsEssenceOrder(idx, n, s.essence, messages))
  {
    var importances := Importances(AnalyzeAll(tokenize, messages));
    EssenceOfFacts(messages, importances, kModes);
    assert IsEssenceOrder(EssenceIndices(importances, kModes), |messages|, EssenceOf(messages, importances, kModes), messages);
  }

  /** `essence` lists `messages` at the strictly increasing positions `idx`. */
  predicate IsEssenceOrder(idx: seq<nat>, n: nat, essence: seq<string>, messages: seq<string>) {
    && |idx| == |essence|
    && n == |messages|
    && (forall k :: 0 <= k < |idx| ==> idx[k] < n && essence[k] == messages[idx[k]])
    && (forall k, l :: 0 <= k < l < |idx| ==> idx[k] < idx[l])
  }

  /** An existing `context['theme']` is kept; otherwise it becomes the first detected theme. No other key changes. */
  lemma ScrollTheme(
    tokenize: string -> seq<string>, kModes: int,
    messages: seq<string>, timestamp: string, context: Option<map<string, string>>)
    ensures var s, ctx := ScrollFor(tokenize, kModes, messages, timestamp, context),
                          if context.Some? then context.value else map[];
      && "theme" in s.context
      && s.context["theme"] == (if "theme" in ctx then ctx["theme"] else s.themes[0])
      && s.themes == DetectThemes(Flatten(TokenLists(AnalyzeAll(tokenize, messages))))
      && (forall key :: key != "theme" ==> (key in s.context <==> key in ctx))
      && (forall key :: key != "theme" && key in ctx ==> s.context[key] == ctx[key])
  {
    var themes := DetectThemes(Flatten(TokenLists(AnalyzeAll(tokenize, messages))));
    ContextTheme(context, themes);
  }

  /** The theme rule of `ScrollContext`, key by key. */
  lemma ContextTheme(context: Option<map<string, string>>, themes: seq<string>)
    requires |themes| > 0
    ensures var c, ctx := ScrollContext(context, themes), if context.Some? then context.value else map[];
      && "theme" in c
      && c["theme"] == (if "theme" in ctx then ctx["theme"] else themes[0])
      && (forall key :: key != "theme" ==> (key in c <==> key in ctx))
      && (forall key :: key != "theme" && key in ctx ==> c[key] == ctx[key])
  {
  }

  /** The retained tokens are exactly the tokens of the kept messages. */
  lemma ScrollTokens(
    tokenize: string -> seq<string>, kModes: int,
    messages: seq<string>, timestamp: string, context: Option<map<string, string>>)
    ensures var kept := EssenceSet(Importances(AnalyzeAll(tokenize, messages)), kModes);
      forall t :: t in ScrollFor(tokenize, kModes, messages, timestamp, context).tokens <==>
        exists i :: 0 <= i < |messages| && i in kept && t in tokenize(messages[i])
  {
    var data := AnalyzeAll(tokenize, messages);
    KeptTokens(tokenize, messages, EssenceSet(Importances(data), kModes));
  }

  /** The tokens of the analysed messages at the kept positions are the tokens of those messages. */
  lemma KeptTokens(tokenize: string -> seq<string>, messages: seq<string>, kept: set<nat>)
    ensures forall t :: t in FlattenIn(TokenLists(AnalyzeAll(tokenize, messages)), kept, |messages|) <==>
      exists i :: 0 <= i < |messages| && i in kept && t in tokenize(messages[i])
  {
    var tokens := TokenLists(AnalyzeAll(tokenize, messages));
    FlattenInMembers(tokens, kept, |messages|);
    assert forall i :: 0 <= i < |messages| ==> tokens[i] == tokenize(messages[i]);
  }

  /** Every retained token is a token of the segment. */
  lemma ScrollTokensSubset(
    tokenize: string -> seq<string>, kModes: int,
    messages: seq<string>, timestamp: string, context: Option<map<string, string>>)
    ensures Elements(ScrollFor(tokenize, kModes, messages, timestamp, context).tokens)
         <= Elements(Flatten(TokenLists(AnalyzeAll(tokenize, messages))))
  {
    var data := AnalyzeAll(tokenize, messages);
    var kept := EssenceSet(Importances(data), kModes);
    FlattenInSubset(TokenLists(data), kept, |messages|);
    assert TokenLists(data)[..|messages|] == TokenLists(data);
  }

  /** The sacred tokens of a scroll are its retained tokens that are sacred terms. */
  lemma ScrollSacred(
    tokenize: string -> seq<string>, kModes: int,
    messages: seq<string>, timestamp: string, context: Option<map<string, string>>)
    ensures var s := ScrollFor(tokenize, kModes, messages, timestamp, context);
      forall t :: t in s.sacredPreserved <==> t in s.tokens && t in SACRED_TERMS
  {
  }

  /** A token is among the kept tokens exactly when some kept message has it. */
  lemma {:induction false} FlattenInMembers(tokens: seq<seq<string>>, kept: set<nat>, n: nat)
    requires n <= |tokens|
    ensures forall t :: t in FlattenIn(tokens, kept, n) <==> exists i :: 0 <= i < n && i in kept && t in tokens[i]
  {
    if n > 0 {
      FlattenInMembers(tokens, kept, n - 1);
    }
  }

  /** For every scroll `compress_to_scroll` builds, each quality component and the score lie in [0, 1]. */
  lemma ScrollTcsInUnit(
    tokenize: string -> seq<string>, kModes: int,
    messages: seq<string>, timestamp: string, context: Option<map<string, string>>)
    ensures var r := ScrollFor(tokenize, kModes, messages, timestamp, context).tcs;
      && 0.0 <= r.importanceRetention <= 1.0
      && 0.0 <= r.compressionEfficiency <= 1.0
      && 0.0 <= r.termRichness <= 1.0
      && 0.0 <= r.score <= 1.0
  {
    var data := AnalyzeAll(tokenize, messages);
    assert forall i :: 0 <= i < |data| ==> data[i] == Analyze(tokenize, messages[i]);
    TcsOfInUnit(data, EssenceSet(Importances(data), kModes));
  }

  /** Keeping any subset of the analysed messages gives components and a score in [0, 1]. */
  lemma TcsOfInUnit(data: seq<MessageData>, kept: set<nat>)
    requires forall i :: 0 <= i < |data| ==> 0.0 <= data[i].importance
    ensures var r := TcsOf(data, kept);
      && 0.0 <= r.importanceRetention <= 1.0
      && 0.0 <= r.compressionEfficiency <= 1.0
      && 0.0 <= r.termRichness <= 1.0
      && 0.0 <= r.score <= 1.0
  {
    var n := |data|;
    var importances := Importances(data);
    var chars := CharCounts(data);
    var tokens := TokenLists(data);
    assert forall i :: 0 <= i < n ==> importances[i] == data[i].importance;
    SumInBounds(importances, kept, n);
    NatSumInBound(chars, kept, n);
    FlattenInSubset(tokens, kept, n);
    assert importances[..n] == importances && chars[..n] == chars && tokens[..n] == tokens;
    SubsetCard(Elements(FlattenIn(tokens, kept, n)), Elements(Flatten(tokens)));
    TcsInUnitRange(
      Sum(importances), SumIn(importances, kept, n),
      NatSum(chars), NatSumIn(chars, kept, n),
      |Elements(Flatten(tokens))|, |Elements(FlattenIn(tokens, kept, n))|);
  }

  // ---------------------------------------------------------------------
  // recall
  // ---------------------------------------------------------------------

  /** `Counter(tokens)[t]`: how often `t` occurs in `tokens`. */
  function Count(tokens: seq<string>, t: string): (c: nat)
    ensures c <= |tokens|
    ensures c > 0 <==> t in tokens
  {
    if tokens == [] then 0
    else
      var init := tokens[..|tokens| - 1];
      assert tokens == init + [tokens[|tokens| - 1]];
      Count(init, t) + (if tokens[|tokens| - 1] == t then 1 else 0)
  }

  /** `_time_delta_days`: days between two timestamps, `0.0` when either does not parse. */
  function TimeDeltaDays(parseIso: string -> Option<real>, time1: string, time2: string): (d: real)
    ensures d >= 0.0
    ensures parseIso(time1).None? || parseIso(time2).None? ==> d == 0.0
  {
    var t1, t2 := parseIso(time1), parseIso(time2);
    if t1.Some? && t2.Some? then
      var days := (t2.value - t1.value) / 86400.0;
      if days < 0.0 then -days else days
    else 0.0
  }

  /** The time delta does not depend on the order of its arguments, and a parsable time is zero days from itself. */
  lemma TimeDeltaSymmetric(parseIso: string -> Option<real>, time1: string, time2: string)
    ensures TimeDeltaDays(parseIso, time1, time2) == TimeDeltaDays(parseIso, time2, time1)
    ensures TimeDeltaDays(parseIso, time1, time1) == 0.0
  {
  }

  /** The temporal decay factor `math.exp(-gamma_decay * time_delta)`. */
  function Decay(exp: real -> real, gammaDecay: real, timeDelta: real): real {
    exp(-gammaDecay * timeDelta)
  }

  /** `math.log((total_docs + 1) / (df + 1))` for a token with a positive document frequency, `0.0` otherwise. */
  function Idf(ln: real -> real, totalDocs: nat, df: nat): real {
    if df > 0 then ln((totalDocs + 1) as real / (df + 1) as real) else 0.0
  }

  /** What one query token adds to a scroll's TF-IDF score. */
  function TermScore(ln: real -> real, df: map<string, nat>, totalDocs: nat, scrollTokens: seq<string>, token: string): real {
    if token in scrollTokens then
      (Count(scrollTokens, token) as real / |scrollTokens| as real) * Idf(ln, totalDocs, Get(df, token))
    else 0.0
  }

  /** The TF-IDF score of a scroll: the contributions of the query tokens, a repeated query token counting again. */
  function TfIdf(ln: real -> real, df: map<string, nat>, totalDocs: nat, scrollTokens: seq<string>, query: seq<string>): real {
    if query == [] then 0.0
    else TfIdf(ln, df, totalDocs, scrollTokens, query[..|query| - 1])
         + TermScore(ln, df, totalDocs, scrollTokens, query[|query| - 1])
  }

  /** A query token the scroll lacks, or one no compression retained, contributes nothing. */
  lemma TermScoreZero(ln: real -> real, df: map<string, nat>, totalDocs: nat, scrollTokens: seq<string>, token: string)
    requires token !in scrollTokens || Get(df, token) == 0
    ensures TermScore(ln, df, totalDocs, scrollTokens, token) == 0.0
  {
  }

  /** The score of a split query is the sum of the scores of its parts, so the query's order does not matter. */
  lemma {:induction false} TfIdfAppend(ln: real -> real, df: map<string, nat>, totalDocs: nat, scrollTokens: seq<string>, q1: seq<string>, q2: seq<string>)
    ensures TfIdf(ln, df, totalDocs, scrollTokens, q1 + q2)
         == TfIdf(ln, df, totalDocs, scrollTokens, q1) + TfIdf(ln, df, totalDocs, scrollTokens, q2)
    decreases |q2|
  {
    if q2 == [] {
      assert q1 + q2 == q1;
    } else {
      TfIdfAppend(ln, df, totalDocs, scrollTokens, q1, q2[..|q2| - 1]);
      assert (q1 + q2)[..|q1 + q2| - 1] == q1 + q2[..|q2| - 1];
    }
  }

  /** A scroll sharing no counted token with the query scores zero. */
  lemma {:induction false} TfIdfUnmatched(ln: real -> real, df: map<string, nat>, totalDocs: nat, scrollTokens: seq<string>, query: seq<string>)
    requires forall t :: t in query ==> t !in scrollTokens || Get(df, t) == 0
    ensures TfIdf(ln, df, totalDocs, scrollTokens, query) == 0.0
  {
    if query != [] {
      assert forall t :: t in query[..|query| - 1] ==> t in query;
      TfIdfUnmatched(ln, df, totalDocs, scrollTokens, query[..|query| - 1]);
      TermScoreZero(ln, df, totalDocs, scrollTokens, query[|query| - 1]);
    }
  }

  /** `math.exp(beta_focus * s)` for every score. */
  function Exps(exp: real -> real, betaFocus: real, scores: seq<real>): (r: seq<real>)
    ensures |r| == |scores|
  {
    seq(|scores|, i requires 0 <= i < |scores| => exp(betaFocus * scores[i]))
  }

  /** `_apply_attention`: the softmax weight of `score` among `allScores`, `0.0` for no scores or a zero total. */
  function Attention(exp: real -> real, betaFocus: real, score: real, allScores: seq<real>): real {
    if allScores == [] then 0.0
    else
      var total := Sum(Exps(exp, betaFocus, allScores));
      if total == 0.0 then 0.0 else exp(betaFocus * score) / total
  }

  /** Dividing every value by `c` divides the sum by `c`. */
  lemma {:induction false} SumScaled(vals: seq<real>, c: real)
    requires c != 0.0
    ensures Sum(seq(|vals|, i requires 0 <= i < |vals| => vals[i] / c)) == Sum(vals) / c
  {
    var scaled := seq(|vals|, i requires 0 <= i < |vals| => vals[i] / c);
    if vals != [] {
      var init := vals[..|vals| - 1];
      SumScaled(init, c);
      assert scaled[..|scaled| - 1] == seq(|init|, i requires 0 <= i < |init| => init[i] / c);
    }
  }

  /** The attention weights of all scored scrolls add up to one whenever the softmax total is not zero. */
  lemma AttentionSumsToOne(exp: real -> real, betaFocus: real, scores: seq<real>)
    requires scores != [] && Sum(Exps(exp, betaFocus, scores)) != 0.0
    ensures Sum(seq(|scores|, i requires 0 <= i < |scores| => Attention(exp, betaFocus, scores[i], scores))) == 1.0
  {
    var e := Exps(exp, betaFocus, scores);
    var total := Sum(e);
    SumScaled(e, total);
    assert total / total == 1.0;
    assert seq(|scores|, i requires 0 <= i < |scores| => Attention(exp, betaFocus, scores[i], scores))
        == seq(|e|, i requires 0 <= i < |e| => e[i] / total);
  }

  /** What `recall` derives from its arguments before scoring: the query tokens and themes, the theme filter, the current time and the codex size. */
  datatype Query = Query(tokens: seq<string>, themes: seq<string>, filter: Option<string>, now: string, totalDocs: nat)

  /** One entry of `scroll_scores`. */
  datatype Scored = Scored(scroll: Scroll, score: real, tfIdf: real, decay: real, themeMatch: bool)

  /** The theme filter skips a scroll: the filter is a non-empty string the scroll's themes lack. */
  predicate Excluded(filter: Option<string>, s: Scroll) {
    filter.Some? && filter.value != "" && filter.value !in s.themes
  }

  /** Some theme of the query is a theme of the scroll. */
  predicate ThemeMatch(queryThemes: seq<string>, themes: seq<string>) {
    exists k :: 0 <= k < |queryThemes| && queryThemes[k] in themes
  }

  /** A relevance score: TF-IDF times temporal decay, raised by the theme boost when a query theme matched. */
  function Relevance(config: Config, tfIdf: real, decay: real, matched: bool): real {
    tfIdf * decay * (if matched then 1.0 + config.themeBoost else 1.0)
  }

  /** The score of one stored scroll: TF-IDF times temporal decay times the theme multiplier. */
  function ScoreOf(env: Env, config: Config, df: map<string, nat>, q: Query, s: Scroll): (r: Scored)
    requires s.access.Some?
    ensures r.scroll == s
  {
    var tfIdf := TfIdf(env.ln, df, q.totalDocs, s.tokens, q.tokens);
    var decay := Decay(env.exp, config.gammaDecay, TimeDeltaDays(env.parseIso, s.access.value.lastAccessed, q.now));
    var matched := ThemeMatch(q.themes, s.themes);
    Scored(s, Relevance(config, tfIdf, decay, matched), tfIdf, decay, matched)
  }

  /** The positions among the first `n` stored scrolls that the theme filter lets through, in codex order. */
  function Eligible(filter: Option<string>, codex: seq<Scroll>, n: nat): (r: seq<nat>)
    requires n <= |codex|
  {
    if n == 0 then [] else Eligible(filter, codex, n - 1) + (if Excluded(filter, codex[n - 1]) then [] else [n - 1])
  }

  /** Every eligible position is a scroll the filter lets through. */
  lemma {:induction false} EligibleAdmitted(filter: Option<string>, codex: seq<Scroll>, n: nat)
    requires n <= |codex|
    ensures forall k :: 0 <= k < |Eligible(filter, codex, n)| ==>
      Eligible(filter, codex, n)[k] < n && !Excluded(filter, codex[Eligible(filter, codex, n)[k]])
  {
    if n > 0 {
      EligibleAdmitted(filter, codex, n - 1);
      var init, r := Eligible(filter, codex, n - 1), Eligible(filter, codex, n);
      assert r == init + (if Excluded(filter, codex[n - 1]) then [] else [n - 1]);
      forall k | 0 <= k < |r|
        ensures r[k] < n && !Excluded(filter, codex[r[k]])
      {
        if k < |init| {
          assert r[k] == init[k];
        }
      }
    }
  }

  /** Every scroll the filter lets through is eligible. */
  lemma {:induction false} EligibleComplete(filter: Option<string>, codex: seq<Scroll>, n: nat)
    requires n <= |codex|
    ensures forall i :: 0 <= i < n && !Excluded(filter, codex[i]) ==> i in Eligible(filter, codex, n)
  {
    if n > 0 {
      EligibleComplete(filter, codex, n - 1);
      var init := Eligible(filter, codex, n - 1);
      assert forall i :: i in init ==> i in Eligible(filter, codex, n);
    }
  }

  /** The eligible positions are listed in increasing order. */
  lemma {:induction false} EligibleIncreasing(filter: Option<string>, codex: seq<Scroll>, n: nat)
    requires n <= |codex|
    ensures forall k, l :: 0 <= k < l < |Eligible(filter, codex, n)| ==>
      Eligible(filter, codex, n)[k] < Eligible(filter, codex, n)[l]
  {
    if n > 0 {
      EligibleIncreasing(filter, codex, n - 1);
      EligibleAdmitted(filter, codex, n - 1);
      var init, r := Eligible(filter, codex, n - 1), Eligible(filter, codex, n);
      assert r == init + (if Excluded(filter, codex[n - 1]) then [] else [n - 1]);
      forall k, l | 0 <= k < l < |r|
        ensures r[k] < r[l]
      {
        assert r[k] == init[k];
        if l < |init| {
          assert r[l] == init[l];
        }
      }
    }
  }

  /** `scroll_scores` after the first `n` stored scrolls. */
  function ScoreUpTo(env: Env, config: Config, df: map<string, nat>, q: Query, codex: seq<Scroll>, n: nat): (r: seq<Scored>)
    requires n <= |codex| && Stamped(codex)
    ensures forall k :: 0 <= k < |r| ==> r[k].scroll.access.Some?
  {
    if n == 0 then []
    else
      ScoreUpTo(env, config, df, q, codex, n - 1)
      + (if Excluded(q.filter, codex[n - 1]) then [] else [ScoreOf(env, config, df, q, codex[n - 1])])
  }

  /** Entry `k` of `scroll_scores` scores the `k`-th scroll the filter lets through. */
  lemma {:induction false} ScoreUpToEligible(env: Env, config: Config, df: map<string, nat>, q: Query, codex: seq<Scroll>, n: nat)
    requires n <= |codex| && Stamped(codex)
    ensures |ScoreUpTo(env, config, df, q, codex, n)| == |Eligible(q.filter, codex, n)|
    ensures forall k :: 0 <= k < |Eligible(q.filter, codex, n)| ==>
      && Eligible(q.filter, codex, n)[k] < n
      && ScoreUpTo(env, config, df, q, codex, n)[k] == ScoreOf(env, config, df, q, codex[Eligible(q.filter, codex, n)[k]])
  {
    if n > 0 {
      ScoreUpToEligible(env, config, df, q, codex, n - 1);
      var r0, e0 := ScoreUpTo(env, config, df, q, codex, n - 1), Eligible(q.filter, codex, n - 1);
      var r, e := ScoreUpTo(env, config, df, q, codex, n), Eligible(q.filter, codex, n);
      forall k | 0 <= k < |r|
        ensures e[k] < n && r[k] == ScoreOf(env, config, df, q, codex[e[k]])
      {
        if k < |r0| {
          assert r[k] == r0[k] && e[k] == e0[k];
        }
      }
    }
  }

  function Scores(scored: seq<Scored>): (r: seq<real>)
    ensures |r| == |scored|
  {
    seq(|scored|, k requires 0 <= k < |scored| => scored[k].score)
  }

  /** The copy `recall` returns for a scored scroll: one more access, accessed now, with its recall metadata. */
  function Deliver(env: Env, config: Config, item: Scored, allScores: seq<real>, now: string): Recalled
    requires item.scroll.access.Some?
  {
    var a := item.scroll.access.value;
    Recalled(
      item.scroll.(access := Some(Access(a.id, a.accessCount + 1, now))),
      RecallMeta(item.score, item.tfIdf, item.decay, item.themeMatch,
                 Attention(env.exp, config.betaFocus, item.score, allScores)))
  }

  /** The query context `recall` builds for a non-empty codex. */
  function QueryFor(env: Env, codex: seq<Scroll>, query: string, now: string, filter: Option<string>): Query {
    var tokens := env.tokenize(query);
    Query(tokens, DetectThemes(tokens), filter, now, |codex|)
  }

  /** `current_time`, or the clock reading when it is `None`. */
  function Now(currentTime: Option<string>, clock: string): string {
    if currentTime.Some? then currentTime.value else clock
  }

  /** The positions in `scroll_scores` of the entries `scroll_scores.sort(...)[:top_n]` keeps, in sorted order. */
  function Picks(scored: seq<Scored>, topN: int): (r: seq<nat>)
    ensures |r| == PrefixLen(|scored|, topN)
    ensures forall k :: 0 <= k < |r| ==> r[k] < |scored|
    ensures IsRanking(Scores(scored), r)
  {
    var ranked := RankDesc(Scores(scored));
    var top := PyPrefix(ranked, topN);
    assert forall k :: 0 <= k < |top| ==> top[k] in ranked;
    top
  }

  /** An entry left out of the first `top_n` is ranked after every entry kept. */
  lemma PicksTop(scored: seq<Scored>, topN: int, p: nat)
    requires p < |scored| && p !in Picks(scored, topN)
    ensures forall k :: 0 <= k < |Picks(scored, topN)| ==> Before(Scores(scored), Picks(scored, topN)[k], p)
  {
    var ranked := RankDesc(Scores(scored));
    var top := Picks(scored, topN);
    assert top == ranked[..|top|];
    assert p in ranked;
    var m :| 0 <= m < |ranked| && ranked[m] == p;
    assert forall k :: 0 <= k < |top| ==> top[k] == ranked[k];
  }

  /** `scroll_scores` sorted by score, largest first and stably, cut to `top_n`, as annotated copies. */
  function Delivered(env: Env, config: Config, scored: seq<Scored>, topN: int, now: string): seq<Recalled>
    requires forall k :: 0 <= k < |scored| ==> scored[k].scroll.access.Some?
  {
    var top := Picks(scored, topN);
    seq(|top|, k requires 0 <= k < |top| => Deliver(env, config, scored[top[k]], Scores(scored), now))
  }

  /** The list `recall(query, top_n, current_time, theme_filter)` returns; `clock` is the reading of `datetime.now()`. */
  function RecallSpec(
    env: Env, config: Config, df: map<string, nat>, codex: seq<Scroll>,
    query: string, topN: int, currentTime: Option<string>, clock: string, filter: Option<string>): seq<Recalled>
    requires Stamped(codex)
  {
    if codex == [] then []
    else
      var now := Now(currentTime, clock);
      var scored := ScoreUpTo(env, config, df, QueryFor(env, codex, query, now, filter), codex, |codex|);
      Delivered(env, config, scored, topN, now)
  }

  /** An empty codex recalls nothing; otherwise as many copies come back as `scroll_scores[:top_n]` holds. */
  lemma RecallLength(
    env: Env, config: Config, df: map<string, nat>, codex: seq<Scroll>,
    query: string, topN: int, currentTime: Option<string>, clock: string, filter: Option<string>)
    requires Stamped(codex)
    ensures |RecallSpec(env, config, df, codex, query, topN, currentTime, clock, filter)|
         == if codex == [] then 0 else PrefixLen(|Eligible(filter, codex, |codex|)|, topN)
  {
    if codex != [] {
      var q := QueryFor(env, codex, query, Now(currentTime, clock), filter);
      ScoreUpToEligible(env, config, df, q, codex, |codex|);
    }
  }

  /** The id `update_codex` gave a stored scroll. */
  function Id(s: Scroll): nat
    requires s.access.Some?
  {
    s.access.value.id
  }

  /** The ids of the recalled copies. */
  function Ids(r: seq<Recalled>): set<nat> {
    set k | 0 <= k < |r| && r[k].scroll.access.Some? :: r[k].scroll.access.value.id
  }

  /** The scores of every entry of `scroll_scores`, the list the attention softmax runs over. */
  function AllScores(
    env: Env, config: Config, df: map<string, nat>, codex: seq<Scroll>,
    query: string, now: string, filter: Option<string>): seq<real>
    requires Stamped(codex)
  {
    Scores(ScoreUpTo(env, config, df, QueryFor(env, codex, query, now, filter), codex, |codex|))
  }

  /** The relevance score of stored scroll `i` for the query. */
  function RelevanceAt(
    env: Env, config: Config, df: map<string, nat>, codex: seq<Scroll>,
    query: string, now: string, filter: Option<string>, i: nat): real
    requires Stamped(codex) && i < |codex|
  {
    ScoreOf(env, config, df, QueryFor(env, codex, query, now, filter), codex[i]).score
  }

  /**
   * `item` is what `recall` returns for stored scroll `i`: the scroll passes
   * the theme filter; the copy has one more access and was accessed now, and
   * is otherwise the stored scroll; the metadata holds the TF-IDF score over
   * the query tokens, the decay over the days since the last access, whether
   * a query theme is a scroll theme, their product with the theme multiplier,
   * and its softmax attention among all scored scrolls.
   */
  predicate CopyOf(
    env: Env, config: Config, df: map<string, nat>, codex: seq<Scroll>,
    query: string, now: string, filter: Option<string>, allScores: seq<real>, i: nat, item: Recalled)
    requires Stamped(codex) && i < |codex|
  {
    var s := codex[i];
    var m := item.meta;
    && !Excluded(filter, s)
    && item.scroll == s.(access := Some(Access(i, s.access.value.accessCount + 1, now)))
    && m.tfIdf == TfIdf(env.ln, df, |codex|, s.tokens, env.tokenize(query))
    && m.temporalDecay == Decay(env.exp, config.gammaDecay, TimeDeltaDays(env.parseIso, s.access.value.lastAccessed, now))
    && m.themeMatched == ThemeMatch(DetectThemes(env.tokenize(query)), s.themes)
    && m.relevanceScore == Relevance(config, m.tfIdf, m.temporalDecay, m.themeMatched)
    && m.attention == Attention(env.exp, config.betaFocus, m.relevanceScore, allScores)
  }

  /** The annotated copy of an eligible stored scroll is what `CopyOf` describes. */
  lemma DeliverCopy(
    env: Env, config: Config, df: map<string, nat>, codex: seq<Scroll>,
    query: string, now: string, filter: Option<string>, allScores: seq<real>, i: nat)
    requires Stamped(codex) && i < |codex| && !Excluded(filter, codex[i])
    ensures CopyOf(env, config, df, codex, query, now, filter, allScores, i,
      Deliver(env, config, ScoreOf(env, config, df, QueryFor(env, codex, query, now, filter), codex[i]), allScores, now))
  {
    var q := QueryFor(env, codex, query, now, filter);
    var tokens := env.tokenize(query);
    assert q == Query(tokens, DetectThemes(tokens), filter, now, |codex|);
  }

  /** Result `k` of `recall` is the annotated copy of the eligible stored scroll `i` at sorted position `k`. */
  lemma RecallAt(
    env: Env, config: Config, df: map<string, nat>, codex: seq<Scroll>,
    query: string, topN: int, now: string, filter: Option<string>, k: nat) returns (i: nat)
    requires Stamped(codex)
    requires k < |Picks(ScoreUpTo(env, config, df, QueryFor(env, codex, query, now, filter), codex, |codex|), topN)|
    ensures i < |codex| && !Excluded(filter, codex[i])
    ensures |ScoreUpTo(env, config, df, QueryFor(env, codex, query, now, filter), codex, |codex|)| == |Eligible(filter, codex, |codex|)|
    ensures i == Eligible(filter, codex, |codex|)[Picks(ScoreUpTo(env, config, df, QueryFor(env, codex, query, now, filter), codex, |codex|), topN)[k]]
    ensures ScoreUpTo(env, config, df, QueryFor(env, codex, query, now, filter), codex, |codex|)
              [Picks(ScoreUpTo(env, config, df, QueryFor(env, codex, query, now, filter), codex, |codex|), topN)[k]]
         == ScoreOf(env, config, df, QueryFor(env, codex, query, now, filter), codex[i])
  {
    var q := QueryFor(env, codex, query, now, filter);
    ScoreUpToEligible(env, config, df, q, codex, |codex|);
    EligibleAdmitted(filter, codex, |codex|);
    i := Eligible(filter, codex, |codex|)[Picks(ScoreUpTo(env, config, df, q, codex, |codex|), topN)[k]];
  }

  /** Every recalled item is the annotated copy of the stored scroll with its id; the codex itself is not touched. */
  lemma RecallCopies(
    env: Env, config: Config, df: map<string, nat>, codex: seq<Scroll>,
    query: string, topN: int, currentTime: Option<string>, clock: string, filter: Option<string>, r: seq<Recalled>)
    requires Stamped(codex) && r == RecallSpec(env, config, df, codex, query, topN, currentTime, clock, filter)
    ensures forall k :: 0 <= k < |r| ==> r[k].scroll.access.Some? && Id(r[k].scroll) < |codex|
    ensures forall k :: 0 <= k < |r| ==>
      CopyOf(env, config, df, codex, query, Now(currentTime, clock), filter,
             AllScores(env, config, df, codex, query, Now(currentTime, clock), filter), Id(r[k].scroll), r[k])
  {
    if codex != [] {
      var now := Now(currentTime, clock);
      var scored := ScoreUpTo(env, config, df, QueryFor(env, codex, query, now, filter), codex, |codex|);
      forall k | 0 <= k < |r|
        ensures r[k].scroll.access.Some? && Id(r[k].scroll) < |codex|
        ensures CopyOf(env, config, df, codex, query, now, filter, Scores(scored), Id(r[k].scroll), r[k])
      {
        var i := RecallAt(env, config, df, codex, query, topN, now, filter, k);
        DeliverCopy(env, config, df, codex, query, now, filter, Scores(scored), i);
        assert r[k] == Deliver(env, config, scored[Picks(scored, topN)[k]], Scores(scored), now);
      }
    }
  }

  /** Recalled items come in non-increasing score order, equal scores in codex order. */
  lemma RecallOrdered(
    env: Env, config: Config, df: map<string, nat>, codex: seq<Scroll>,
    query: string, topN: int, currentTime: Option<string>, clock: string, filter: Option<string>, r: seq<Recalled>)
    requires Stamped(codex) && r == RecallSpec(env, config, df, codex, query, topN, currentTime, clock, filter)
    ensures forall k :: 0 <= k < |r| ==> r[k].scroll.access.Some?
    ensures forall k, l :: 0 <= k < l < |r| ==>
      || r[k].meta.relevanceScore > r[l].meta.relevanceScore
      || (r[k].meta.relevanceScore == r[l].meta.relevanceScore && Id(r[k].scroll) < Id(r[l].scroll))
  {
    if codex != [] {
      var now := Now(currentTime, clock);
      forall k | 0 <= k < |r|
        ensures r[k].scroll.access.Some?
      {
        RecallPair(env, config, df, codex, query, topN, now, filter, r, k, k);
      }
      forall k, l | 0 <= k < l < |r|
        ensures || r[k].meta.relevanceScore > r[l].meta.relevanceScore
                || (r[k].meta.relevanceScore == r[l].meta.relevanceScore && Id(r[k].scroll) < Id(r[l].scroll))
      {
        RecallPair(env, config, df, codex, query, topN, now, filter, r, k, l);
      }
    }
  }

  /** Two recalled items in the stable descending order of their scores. */
  lemma RecallPair(
    env: Env, config: Config, df: map<string, nat>, codex: seq<Scroll>,
    query: string, topN: int, now: string, filter: Option<string>, r: seq<Recalled>, k: nat, l: nat)
    requires Stamped(codex)
    requires r == Delivered(env, config, ScoreUpTo(env, config, df, QueryFor(env, codex, query, now, filter), codex, |codex|), topN, now)
    requires k <= l < |r|
    ensures r[k].scroll.access.Some? && r[l].scroll.access.Some?
    ensures k < l ==>
      || r[k].meta.relevanceScore > r[l].meta.relevanceScore
      || (r[k].meta.relevanceScore == r[l].meta.relevanceScore && Id(r[k].scroll) < Id(r[l].scroll))
  {
    var scored := ScoreUpTo(env, config, df, QueryFor(env, codex, query, now, filter), codex, |codex|);
    var top := Picks(scored, topN);
    var i := RecallAt(env, config, df, codex, query, topN, now, filter, k);
    var j := RecallAt(env, config, df, codex, query, topN, now, filter, l);
    EligibleIncreasing(filter, codex, |codex|);
    assert r[k] == Deliver(env, config, scored[top[k]], Scores(scored), now);
    assert r[l] == Deliver(env, config, scored[top[l]], Scores(scored), now);
    if k < l {
      assert Before(Scores(scored), top[k], top[l]);
    }
  }

  /**
   * No scroll the filter lets through is passed over for a worse one: each
   * one not recalled scores at most every recalled one, and on a tie it
   * comes later in the codex.
   */
  lemma RecallTop(
    env: Env, config: Config, df: map<string, nat>, codex: seq<Scroll>,
    query: string, topN: int, currentTime: Option<string>, clock: string, filter: Option<string>, r: seq<Recalled>)
    requires Stamped(codex) && r == RecallSpec(env, config, df, codex, query, topN, currentTime, clock, filter)
    ensures forall k :: 0 <= k < |r| ==> r[k].scroll.access.Some?
    ensures forall i, k :: 0 <= i < |codex| && !Excluded(filter, codex[i]) && i !in Ids(r) && 0 <= k < |r| ==>
      || RelevanceAt(env, config, df, codex, query, Now(currentTime, clock), filter, i) < r[k].meta.relevanceScore
      || (RelevanceAt(env, config, df, codex, query, Now(currentTime, clock), filter, i) == r[k].meta.relevanceScore
          && Id(r[k].scroll) < i)
  {
    if codex != [] {
      var now := Now(currentTime, clock);
      forall k | 0 <= k < |r|
        ensures r[k].scroll.access.Some?
      {
        RecallPair(env, config, df, codex, query, topN, now, filter, r, k, k);
      }
      forall i, k | 0 <= i < |codex| && !Excluded(filter, codex[i]) && i !in Ids(r) && 0 <= k < |r|
        ensures || RelevanceAt(env, config, df, codex, query, now, filter, i) < r[k].meta.relevanceScore
                || (RelevanceAt(env, config, df, codex, query, now, filter, i) == r[k].meta.relevanceScore
                    && Id(r[k].scroll) < i)
      {
        RecallBeats(env, config, df, codex, query, topN, now, filter, r, i, k);
      }
    }
  }

  /** Recalled item `k` outranks stored scroll `i`, which the filter lets through but no recalled copy carries. */
  lemma RecallBeats(
    env: Env, config: Config, df: map<string, nat>, codex: seq<Scroll>,
    query: string, topN: int, now: string, filter: Option<string>, r: seq<Recalled>, i: nat, k: nat)
    requires Stamped(codex) && codex != []
    requires r == Delivered(env, config, ScoreUpTo(env, config, df, QueryFor(env, codex, query, now, filter), codex, |codex|), topN, now)
    requires i < |codex| && !Excluded(filter, codex[i]) && i !in Ids(r) && k < |r|
    ensures r[k].scroll.access.Some?
    ensures || RelevanceAt(env, config, df, codex, query, now, filter, i) < r[k].meta.relevanceScore
            || (RelevanceAt(env, config, df, codex, query, now, filter, i) == r[k].meta.relevanceScore
                && Id(r[k].scroll) < i)
  {
    var q := QueryFor(env, codex, query, now, filter);
    var scored := ScoreUpTo(env, config, df, q, codex, |codex|);
    var e := Eligible(filter, codex, |codex|);
    var top := Picks(scored, topN);
    ScoreUpToEligible(env, config, df, q, codex, |codex|);
    EligibleIncreasing(filter, codex, |codex|);
    EligibleComplete(filter, codex, |codex|);
    var p :| 0 <= p < |e| && e[p] == i;
    RecallNotPicked(env, config, df, codex, query, topN, now, filter, r, i, p);
    PicksTop(scored, topN, p);
    var ik := RecallAt(env, config, df, codex, query, topN, now, filter, k);
    assert r[k] == Deliver(env, config, scored[top[k]], Scores(scored), now);
    assert Before(Scores(scored), top[k], p);
  }

  /** A stored scroll whose id no recalled copy carries was not among the picked entries. */
  lemma RecallNotPicked(
    env: Env, config: Config, df: map<string, nat>, codex: seq<Scroll>,
    query: string, topN: int, now: string, filter: Option<string>, r: seq<Recalled>, i: nat, p: nat)
    requires Stamped(codex) && codex != []
    requires r == Delivered(env, config, ScoreUpTo(env, config, df, QueryFor(env, codex, query, now, filter), codex, |codex|), topN, now)
    requires p < |Eligible(filter, codex, |codex|)| && Eligible(filter, codex, |codex|)[p] == i && i !in Ids(r)
    ensures p !in Picks(ScoreUpTo(env, config, df, QueryFor(env, codex, query, now, filter), codex, |codex|), topN)
  {
    var scored := ScoreUpTo(env, config, df, QueryFor(env, codex, query, now, filter), codex, |codex|);
    var top := Picks(scored, topN);
    forall j | 0 <= j < |top|
      ensures top[j] != p
    {
      var ij := RecallAt(env, config, df, codex, query, topN, now, filter, j);
      assert r[j] == Deliver(env, config, scored[top[j]], Scores(scored), now);
      assert Id(r[j].scroll) in Ids(r);
    }
  }

  // ---------------------------------------------------------------------
  // The engine
  // ---------------------------------------------------------------------

  /** Every stored scroll carries its position as `id`, as `update_codex` assigns it. */
  predicate Stamped(codex: seq<Scroll>) {
    forall i :: 0 <= i < |codex| ==> codex[i].access.Some? && codex[i].access.value.id == i
  }

  class MemoryEngine {
    const config: Config
    const env: Env
    var codex: seq<Scroll>
    var dfIndex: map<string, nat>
    /** The retained-token sets of all compressions so far, in order. */
    ghost var history: seq<set<string>>

    ghost predicate Valid()
      reads this
    {
      && Stamped(codex)
      && (forall t :: Get(dfIndex, t) == Occurrences(history, t))
    }

    constructor(env: Env, kModes: int := 5, betaFocus: real := 2.0, gammaDecay: real := 0.05, themeBoost: real := 0.3)
      ensures Valid()
      ensures this.env == env && config == Config(kModes, betaFocus, gammaDecay, themeBoost)
      ensures codex == [] && dfIndex == map[] && history == []
    {
      this.env := env;
      config := Config(kModes, betaFocus, gammaDecay, themeBoost);
      codex := [];
      dfIndex := map[];
      history := [];
    }

    /**
     * `compress_to_scroll`: builds the scroll and adds one to the document
     * frequency of each distinct retained token.
     */
    method CompressToScroll(messages: seq<string>, timestamp: string, context: Option<map<string, string>> := None)
      returns (scroll: Scroll)
      requires Valid()
      modifies this`dfIndex, this`history
      ensures Valid()
      ensures scroll == ScrollFor(env.tokenize, config.kModes, messages, timestamp, context)
      ensures dfIndex.Keys == old(dfIndex).Keys + Elements(scroll.tokens)
      ensures forall t :: Get(dfIndex, t) == Get(old(dfIndex), t) + (if t in Elements(scroll.tokens) then 1 else 0)
      ensures history == old(history) + [Elements(scroll.tokens)]
    {
      scroll := BuildScroll(env.tokenize, config.kModes, messages, timestamp, context);
      BumpDocumentFrequency(Elements(scroll.tokens));
    }

    /**
     * `recall`: scores every stored scroll the theme filter lets through,
     * sorts the scores (stably, largest first) and returns annotated copies
     * of the first `top_n`; `clock` stands for `datetime.now().isoformat()`.
     */
    method Recall(
      query: string, clock: string,
      topN: int := 5, currentTime: Option<string> := None, themeFilter: Option<string> := None)
      returns (results: seq<Recalled>)
      requires Valid()
      ensures results == RecallSpec(env, config, dfIndex, codex, query, topN, currentTime, clock, themeFilter)
      ensures codex == [] ==> results == []
    {
      if codex == [] {
        return [];
      }
      var now := if currentTime.Some? then currentTime.value else clock;
      var queryTokens := env.tokenize(query);
      var queryThemes := DetectThemes(queryTokens);
      var scrollScores := ScoreScrolls(Query(queryTokens, queryThemes, themeFilter, now, |codex|));
      results := TopCopies(env, config, scrollScores, topN, now);
    }

    /** The scoring loop of `recall`, building `scroll_scores` in codex order. */
    method ScoreScrolls(q: Query) returns (scrollScores: seq<Scored>)
      requires Stamped(codex)
      ensures scrollScores == ScoreUpTo(env, config, dfIndex, q, codex, |codex|)
    {
      scrollScores := [];
      for i := 0 to |codex|
        invariant scrollScores == ScoreUpTo(env, config, dfIndex, q, codex, i)
      {
        var scroll := codex[i];
        if q.filter.Some? && q.filter.value != "" && q.filter.value !in scroll.themes {
          continue;
        }
        var tfIdfScore := TfIdfScore(q.tokens, scroll.tokens, q.totalDocs);
        var timeDelta := TimeDeltaDays(env.parseIso, scroll.access.value.lastAccessed, q.now);
        var decayFactor := Decay(env.exp, config.gammaDecay, timeDelta);
        var themeMatch := ThemeMatch(q.themes, scroll.themes);
        var score := Relevance(config, tfIdfScore, decayFactor, themeMatch);
        assert Scored(scroll, score, tfIdfScore, decayFactor, themeMatch) == ScoreOf(env, config, dfIndex, q, scroll);
        scrollScores := scrollScores + [Scored(scroll, score, tfIdfScore, decayFactor, themeMatch)];
      }
    }

    /** The TF-IDF loop of `recall` over the query tokens, for one scroll. */
    method TfIdfScore(queryTokens: seq<string>, scrollTokens: seq<string>, totalDocs: nat) returns (tfIdfScore: real)
      ensures tfIdfScore == TfIdf(env.ln, dfIndex, totalDocs, scrollTokens, queryTokens)
    {
      tfIdfScore := 0.0;
      for j := 0 to |queryTokens|
        invariant tfIdfScore == TfIdf(env.ln, dfIndex, totalDocs, scrollTokens, queryTokens[..j])
      {
        var token := queryTokens[j];
        if token in scrollTokens {
          var tf := Count(scrollTokens, token) as real / |scrollTokens| as real;
          var df := Get(dfIndex, token);
          var idf := if df > 0 then env.ln((totalDocs + 1) as real / (df + 1) as real) else 0.0;
          tfIdfScore := tfIdfScore + tf * idf;
        }
        assert queryTokens[..j + 1][..j] == queryTokens[..j];
      }
      assert queryTokens[..|queryTokens|] == queryTokens;
    }

    /** The loop `for token in set(retained_tokens): self.df_index[token] += 1`. */
    method BumpDocumentFrequency(terms: set<string>)
      requires Valid()
      modifies this`dfIndex, this`history
      ensures Valid()
      ensures dfIndex.Keys == old(dfIndex).Keys + terms
      ensures forall t :: Get(dfIndex, t) == Get(old(dfIndex), t) + (if t in terms then 1 else 0)
      ensures history == old(history) + [terms]
    {
      var pending := terms;
      ghost var done: set<string> := {};
      while pending != {}
        invariant pending + done == terms && pending * done == {}
        invariant history == old(history)
        invariant dfIndex.Keys == old(dfIndex).Keys + done
        invariant forall t :: Get(dfIndex, t) == Get(old(dfIndex), t) + (if t in done then 1 else 0)
      {
        var token :| token in pending;
        BumpStep(old(dfIndex), dfIndex, done, token);
        dfIndex := dfIndex[token := Get(dfIndex, token) + 1];
        pending := pending - {token};
        done := done + {token};
      }
      RecordCompression(old(dfIndex), dfIndex, history, terms);
      history := history + [terms];
    }

    /** `update_codex`: stamps the scroll with its id, zero accesses and its own timestamp, and appends it. */
    method UpdateCodex(scroll: Scroll) returns (stored: Scroll)
      requires Valid()
      modifies this`codex
      ensures Valid()
      ensures stored == scroll.(access := Some(Access(|old(codex)|, 0, scroll.timestamp)))
      ensures codex == old(codex) + [stored]
    {
      stored := scroll.(access := Some(Access(|codex|, 0, scroll.timestamp)));
      codex := codex + [stored];
    }
  }

  /**
   * The computation of `compress_to_scroll` before the document-frequency
   * update: analyse the messages, detect the themes, fill in the context
   * theme, select the essence, total the kept messages and score the result.
   */
  method BuildScroll(
    tokenize: string -> seq<string>, kModes: int,
    messages: seq<string>, timestamp: string, context: Option<map<string, string>>)
    returns (scroll: Scroll)
    ensures scroll == ScrollFor(tokenize, kModes, messages, timestamp, context)
  {
    var messageData, allTokens, totalImportance, totalChars := AnalyzeMessages(tokenize, messages);
    var themes := DetectThemes(allTokens);
    var ctx := if context.Some? then context.value else map[];
    if "theme" !in ctx {
      ctx := ctx["theme" := themes[0]];
    }
    assert ctx == ScrollContext(context, themes);
    var essence, tcs, retainedTokens := Condense(messages, kModes, messageData, allTokens, totalImportance, totalChars);
    ScrollForParts(tokenize, kModes, messages, timestamp, context, messageData, themes, ctx, essence, tcs, retainedTokens);
    var sacredPreserved := Elements(retainedTokens) * SACRED_TERMS;
    scroll := Scroll(essence, timestamp, ctx, themes, tcs, retainedTokens, sacredPreserved,
                     |messages|, |essence|, None);
  }

  /**
   * The second half of `compress_to_scroll`'s computation: select the
   * essence, total the kept messages and score the compression.
   */
  method Condense(
    messages: seq<string>, kModes: int,
    messageData: seq<MessageData>, allTokens: seq<string>, totalImportance: real, totalChars: nat)
    returns (essence: seq<string>, tcs: Tcs, retainedTokens: seq<string>)
    requires |messageData| == |messages|
    requires allTokens == Flatten(TokenLists(messageData))
    requires totalImportance == Sum(Importances(messageData))
    requires totalChars == NatSum(CharCounts(messageData))
    ensures essence == EssenceOf(messages, Importances(messageData), kModes)
    ensures tcs == TcsOf(messageData, EssenceSet(Importances(messageData), kModes))
    ensures retainedTokens == FlattenIn(TokenLists(messageData), EssenceSet(Importances(messageData), kModes), |messageData|)
  {
    var importances := Importances(messageData);
    var essenceIndices := SelectEssence(importances, kModes);
    var order := Ascending(essenceIndices, |messages|);
    essence := seq(|order|, k requires 0 <= k < |order| => messages[order[k]]);
    var retainedImportance, retainedChars;
    retainedImportance, retainedChars, retainedTokens := RetainedSums(messageData, essenceIndices);
    tcs := CalculateTcs(
      totalImportance, retainedImportance, totalChars, retainedChars,
      |Elements(allTokens)|, |Elements(retainedTokens)|);
  }

  /** The sort and the result loop of `recall`: annotated copies of the `top_n` best-scored scrolls. */
  method TopCopies(env: Env, config: Config, scrollScores: seq<Scored>, topN: int, now: string)
    returns (results: seq<Recalled>)
    requires forall k :: 0 <= k < |scrollScores| ==> scrollScores[k].scroll.access.Some?
    ensures results == Delivered(env, config, scrollScores, topN, now)
  {
    var scores := Scores(scrollScores);
    var top := Picks(scrollScores, topN);
    results := [];
    for k := 0 to |top|
      invariant results == seq(k, j requires 0 <= j < k => Deliver(env, config, scrollScores[top[j]], scores, now))
    {
      var item := scrollScores[top[k]];
      var a := item.scroll.access.value;
      var meta := RecallMeta(item.score, item.tfIdf, item.decay, item.themeMatch,
                             Attention(env.exp, config.betaFocus, item.score, scores));
      var copy := item.scroll.(access := Some(Access(a.id, a.accessCount + 1, now)));
      results := results + [Recalled(copy, meta)];
    }
  }

  /** Adding one for each retained token keeps the index equal to the per-token count of compressions. */
  lemma RecordCompression(df0: map<string, nat>, df: map<string, nat>, history: seq<set<string>>, terms: set<string>)
    requires forall t :: Get(df0, t) == Occurrences(history, t)
    requires forall t :: Get(df, t) == Get(df0, t) + (if t in terms then 1 else 0)
    ensures forall t :: Get(df, t) == Occurrences(history + [terms], t)
  {
    forall t
      ensures Get(df, t) == Occurrences(history + [terms], t)
    {
      OccurrencesAppend(history, terms, t);
    }
  }

  /** One step of the document-frequency loop: `token` is counted once more. */
  lemma BumpStep(df0: map<string, nat>, df: map<string, nat>, done: set<string>, token: string)
    requires token !in done
    requires df.Keys == df0.Keys + done
    requires forall t :: Get(df, t) == Get(df0, t) + (if t in done then 1 else 0)
    ensures df[token := Get(df, token) + 1].Keys == df0.Keys + (done + {token})
    ensures forall t :: Get(df[token := Get(df, token) + 1], t) == Get(df0, t) + (if t in done + {token} then 1 else 0)
  {
  }

  /** `ScrollFor` assembled from its parts, as the method computes them. */
  lemma ScrollForParts(
    tokenize: string -> seq<string>, kModes: int,
    messages: seq<string>, timestamp: string, context: Option<map<string, string>>,
    data: seq<MessageData>, themes: seq<string>, ctx: map<string, string>,
    essence: seq<string>, tcs: Tcs, retained: seq<string>)
    requires data == AnalyzeAll(tokenize, messages)
    requires themes == DetectThemes(Flatten(TokenLists(data)))
    requires ctx == ScrollContext(context, themes)
    requires essence == EssenceOf(messages, Importances(data), kModes)
    requires retained == FlattenIn(TokenLists(data), EssenceSet(Importances(data), kModes), |data|)
    requires tcs == TcsOf(data, EssenceSet(Importances(data), kModes))
    ensures Scroll(essence, timestamp, ctx, themes, tcs, retained, Elements(retained) * SACRED_TERMS,
                   |messages|, |essence|, None)
         == ScrollFor(tokenize, kModes, messages, timestamp, context)
  {
  }

}
