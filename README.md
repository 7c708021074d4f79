# memory-engine in Dafny

This project models the core of the two versions of the "memory engine". The
engine turns a conversation segment, given as a list of messages, into a
compressed record called a *scroll*. It stores scrolls in a *codex* and
recalls the stored scrolls that best match a query.

**Version 2** (`memory_engine_v2.py`):
- `ImportanceWeighter` gives each message a capped 0-1 importance score from
  presence tests on keyword groups.
- `TCSScorer` turns six statistics of one compression into a weighted quality
  score and a grade.
- `ThemeDetector` maps tokens to the themes whose keywords they contain, in
  declaration order, or to `general` when none match.
- `MemoryEngine.compress_to_scroll` keeps the first and last messages, fills
  the remaining slots with the most important other messages, scores the
  result and counts the retained tokens into the document-frequency table
  (`df_index`).
- `update_codex` stamps a scroll with its id and appends it to the codex.
- `recall` filters the codex by theme and scores each scroll by TF-IDF times
  temporal decay times a theme boost. It sorts the scores stably, largest
  first, and returns annotated copies of the first `top_n`.

**Version 1** (`memory_engine.py`):
- `breath_normalize` is a capacity ratio.
- `importance_weight` adds a bonus for every marker the message mentions.
- `compress_to_scroll` keeps a stable top-k of the messages by weight.
- `update_codex` keeps a per-theme aggregate: positions, summed importance
  and the latest timestamp.
- `recall` ranks the stored scrolls by word overlap with the query.

Modules:
- `Common` holds the Python building blocks: `Option`/`Result`, ASCII
  `lower()`, substring test, whitespace `split()`, and the prefix slice
  `s[:n]` including negative `n`.
- `Ranking` holds the stable descending sort, stated as a ranking of indices.
- `Scoring` holds the three v2 scorers.
- `Essence` holds the v2 essence selection and the sums over kept messages.
- `EngineV2` holds the v2 `MemoryEngine` class.
- `EngineV1` holds the v1 `MemoryEngine` class.

How the collaborators are modelled:
- The tokenizer, ISO-timestamp parsing, `math.exp` and `math.log` are
  arrow-typed parameters (`EngineV2.Env`). They are applied but never
  inspected.
- The reading of `datetime.now()` is a `clock` parameter of `Recall`, placed before the parameters that have defaults.

Where the code and the documented design differ, the model follows the code:
- The v2 essence can hold one message more than `k_modes`.
- v2 counts document frequency in `compress_to_scroll`, not in
  `update_codex`.
- v2 TF-IDF is a plain sum of `tf * idf`. It is not a cosine similarity and
  has no smoothed IDF.
- v2 attention is 0.0 when the softmax total is zero; there is no uniform
  fallback.
- v2 `recall` changes copies, so the stored codex is not changed.
- v1 importance counts every marker it finds, not one per category.

## Model

| member | source | states |
|---|---|---|
| Common.PyPrefix | memory_engine.py:129 | Python's `s[:n]` is a prefix of `s` of length `min(n, len)`, or `max(0, len + n)` for negative `n` |
| Common.ContainsIff | memory_engine.py:76 | `pat in text` holds exactly when `pat` starts at some offset of `text` |
| Common.SplitWords | memory_engine.py:186-189 | the words of `split()` are non-empty, hold no whitespace, and spell the text without its whitespace |
| Common.SplitAtSpace | memory_engine.py:186-189 | a separator character cuts the text in two: `split()` gives the words of the left side followed by the words of the right side |
| Common.SplitWord | memory_engine.py:186-189 | a non-empty text without separators is a single word |
| Common.LowerIdempotent | memory_engine.py:76 | lower-casing twice is lower-casing once |
| Ranking.RankDesc | memory_engine_v2.py:409-413 | the stable `sorted(..., reverse=True)` order: a permutation of the indices in which each index precedes every later one by a larger key, or an equal key and a smaller index |
| Ranking.RankingUnique | memory_engine_v2.py:555 | two stable descending orders of the same indices are equal, so the sort result is determined |
| Ranking.PrefixBeforeRest | memory_engine.py:126-129 | an index cut off by `[:n]` after the sort comes after every index kept |
| Scoring.CalculateImportance | memory_engine_v2.py:143-177 | the importance lies in [0, 1] |
| Scoring.RawIsPresenceSum | memory_engine_v2.py:149-170 | before the penalty, the score is the sum of the bonuses (0.3, 0.2, 0.2, 0.15, 0.15) of the groups that fire, each group once |
| Scoring.ImportanceByPresence | memory_engine_v2.py:153-177 | two messages whose groups fire alike and that fall on the same side of five tokens get the same importance |
| Scoring.ImportanceMonotone | memory_engine_v2.py:153-177 | firing more groups never lowers the importance |
| Scoring.ImportancePenalty | memory_engine_v2.py:172-177 | fewer than five tokens with a raw score below 0.3 halves the score; otherwise the raw score is kept, and it never exceeds 1.0 |
| Scoring.CalculateTcs | memory_engine_v2.py:216-238 | each of IR, CE and TR is 0.0 when its denominator is not positive and is the stated ratio otherwise; score = 0.4·IR + 0.35·CE + 0.25·TR; the grade is the threshold grade of the score |
| Scoring.GradeThresholds | memory_engine_v2.py:228-238 | the grade bounds 0.85/0.70/0.55/0.40 are inclusive lower bounds, each grade in both directions |
| Scoring.GradeMonotone | memory_engine_v2.py:228-238 | a higher score never earns a lower grade |
| Scoring.WeightedMonotone | memory_engine_v2.py:226 | the score is non-decreasing in each component |
| Scoring.TcsExtremes | memory_engine_v2.py:216-238 | full retention with nothing kept in size scores 1.0 (Sovereign); all-zero statistics score 0.0 (Nascent) |
| Scoring.TcsInUnitRange | memory_engine_v2.py:216-226 | retained statistics between 0 and their originals give components and a score in [0, 1] |
| Scoring.DetectThemes | memory_engine_v2.py:274-286 | the theme list is never empty |
| Scoring.DetectThemesGeneral | memory_engine_v2.py:279-286 | the result is `['general']` exactly when no keyword list meets the tokens |
| Scoring.DetectThemesMatched | memory_engine_v2.py:279-286 | otherwise the result holds exactly the matching themes, without duplicates, in declaration order |
| Essence.SelectEssence | memory_engine_v2.py:398-421 | the anchor-then-fill loop with its early break computes the reference selection `EssenceSet` |
| Essence.EssenceAnchors | memory_engine_v2.py:400-406 | the selection holds message 0 when there is one, the last message when there are two or more, and only valid indices |
| Essence.EssenceSize | memory_engine_v2.py:398-424 | the essence has `min(n, max(k_modes, a + 1))` messages for `a = min(n, 2)`: all when `n <= k_modes`, `k_modes` when `n > k_modes > a`, `a + 1` when `k_modes <= a < n` |
| Essence.EssenceGreedy | memory_engine_v2.py:409-421 | every kept non-anchor message is more important than every dropped one, or equally important and earlier |
| Essence.EssenceOrdered | memory_engine_v2.py:424 | the kept indices are strictly increasing (document order) |
| Essence.SumInBounds | memory_engine_v2.py:427 | with non-negative importances, the retained sum lies between 0 and the total |
| Essence.NatSumInBound | memory_engine_v2.py:428 | the retained character count is at most the total |
| Essence.FlattenInSubset | memory_engine_v2.py:429-431 | every retained token is a token of the segment |
| EngineV2.OccurrencesAppend | memory_engine_v2.py:446-447 | one more compression adds one to a token's count exactly when the token is retained |
| EngineV2.AnalyzeMessages | memory_engine_v2.py:374-387 | the message loop builds the per-message data, the concatenated tokens, the total importance and the total length |
| EngineV2.RetainedSums | memory_engine_v2.py:427-431 | the retained importance, characters and tokens are the sums over the kept indices |
| EngineV2.EssenceOfFacts | memory_engine_v2.py:398-424 | the essence is the messages at strictly increasing kept positions, starts with the first message, ends with the last, and has the size of `EssenceSize` |
| EngineV2.ScrollEssence | memory_engine_v2.py:398-458 | the scroll records the message count and the essence length, and its essence is a document-order subsequence from first to last message |
| EngineV2.ScrollTheme | memory_engine_v2.py:389-392 | an existing `context['theme']` is kept, otherwise it becomes the first detected theme; no other context key changes |
| EngineV2.ScrollTokens | memory_engine_v2.py:429-431 | a token is retained exactly when some kept message has it |
| EngineV2.ScrollTokensSubset | memory_engine_v2.py:429-438 | the retained tokens are tokens of the segment |
| EngineV2.ScrollSacred | memory_engine_v2.py:443 | the preserved sacred tokens are exactly the retained tokens that are sacred terms |
| EngineV2.ScrollTcsInUnit | memory_engine_v2.py:427-440 | for every scroll built, IR, CE, TR and the score lie in [0, 1] |
| EngineV2.Count | memory_engine_v2.py:522 | `Counter(tokens)[t]` is at most the length and positive exactly when `t` occurs |
| EngineV2.TimeDeltaDays | memory_engine_v2.py:577-584 | the delta is non-negative and 0.0 when either timestamp fails to parse |
| EngineV2.TimeDeltaSymmetric | memory_engine_v2.py:577-584 | the delta is symmetric and a timestamp is zero days from itself |
| EngineV2.TermScoreZero | memory_engine_v2.py:524-533 | a query token absent from the scroll, or with document frequency 0, contributes nothing |
| EngineV2.TfIdfAppend | memory_engine_v2.py:520-533 | the score of a split query is the sum of the scores of its parts |
| EngineV2.TfIdfUnmatched | memory_engine_v2.py:524-533 | a scroll sharing no counted token with the query scores 0.0 |
| EngineV2.AttentionSumsToOne | memory_engine_v2.py:586-600 | over all scored scrolls, the attention weights sum to one when the softmax total is not zero |
| EngineV2.EligibleAdmitted | memory_engine_v2.py:514-517 | every scored position is a scroll the theme filter lets through |
| EngineV2.EligibleComplete | memory_engine_v2.py:514-517 | every scroll the filter lets through is scored |
| EngineV2.EligibleIncreasing | memory_engine_v2.py:514 | scored positions follow codex order |
| EngineV2.ScoreUpToEligible | memory_engine_v2.py:510-552 | entry `k` of `scroll_scores` is the score of the `k`-th scroll the filter lets through |
| EngineV2.Picks | memory_engine_v2.py:555-559 | the kept entries are `min(top_n, len)` entries in stable descending score order |
| EngineV2.PicksTop | memory_engine_v2.py:555-559 | an entry not kept is ranked after every kept entry |
| EngineV2.RecallLength | memory_engine_v2.py:499-559 | an empty codex recalls nothing; otherwise the result has `PrefixLen(candidates, top_n)` entries |
| EngineV2.DeliverCopy | memory_engine_v2.py:558-573 | the copy of an eligible scroll has one more access, the current time as last access, and the recall metadata of `CopyOf` |
| EngineV2.RecallAt | memory_engine_v2.py:555-560 | result `k` comes from a stored scroll the filter lets through, at sorted position `k` |
| EngineV2.RecallCopies | memory_engine_v2.py:556-573 | every result is the annotated copy of the stored scroll with its id, with TF-IDF, decay, theme match, relevance and attention as computed |
| EngineV2.RecallOrdered | memory_engine_v2.py:555-559 | results are non-increasing in relevance, ties in codex order |
| EngineV2.RecallTop | memory_engine_v2.py:555-559 | an eligible scroll not recalled scores at most every recalled one, and on a tie comes later in the codex |
| EngineV2.RecallNotPicked | memory_engine_v2.py:558-560 | a scroll whose id no result carries was not among the kept entries |
| EngineV2.RecordCompression | memory_engine_v2.py:446-447 | adding one per retained token keeps `df_index` equal to the count of compressions retaining each token |
| EngineV2.MemoryEngine.constructor | memory_engine_v2.py:318-346 | defaults 5, 2.0, 0.05, 0.3; empty codex and empty `df_index` |
| EngineV2.MemoryEngine.CompressToScroll | memory_engine_v2.py:348-459 | returns the scroll `ScrollFor` describes (the context defaults to `None`); adds exactly one to `df_index[t]` for each distinct retained token and leaves other entries alone |
| EngineV2.MemoryEngine.BumpDocumentFrequency | memory_engine_v2.py:446-447 | the loop over `set(retained_tokens)` adds one per distinct token and keeps the index equal to the occurrence count |
| EngineV2.MemoryEngine.UpdateCodex | memory_engine_v2.py:461-471 | sets `id` to the codex length, `access_count` to 0, `last_accessed` to the timestamp; appends and leaves earlier entries unchanged, so ids equal positions |
| EngineV2.MemoryEngine.Recall | memory_engine_v2.py:473-575 | returns `RecallSpec`, and `[]` for an empty codex; the codex is not changed; `top_n` defaults to 5 and `current_time`/`theme_filter` to `None` |
| EngineV2.MemoryEngine.ScoreScrolls | memory_engine_v2.py:510-552 | the scoring loop builds `scroll_scores` for the filtered scrolls in codex order |
| EngineV2.MemoryEngine.TfIdfScore | memory_engine_v2.py:519-533 | the TF-IDF loop computes `TfIdf` over the query tokens |
| EngineV2.BuildScroll | memory_engine_v2.py:365-443 | the compression computation before the `df_index` update yields `ScrollFor` |
| EngineV2.Condense | memory_engine_v2.py:398-440 | essence selection, retained sums and the quality score as specified |
| EngineV2.TopCopies | memory_engine_v2.py:554-575 | the sort and result loop build the annotated copies of the first `top_n` |
| EngineV1.BreathNormalize | memory_engine.py:45-58 | `(capacity - t) / capacity` when `t < capacity`, `1 / capacity` otherwise; a zero capacity raises `ZeroDivisionError`; a positive capacity gives a positive value |
| EngineV1.BreathMonotone | memory_engine.py:52-58 | with a positive whole-number capacity, more tokens never give more breath |
| EngineV1.BreathJump | memory_engine.py:52-58 | with capacity 2.5, 3 tokens give more breath than 2 |
| EngineV1.Found | memory_engine.py:75-77 | the markers of a table that the text mentions, case-insensitively as substrings |
| EngineV1.MarkerWeight | memory_engine.py:70-100 | the weight lies between 1.0 and 13.3 |
| EngineV1.FoundCount | memory_engine.py:75-98 | over a table without repeats, each mentioned marker is found once |
| EngineV1.MarkerWeightCounts | memory_engine.py:70-100 | the weight is 1.0 plus, per table, its bonus times the number of distinct mentioned markers (per marker, not per group) |
| EngineV1.MarkerWeightCaseless | memory_engine.py:76 | the weight does not depend on the case of the text |
| EngineV1.Kept | memory_engine.py:126-129 | the kept positions are the first `k_modes` in stable descending weight order |
| EngineV1.CompressShape | memory_engine.py:116-137 | the essence and weights have `PrefixLen(len, k_modes)` entries, `min(k_modes, len)` for positive `k_modes`; each essence text is the first `min(500, len)` characters of its message, with that message's weight at the same position; `compression_ratio` is `len(segment) / k_modes`; `total_importance` is the weight sum over all messages, at least the message count |
| EngineV1.CompressOrdered | memory_engine.py:126-135 | the weights are non-increasing, ties in message order |
| EngineV1.CompressTop | memory_engine.py:126-129 | a message left out weighs no more than any kept one, and on a tie comes later |
| EngineV1.TotalAtLeastCount | memory_engine.py:114-123 | `total_importance` sums the weights of all messages, so it is at least the message count |
| EngineV1.AddToCodex | memory_engine.py:155-166 | the codex gains the scroll's theme key and every other entry is unchanged |
| EngineV1.ThemeListsPartition | memory_engine.py:155-166 | every stored position is in exactly one theme list, the one of its own theme |
| EngineV1.AddKeepsIndexed | memory_engine.py:152-166 | storing a scroll keeps every entry listing, in increasing order, the positions of its theme with their summed importance and the latest timestamp, and every position listed |
| EngineV1.ListedFresh | memory_engine.py:157-166 | the entry created for a new theme lists just the new position |
| EngineV1.ListedAppend | memory_engine.py:164-166 | appending the new position, adding its importance and taking its timestamp keeps an entry listed |
| EngineV1.RecallPicks | memory_engine.py:193-197 | the returned positions are the first `top_n` in stable descending relevance order |
| EngineV1.RecallRanked | memory_engine.py:178-200 | `recall` returns `PrefixLen(len, top_n)` stored scrolls, non-increasing in relevance, ties in storage order |
| EngineV1.RecallBest | memory_engine.py:193-197 | a scroll not returned is no more relevant than any returned one, and on a tie was stored later |
| EngineV1.RelevanceBound | memory_engine.py:185-191 | relevance is at most the number of essence texts times the number of distinct query words |
| EngineV1.RelevanceCaseless | memory_engine.py:186 | relevance does not depend on the case of the query |
| EngineV1.MemoryEngine.constructor | memory_engine.py:21-43 | defaults 5, 2.0, 0.1, 190000; empty scrolls and codex |
| EngineV1.MemoryEngine.ImportanceWeight | memory_engine.py:60-100 | the four marker loops compute `MarkerWeight`; the context is not used |
| EngineV1.MemoryEngine.WeighSegment | memory_engine.py:113-123 | the message loop builds the weighted elements and sums the weights |
| EngineV1.MemoryEngine.CompressToScroll | memory_engine.py:102-141 | returns `CompressSpec`: the top-k scroll, or `ZeroDivisionError` when `k_modes` is 0; the engine is not changed |
| EngineV1.MemoryEngine.UpdateCodex | memory_engine.py:143-166 | appends exactly one scroll and updates the codex as `AddToCodex`; keeps the codex indexing the stored scrolls |
| EngineV1.MemoryEngine.EssenceRelevance | memory_engine.py:185-191 | the inner loop sums the word overlaps of the essence texts with the query |
| EngineV1.MemoryEngine.Recall | memory_engine.py:168-200 | returns `RecallSpec`, with `PrefixLen(len(scrolls), top_n)` entries; nothing is changed |

## Left out

- `SymbolicTokenizer.tokenize` is regex matching with placeholder substitution. It is the opaque `Env.tokenize`.
- `math.exp`, `math.log` and `datetime.fromisoformat` are opaque (`Env.exp`, `Env.ln`, `Env.parseIso`). `datetime.now()` is the `clock` parameter.
- Mixing naive and timezone-aware timestamps raises `TypeError`, which the bare `except` turns into 0.0. The model captures this only as "parse gives `None`".
- Floating point is modelled as exact reals. Rounding error in sums, and the order in which Python sums a set, are not captured.
- The TCS result's `round(..., 3)` is left out: it only formats for reporting. The grade is also an enumeration, not the decorated grade string.
- `lower()` maps ASCII letters only; Unicode case mapping is not modelled. `split()` uses Python's whitespace set.
- Set iteration order in v2 (`essence_indices`, `set(retained_tokens)`) is modelled as increasing index order. The order of the scroll's `tokens` list is therefore not modelled: Python builds it by iterating the set `essence_indices`, whose order follows hash slots (for 10 messages the set `{0, 9, 3}` iterates 0, 9, 3), while the model concatenates the kept messages' tokens in index order. The retained-token set, `Counter`, the token count and the real sums do not depend on this order. `sacred_preserved` is a set, and its list order is not modelled.
- Context values are strings (`map<string, string>`).
- Object identity is not modelled. v2 `compress_to_scroll` writes `theme` into the caller's own context dict, and v2 `update_codex` returns the same dict it stores. v1 stores the caller's context dict and returns stored scrolls, not copies. The model works on values and does not capture later changes made through these shared references.
- v2 `df_index` is a `defaultdict`: a key that was read but never incremented is indistinguishable from an absent key. The model states it pointwise through `Get`.
- v2 `self.last_access` is never read, so it is left out. The helper objects (`tokenizer`, `weighter`, `scorer`, `theme_detector`) hold no state of their own, so the model calls `Env.tokenize` and the `Scoring` functions directly.
- v1 element `length` is computed but never read. `beta_focus` and `gamma_decay` of v1 are stored but unused.
- `export_memory_state`, `import_memory_state` and `load_memory_state` are file I/O and are left out. A loaded state can break the class invariants (`Valid`), which is why `Recall` of v2 requires them.
- `GlyphCompressor` is display formatting and the `__main__` demos are examples; both are left out.
- Sorting is stated as a ranking function (`Ranking.RankDesc`) rather than an in-place sort.
- `scroll.get('themes', [])` in v2 `recall` defaults only for scrolls loaded from a file. Scrolls built by `compress_to_scroll` always have `themes`.
- EngineV2.MemoryEngine.Recall requires `Valid()`: every stored scroll has the `id`/`access_count`/`last_accessed` keys that `update_codex` writes. A hand-built codex without them would raise `KeyError`, and that case is not modelled.
- BreathMonotone holds only for a whole-number capacity; BreathJump shows that a fractional capacity breaks monotonicity.
- EngineV2.MemoryEngine.Recall: `Env.exp` always returns a value, so the `OverflowError` that `math.exp` raises for an argument above about 709.78 is not modelled. In the source, `recall` raises instead of returning when `beta_focus * score` is that large in the attention softmax, or when a negative `gamma_decay` meets a long time gap in the decay.
