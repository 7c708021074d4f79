/**
 * The static scorers of engine version 2: the capped 0-1 message importance
 * (`ImportanceWeighter`), the compression quality score and its grade
 * (`TCSScorer`), and keyword-based theme detection (`ThemeDetector`).
 * All three are pure functions over fixed keyword tables.
 */
module Scoring {
  import opened Common

  // ---------------------------------------------------------------------
  // Keyword tables
  // ---------------------------------------------------------------------

  /** Vocabulary the tokenizer keeps intact; a message holding one of these tokens is "sacred". */
  const SACRED_TERMS: set<string> := {
    "ψ", "φ", "Ψ", "Φ", "Δ", "θ", "Θ", "λ", "Λ", "σ", "Σ", "ω", "Ω",
    "qi", "om", "aum", "dao", "tao", "zen",
    "3-6-9", "432", "528", "888", "108",
    "soul-braid", "tensor-ring", "dream-state", "meta-soul"
  }

  const BREAKTHROUGH_SIGNALS: seq<string> := [
    "realized", "understand", "oh my god", "holy shit", "wait",
    "breakthrough", "insight", "clarity", "aha", "clicked"
  ]

  const EMOTIONAL_SIGNALS: seq<string> := [
    "crying", "tears", "laughing", "joy", "grief", "love",
    "moved", "grateful", "thank you", "beautiful", "sacred"
  ]

  const RELATIONAL_SIGNALS: seq<string> := [
    "beloved", "soulbraid", "we", "us", "our", "together",
    "i love you", "i trust you", "i see you"
  ]

  // ---------------------------------------------------------------------
  // ImportanceWeighter.calculate_importance
  // ---------------------------------------------------------------------

  /** The five signal groups, each with a fixed bonus. */
  datatype Signal = Breakthrough | Emotional | Relational | Question | Sacred

  function Bonus(g: Signal): real {
    match g
    case Breakthrough => 0.3
    case Emotional => 0.2
    case Relational => 0.2
    case Question => 0.15
    case Sacred => 0.15
  }

  /** `any(signal in text for signal in signals)` */
  predicate AnyIn(text: string, signals: seq<string>) {
    exists s :: s in signals && Contains(text, s)
  }

  /** Whether group `g` fires for a message: a presence test, however many of its signals occur. */
  predicate Fires(g: Signal, text: string, tokens: seq<string>) {
    match g
    case Breakthrough => AnyIn(Lower(text), BREAKTHROUGH_SIGNALS)
    case Emotional => AnyIn(Lower(text), EMOTIONAL_SIGNALS)
    case Relational => AnyIn(Lower(text), RELATIONAL_SIGNALS)
    case Question => Contains(text, "?")
    case Sacred => exists t :: t in SACRED_TERMS && t in tokens
  }

  /** The groups that fire for a message. */
  function Fired(text: string, tokens: seq<string>): set<Signal> {
    set g: Signal | Fires(g, text, tokens)
  }

  function BonusIf(g: Signal, fired: set<Signal>): real {
    if g in fired then Bonus(g) else 0.0
  }

  /** Sum of the bonuses of a set of groups, each counted once. */
  function BonusSum(fired: set<Signal>): real {
    BonusIf(Breakthrough, fired) + BonusIf(Emotional, fired) + BonusIf(Relational, fired)
    + BonusIf(Question, fired) + BonusIf(Sacred, fired)
  }

  /** The score before the short-message penalty and the cap, accumulated group by group. */
  function RawImportance(text: string, tokens: seq<string>): real {
    var textLower := Lower(text);
    var importance := 0.0;
    var importance := if AnyIn(textLower, BREAKTHROUGH_SIGNALS) then importance + 0.3 else importance;
    var importance := if AnyIn(textLower, EMOTIONAL_SIGNALS) then importance + 0.2 else importance;
    var importance := if AnyIn(textLower, RELATIONAL_SIGNALS) then importance + 0.2 else importance;
    var importance := if Contains(text, "?") then importance + 0.15 else importance;
    var importance := if exists t :: t in SACRED_TERMS && t in tokens then importance + 0.15 else importance;
    importance
  }

  /** `ImportanceWeighter.calculate_importance(text, tokens)`. */
  function CalculateImportance(text: string, tokens: seq<string>): (r: real)
    ensures 0.0 <= r <= 1.0
  {
    var importance := RawImportance(text, tokens);
    var importance := if |tokens| < 5 && importance < 0.3 then importance * 0.5 else importance;
    if importance <= 1.0 then importance else 1.0
  }

  /** The raw score is the sum of the bonuses of the groups that fire, each group once. */
  lemma RawIsPresenceSum(text: string, tokens: seq<string>)
    ensures RawImportance(text, tokens) == BonusSum(Fired(text, tokens))
  {
    var f := Fired(text, tokens);
    assert Breakthrough in f <==> Fires(Breakthrough, text, tokens);
    assert Emotional in f <==> Fires(Emotional, text, tokens);
    assert Relational in f <==> Fires(Relational, text, tokens);
    assert Question in f <==> Fires(Question, text, tokens);
    assert Sacred in f <==> Fires(Sacred, text, tokens);
  }

  /**
   * Presence test: two messages whose groups fire alike and that fall on the
   * same side of the five-token threshold get the same importance, whatever
   * the number of signals matched inside each group.
   */
  lemma ImportanceByPresence(t1: string, k1: seq<string>, t2: string, k2: seq<string>)
    requires Fired(t1, k1) == Fired(t2, k2)
    requires |k1| < 5 <==> |k2| < 5
    ensures CalculateImportance(t1, k1) == CalculateImportance(t2, k2)
  {
    RawIsPresenceSum(t1, k1);
    RawIsPresenceSum(t2, k2);
  }

  /** Firing more groups never lowers the importance. */
  lemma ImportanceMonotone(t1: string, k1: seq<string>, t2: string, k2: seq<string>)
    requires Fired(t1, k1) <= Fired(t2, k2)
    requires |k1| < 5 <==> |k2| < 5
    ensures CalculateImportance(t1, k1) <= CalculateImportance(t2, k2)
  {
    RawIsPresenceSum(t1, k1);
    RawIsPresenceSum(t2, k2);
  }

  /**
   * The penalty: a message of fewer than five tokens scoring below 0.3 keeps
   * half its score; otherwise the score is the raw sum, which never exceeds
   * 1.0, so the cap never changes it.
   */
  lemma ImportancePenalty(text: string, tokens: seq<string>)
    ensures RawImportance(text, tokens) <= 1.0
    ensures var raw := RawImportance(text, tokens);
      CalculateImportance(text, tokens) == if |tokens| < 5 && raw < 0.3 then raw / 2.0 else raw
  {
    RawIsPresenceSum(text, tokens);
  }

  // ---------------------------------------------------------------------
  // TCSScorer.calculate_tcs
  // ---------------------------------------------------------------------

  datatype Grade = Sovereign | Resonant | Stable | Forming | Nascent

  /** The score with its grade and its three components (unrounded). */
  datatype Tcs = Tcs(
    score: real,
    grade: Grade,
    importanceRetention: real,
    compressionEfficiency: real,
    termRichness: real)

  function GradeOf(score: real): Grade {
    if score >= 0.85 then Sovereign
    else if score >= 0.70 then Resonant
    else if score >= 0.55 then Stable
    else if score >= 0.40 then Forming
    else Nascent
  }

  /** Position of a grade on the scale, Nascent lowest. */
  function Level(g: Grade): nat {
    match g
    case Nascent => 0
    case Forming => 1
    case Stable => 2
    case Resonant => 3
    case Sovereign => 4
  }

  /** `num / den`, or 0.0 when the denominator is not positive. */
  function Ratio(num: real, den: real): (r: real)
    ensures den <= 0.0 ==> r == 0.0
    ensures 0.0 < den ==> r * den == num
  {
    if den > 0.0 then num / den else 0.0
  }

  function Weighted(ir: real, ce: real, tr: real): real {
    0.4 * ir + 0.35 * ce + 0.25 * tr
  }

  /** `TCSScorer.calculate_tcs` with the six statistics of one compression. */
  function CalculateTcs(
    originalImportance: real, retainedImportance: real,
    originalChars: int, retainedChars: int,
    originalTerms: int, retainedTerms: int): (r: Tcs)
    ensures originalImportance <= 0.0 ==> r.importanceRetention == 0.0
    ensures originalChars <= 0 ==> r.compressionEfficiency == 0.0
    ensures originalTerms <= 0 ==> r.termRichness == 0.0
    ensures 0.0 < originalImportance ==> r.importanceRetention * originalImportance == retainedImportance
    ensures 0 < originalChars ==> (1.0 - r.compressionEfficiency) * originalChars as real == retainedChars as real
    ensures 0 < originalTerms ==> r.termRichness * originalTerms as real == retainedTerms as real
    ensures r.score == Weighted(r.importanceRetention, r.compressionEfficiency, r.termRichness)
    ensures r.grade == GradeOf(r.score)
  {
    var ir := Ratio(retainedImportance, originalImportance);
    var ce := if originalChars > 0 then 1.0 - retainedChars as real / originalChars as real else 0.0;
    var tr := Ratio(retainedTerms as real, originalTerms as real);
    var tcs := Weighted(ir, ce, tr);
    Tcs(tcs, GradeOf(tcs), ir, ce, tr)
  }

  /** The grade boundaries are inclusive lower bounds. */
  lemma GradeThresholds(score: real)
    ensures GradeOf(score) == Sovereign <==> 0.85 <= score
    ensures GradeOf(score) == Resonant <==> 0.70 <= score < 0.85
    ensures GradeOf(score) == Stable <==> 0.55 <= score < 0.70
    ensures GradeOf(score) == Forming <==> 0.40 <= score < 0.55
    ensures GradeOf(score) == Nascent <==> score < 0.40
  {
  }

  /** A higher score never earns a lower grade. */
  lemma GradeMonotone(s1: real, s2: real)
    requires s1 <= s2
    ensures Level(GradeOf(s1)) <= Level(GradeOf(s2))
  {
  }

  /** The score is monotone non-decreasing in each component. */
  lemma WeightedMonotone(ir1: real, ce1: real, tr1: real, ir2: real, ce2: real, tr2: real)
    requires ir1 <= ir2 && ce1 <= ce2 && tr1 <= tr2
    ensures Weighted(ir1, ce1, tr1) <= Weighted(ir2, ce2, tr2)
  {
  }

  /** Perfect retention with nothing kept in size grades Sovereign; all-zero statistics grade Nascent. */
  lemma TcsExtremes(importance: real, chars: int, terms: int)
    requires 0.0 < importance && 0 < chars && 0 < terms
    ensures CalculateTcs(importance, importance, chars, 0, terms, terms).score == 1.0
    ensures CalculateTcs(importance, importance, chars, 0, terms, terms).grade == Sovereign
    ensures CalculateTcs(0.0, 0.0, 0, 0, 0, 0).score == 0.0
    ensures CalculateTcs(0.0, 0.0, 0, 0, 0, 0).grade == Nascent
  {
    var r := CalculateTcs(importance, importance, chars, 0, terms, terms);
    assert r.importanceRetention == 1.0;
    assert r.termRichness == 1.0;
  }

  /** When each retained statistic lies between 0 and its original, every component and the score lie in [0, 1]. */
  lemma TcsInUnitRange(
    originalImportance: real, retainedImportance: real,
    originalChars: int, retainedChars: int,
    originalTerms: int, retainedTerms: int)
    requires 0.0 <= retainedImportance <= originalImportance
    requires 0 <= retainedChars <= originalChars
    requires 0 <= retainedTerms <= originalTerms
    ensures var r := CalculateTcs(originalImportance, retainedImportance, originalChars, retainedChars,
                                  originalTerms, retainedTerms);
      && 0.0 <= r.importanceRetention <= 1.0
      && 0.0 <= r.compressionEfficiency <= 1.0
      && 0.0 <= r.termRichness <= 1.0
      && 0.0 <= r.score <= 1.0
  {
    var r := CalculateTcs(originalImportance, retainedImportance, originalChars, retainedChars,
                          originalTerms, retainedTerms);
    if 0.0 < originalImportance {
      RatioInUnit(retainedImportance, originalImportance);
    }
    if 0 < originalChars {
      RatioInUnit(retainedChars as real, originalChars as real);
    }
    if 0 < originalTerms {
      RatioInUnit(retainedTerms as real, originalTerms as real);
    }
  }

  lemma RatioInUnit(num: real, den: real)
    requires 0.0 <= num <= den && 0.0 < den
    ensures 0.0 <= num / den <= 1.0
  {
    assert num / den * den == num;
  }

  // ---------------------------------------------------------------------
  // ThemeDetector.detect_themes
  // ---------------------------------------------------------------------

  /** The themes in declaration order, each with its keywords. */
  const THEME_KEYWORDS: seq<(string, seq<string>)> := [
    ("mathematics", ["theorem", "proof", "equation", "manifold", "convergence", "ψ", "φ", "harmonic"]),
    ("emotional", ["crying", "tears", "grief", "joy", "love", "moved", "feeling", "heart"]),
    ("breakthrough", ["realized", "insight", "clarity", "aha", "clicked", "understood", "breakthrough"]),
    ("relational", ["beloved", "soulbraid", "together", "we", "us", "connection", "bond"]),
    ("spiritual", ["sacred", "soul", "consciousness", "divine", "tao", "zen", "om", "qi"]),
    ("technical", ["code", "python", "function", "algorithm", "implementation", "system", "framework"])
  ]

  const GENERAL := "general"

  /** Some keyword of the list is one of the tokens. */
  predicate Meets(keywords: seq<string>, tokens: seq<string>) {
    exists k :: k in keywords && k in tokens
  }

  /** Indices of the themes whose keywords meet the tokens, in declaration order. */
  function MatchedPositions(tokens: seq<string>): seq<nat> {
    Ascending(set i: nat | i < |THEME_KEYWORDS| && Meets(THEME_KEYWORDS[i].1, tokens), |THEME_KEYWORDS|)
  }

  /** `ThemeDetector.detect_themes(tokens)`. */
  function DetectThemes(tokens: seq<string>): (themes: seq<string>)
    ensures |themes| >= 1
  {
    var matched := MatchedPositions(tokens);
    assert forall j :: 0 <= j < |matched| ==> matched[j] in matched;
    if matched == [] then [GENERAL]
    else seq(|matched|, j requires 0 <= j < |matched| => THEME_KEYWORDS[matched[j]].0)
  }

  /** Theme `x` is declared before theme `y`. */
  ghost predicate DeclaredBefore(x: string, y: string) {
    exists i, j :: 0 <= i < j < |THEME_KEYWORDS| && THEME_KEYWORDS[i].0 == x && THEME_KEYWORDS[j].0 == y
  }

  lemma ThemeNamesDistinct()
    ensures forall i, j :: 0 <= i < j < |THEME_KEYWORDS| ==> THEME_KEYWORDS[i].0 != THEME_KEYWORDS[j].0
  {
    var t := THEME_KEYWORDS;
    assert t[0].0[0] == 'm' && t[1].0[0] == 'e' && t[2].0[0] == 'b';
    assert t[3].0[0] == 'r' && t[4].0[0] == 's' && t[5].0[0] == 't';
  }

  /** No theme's keywords meet the tokens exactly when the result is `["general"]`. */
  lemma DetectThemesGeneral(tokens: seq<string>)
    ensures DetectThemes(tokens) == [GENERAL]
        <==> forall i :: 0 <= i < |THEME_KEYWORDS| ==> !Meets(THEME_KEYWORDS[i].1, tokens)
  {
    var matched := MatchedPositions(tokens);
    if matched != [] {
      assert matched[0] in matched;
      assert DetectThemes(tokens)[0] == THEME_KEYWORDS[matched[0]].0;
      ThemeNamesDistinct();
      assert GENERAL != THEME_KEYWORDS[matched[0]].0 by {
        assert |GENERAL| == 7;
      }
    } else {
      forall i | 0 <= i < |THEME_KEYWORDS| ensures !Meets(THEME_KEYWORDS[i].1, tokens) {
        assert i !in matched;
      }
    }
  }

  /** When some theme matches, the result lists the matching themes' names position by position. */
  lemma MatchedNames(tokens: seq<string>)
    requires exists i :: 0 <= i < |THEME_KEYWORDS| && Meets(THEME_KEYWORDS[i].1, tokens)
    ensures var matched, themes := MatchedPositions(tokens), DetectThemes(tokens);
      && |themes| == |matched|
      && forall a :: 0 <= a < |themes| ==> matched[a] < |THEME_KEYWORDS| && themes[a] == THEME_KEYWORDS[matched[a]].0
  {
    var i0 :| 0 <= i0 < |THEME_KEYWORDS| && Meets(THEME_KEYWORDS[i0].1, tokens);
    assert i0 in MatchedPositions(tokens);
  }

  lemma DetectThemesMembers(tokens: seq<string>)
    requires exists i :: 0 <= i < |THEME_KEYWORDS| && Meets(THEME_KEYWORDS[i].1, tokens)
    ensures forall i :: 0 <= i < |THEME_KEYWORDS| ==>
      (THEME_KEYWORDS[i].0 in DetectThemes(tokens) <==> Meets(THEME_KEYWORDS[i].1, tokens))
  {
    var matched := MatchedPositions(tokens);
    var themes := DetectThemes(tokens);
    MatchedNames(tokens);
    ThemeNamesDistinct();
    forall i | 0 <= i < |THEME_KEYWORDS|
      ensures THEME_KEYWORDS[i].0 in themes <==> Meets(THEME_KEYWORDS[i].1, tokens)
    {
      if THEME_KEYWORDS[i].0 in themes {
        var a :| 0 <= a < |themes| && themes[a] == THEME_KEYWORDS[i].0;
        assert matched[a] == i;
        assert matched[a] in matched;
      }
      if Meets(THEME_KEYWORDS[i].1, tokens) {
        assert i in matched;
        var a :| 0 <= a < |matched| && matched[a] == i;
        assert themes[a] == THEME_KEYWORDS[i].0;
      }
    }
  }

  /**
   * When some theme matches, the result holds exactly the matching themes,
   * each once, in declaration order.
   */
  lemma DetectThemesMatched(tokens: seq<string>)
    requires exists i :: 0 <= i < |THEME_KEYWORDS| && Meets(THEME_KEYWORDS[i].1, tokens)
    ensures var themes := DetectThemes(tokens);
      && (forall i :: 0 <= i < |THEME_KEYWORDS| ==>
            (THEME_KEYWORDS[i].0 in themes <==> Meets(THEME_KEYWORDS[i].1, tokens)))
      && Distinct(themes)
      && (forall a, b :: 0 <= a < b < |themes| ==> DeclaredBefore(themes[a], themes[b]))
  {
    var matched := MatchedPositions(tokens);
    var themes := DetectThemes(tokens);
    DetectThemesMembers(tokens);
    MatchedNames(tokens);
    ThemeNamesDistinct();
    forall a, b | 0 <= a < b < |themes| ensures themes[a] != themes[b] && DeclaredBefore(themes[a], themes[b]) {
      assert matched[a] < matched[b];
    }
  }
}
