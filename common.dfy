/**
 * Small building blocks shared by both engine versions: failure-carrying
 * wrappers, the Python string operations the engines rely on (`lower()`,
 * `sub in text`, `split()`), Python's prefix slice `s[:n]`, and cardinality
 * facts about sets built from sequences.
 */
module Common {

  datatype Option<T> = None | Some(value: T)

  datatype Result<T, E> = Success(value: T) | Failure(error: E)

  /** The Python exceptions the modelled code can raise. */
  datatype PyError = ZeroDivisionError

  function Min(a: int, b: int): int { if a <= b then a else b }

  function Max(a: int, b: int): int { if a >= b then a else b }

  /** Length of Python's `s[:n]` for a sequence of length `len`; a negative `n` counts from the end. */
  function PrefixLen(len: nat, n: int): (m: nat)
    ensures m <= len
    ensures 0 <= n ==> m == Min(n, len)
    ensures n < 0 ==> m == Max(0, len + n)
  {
    if n >= 0 then Min(n, len) else Max(0, len + n)
  }

  /** Python's `s[:n]`. */
  function PyPrefix<T>(s: seq<T>, n: int): (r: seq<T>)
    ensures r <= s
    ensures |r| == PrefixLen(|s|, n)
  {
    s[..PrefixLen(|s|, n)]
  }

  // ---------------------------------------------------------------------
  // Strings
  // ---------------------------------------------------------------------

  /** Lower-casing of one character (ASCII letters only). */
  function LowerChar(c: char): (d: char)
    ensures 'A' <= c <= 'Z' ==> 'a' <= d <= 'z' && d as int - c as int == 32
    ensures !('A' <= c <= 'Z') ==> d == c
  {
    if 'A' <= c <= 'Z' then (c as int + 32) as char else c
  }

  /** Python's `text.lower()`, restricted to ASCII case mapping. */
  function Lower(text: string): (r: string)
    ensures |r| == |text|
    ensures forall i :: 0 <= i < |text| ==> r[i] == LowerChar(text[i])
  {
    seq(|text|, i requires 0 <= i < |text| => LowerChar(text[i]))
  }

  /** Lower-casing twice is lower-casing once. */
  lemma LowerIdempotent(text: string)
    ensures Lower(Lower(text)) == Lower(text)
  {
    assert forall i :: 0 <= i < |text| ==> Lower(Lower(text))[i] == Lower(text)[i];
  }

  /** Python's `pat in text` for strings: `pat` occurs as a contiguous substring. */
  predicate Contains(text: string, pat: string)
    decreases |text|
  {
    pat <= text || (|text| > 0 && Contains(text[1..], pat))
  }

  /** `Contains` holds exactly when the pattern starts at some offset of the text. */
  lemma {:induction false} ContainsIff(text: string, pat: string)
    ensures Contains(text, pat) <==> exists i :: 0 <= i <= |text| && pat <= text[i..]
    decreases |text|
  {
    if pat <= text {
      assert text[0..] == text;
    } else if |text| > 0 {
      ContainsIff(text[1..], pat);
      if Contains(text[1..], pat) {
        var i :| 0 <= i <= |text[1..]| && pat <= text[1..][i..];
        assert text[1..][i..] == text[i + 1..];
      }
      if exists i :: 0 <= i <= |text| && pat <= text[i..] {
        var i :| 0 <= i <= |text| && pat <= text[i..];
        assert i != 0;
        assert text[1..][i - 1..] == text[i..];
      }
    } else {
      assert forall i :: 0 <= i <= |text| ==> text[i..] == text;
    }
  }

  /** The characters Python's `str.split()` treats as separators. */
  predicate IsSpace(c: char) {
    || c == ' '
    || '\t' <= c <= '\r'
    || '\U{1C}' <= c <= '\U{1F}'
    || c == '\U{85}' || c == '\U{A0}' || c == '\U{1680}'
    || '\U{2000}' <= c <= '\U{200A}'
    || c == '\U{2028}' || c == '\U{2029}' || c == '\U{202F}' || c == '\U{205F}' || c == '\U{3000}'
  }

  predicate NoSpace(w: string) {
    forall i :: 0 <= i < |w| ==> !IsSpace(w[i])
  }

  /** The text with every separator character removed. */
  function Squeeze(s: string): string {
    if s == [] then [] else (if IsSpace(s[0]) then [] else [s[0]]) + Squeeze(s[1..])
  }

  function Concat(words: seq<string>): string {
    if words == [] then [] else words[0] + Concat(words[1..])
  }

  function Flush(word: string): seq<string> {
    if word == [] then [] else [word]
  }

  /** Python's argument-less `s.split()`, scanning `s` with the current partial word. */
  function SplitFrom(s: string, word: string): seq<string>
    decreases |s|
  {
    if s == [] then Flush(word)
    else if IsSpace(s[0]) then Flush(word) + SplitFrom(s[1..], [])
    else SplitFrom(s[1..], word + [s[0]])
  }

  function Split(s: string): seq<string> {
    SplitFrom(s, [])
  }

  lemma {:induction false} ConcatAppend(a: seq<string>, b: seq<string>)
    ensures Concat(a + b) == Concat(a) + Concat(b)
  {
    if a == [] {
      assert a + b == b;
    } else {
      assert (a + b)[1..] == a[1..] + b;
      ConcatAppend(a[1..], b);
    }
  }

  lemma {:induction false} SplitFromWords(s: string, word: string)
    requires NoSpace(word)
    ensures forall w :: w in SplitFrom(s, word) ==> w != [] && NoSpace(w)
    ensures Concat(SplitFrom(s, word)) == word + Squeeze(s)
    decreases |s|
  {
    if s == [] {
    } else if IsSpace(s[0]) {
      SplitFromWords(s[1..], []);
      ConcatAppend(Flush(word), SplitFrom(s[1..], []));
    } else {
      SplitFromWords(s[1..], word + [s[0]]);
      assert word + [s[0]] + Squeeze(s[1..]) == word + ([s[0]] + Squeeze(s[1..]));
    }
  }

  /** The words of `split()` are non-empty, contain no separator, and spell the text without its separators. */
  lemma SplitWords(s: string)
    ensures forall w :: w in Split(s) ==> w != [] && NoSpace(w)
    ensures Concat(Split(s)) == Squeeze(s)
  {
    SplitFromWords(s, []);
  }

  lemma {:induction false} SplitFromAtSpace(a: string, c: char, b: string, word: string)
    requires IsSpace(c)
    ensures SplitFrom(a + [c] + b, word) == SplitFrom(a, word) + SplitFrom(b, [])
    decreases |a|
  {
    var s := a + [c] + b;
    if a == [] {
      assert s == [c] + b && s[1..] == b;
    } else {
      assert s[0] == a[0] && s[1..] == a[1..] + [c] + b;
      if IsSpace(a[0]) {
        SplitFromAtSpace(a[1..], c, b, []);
      } else {
        SplitFromAtSpace(a[1..], c, b, word + [a[0]]);
      }
    }
  }

  /** A separator character splits the text in two: the words of each side, left side first. */
  lemma SplitAtSpace(a: string, c: char, b: string)
    requires IsSpace(c)
    ensures Split(a + [c] + b) == Split(a) + Split(b)
  {
    SplitFromAtSpace(a, c, b, []);
  }

  lemma {:induction false} SplitFromWord(w: string, word: string)
    requires word + w != [] && NoSpace(w)
    ensures SplitFrom(w, word) == [word + w]
    decreases |w|
  {
    if w == [] {
      assert word + w == word;
    } else {
      assert !IsSpace(w[0]);
      SplitFromWord(w[1..], word + [w[0]]);
      assert word + [w[0]] + w[1..] == word + w;
    }
  }

  /** A non-empty text without separators is a single word. */
  lemma SplitWord(w: string)
    requires w != [] && NoSpace(w)
    ensures Split(w) == [w]
  {
    SplitFromWord(w, []);
    assert [] + w == w;
  }

  // ---------------------------------------------------------------------
  // Sets built from sequences
  // ---------------------------------------------------------------------

  function Elements<T>(s: seq<T>): set<T> {
    set x | x in s
  }

  predicate Distinct<T(==)>(s: seq<T>) {
    forall i, j :: 0 <= i < j < |s| ==> s[i] != s[j]
  }

  /** The indices `0 .. n-1` of a sequence of length `n`, as a set. */
  function Range(n: nat): (r: set<nat>)
    ensures forall i: nat :: i in r <==> i < n
    ensures |r| == n
  {
    if n == 0 then {} else Range(n - 1) + {n - 1}
  }

  /** A sequence without repetitions has as many elements as its set. */
  lemma {:induction false} DistinctCard<T>(s: seq<T>)
    requires Distinct(s)
    ensures |Elements(s)| == |s|
  {
    if s != [] {
      DistinctCard(s[1..]);
      assert Elements(s) == {s[0]} + Elements(s[1..]);
      assert forall j :: 0 <= j < |s[1..]| ==> s[1..][j] == s[j + 1] != s[0];
    }
  }

  lemma SubsetCard<T>(a: set<T>, b: set<T>)
    requires a <= b
    ensures |a| <= |b|
  {
    assert b == a + (b - a);
  }

  /**
   * The members of `s` below `n` in increasing order: Python's `sorted(s)`
   * for a set of indices into a list of length `n`.
   */
  function Ascending(s: set<nat>, n: nat): (r: seq<nat>)
    ensures forall k :: 0 <= k < |r| ==> r[k] < n && r[k] in s
    ensures forall x: nat :: x in s && x < n ==> x in r
    ensures forall i, j :: 0 <= i < j < |r| ==> r[i] < r[j]
  {
    if n == 0 then []
    else
      var below := Ascending(s, n - 1);
      var r := below + (if n - 1 in s then [n - 1] else []);
      assert forall k :: 0 <= k < |below| ==> r[k] == below[k];
      r
  }

  /** Sorting a set of indices keeps every one of them. */
  lemma AscendingCard(s: set<nat>, n: nat)
    requires forall x :: x in s ==> x < n
    ensures |Ascending(s, n)| == |s|
  {
    var r := Ascending(s, n);
    assert Distinct(r);
    DistinctCard(r);
    assert Elements(r) == s;
  }
}
