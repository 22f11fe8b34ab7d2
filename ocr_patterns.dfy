/**
 * The three regular expressions of the OCR field extraction, written out as
 * predicates over character positions, and the leftmost-match scanning that
 * `re.findall(...)[0]` performs with them.
 *
 *   Aadhaar number  `\b\d{4}\s\d{4}\s\d{4}\b`
 *   date of birth   `\b(\d{2}[/-]\d{2}[/-]\d{4})\b`
 *   name            `([A-Z][a-z]+(?:\s[A-Z][a-z]+)+)`
 *
 * The first two have a fixed length, so a match is fixed by where it starts.
 * The name pattern is matched greedily; `NameEndAt` follows the regex
 * engine, and `NameSpan` states the pattern's language independently.
 */
module OcrPatterns {
  import opened Wrappers
  import opened CharClasses

  const AadhaarLength := 14
  const DobLength := 10

  /**
   * Python's `\b` at position `p` of `s`: exactly one side of `p` is a word
   * character, where the two ends of the text count as non-word characters.
   */
  predicate WordBoundary(s: string, p: nat): (b: bool)
    ensures 0 < p < |s| ==> (b <==> IsWordChar(s[p - 1]) != IsWordChar(s[p]))
    ensures p == 0 ==> (b <==> 0 < |s| && IsWordChar(s[0]))
    ensures 0 < p && p == |s| ==> (b <==> IsWordChar(s[p - 1]))
    ensures p > |s| ==> !b
  {
    (0 < p <= |s| && IsWordChar(s[p - 1])) != (p < |s| && IsWordChar(s[p]))
  }

  /** `t` is exactly `\d{4}\s\d{4}\s\d{4}`. */
  predicate AadhaarShape(t: string) {
    |t| == AadhaarLength &&
    forall i :: 0 <= i < AadhaarLength ==> if i == 4 || i == 9 then IsPySpace(t[i]) else IsDigit(t[i])
  }

  /** `[/-]` */
  predicate IsDateSeparator(c: char) { c == '/' || c == '-' }

  /** `t` is exactly `\d{2}[/-]\d{2}[/-]\d{4}`; the two separators are chosen independently. */
  predicate DobShape(t: string) {
    |t| == DobLength &&
    forall i :: 0 <= i < DobLength ==> if i == 2 || i == 5 then IsDateSeparator(t[i]) else IsDigit(t[i])
  }

  /**
   * The Aadhaar pattern, with its two `\b`, matches `s` at position `i`: the
   * shape is there and is not glued to a word character on either side.
   */
  predicate AadhaarAt(s: string, i: nat): (b: bool)
    ensures b <==> i + AadhaarLength <= |s| && AadhaarShape(s[i..i + AadhaarLength]) &&
                   (i > 0 ==> !IsWordChar(s[i - 1])) &&
                   (i + AadhaarLength < |s| ==> !IsWordChar(s[i + AadhaarLength]))
  {
    i + AadhaarLength <= |s| && AadhaarShape(s[i..i + AadhaarLength]) &&
    WordBoundary(s, i) && WordBoundary(s, i + AadhaarLength)
  }

  /**
   * The date pattern, with its two `\b`, matches `s` at position `i`: the
   * shape is there and is not glued to a word character on either side.
   */
  predicate DobAt(s: string, i: nat): (b: bool)
    ensures b <==> i + DobLength <= |s| && DobShape(s[i..i + DobLength]) &&
                   (i > 0 ==> !IsWordChar(s[i - 1])) &&
                   (i + DobLength < |s| ==> !IsWordChar(s[i + DobLength]))
  {
    i + DobLength <= |s| && DobShape(s[i..i + DobLength]) &&
    WordBoundary(s, i) && WordBoundary(s, i + DobLength)
  }

  /**
   * `re.match(r"^P$", v)` for a pattern `P` of fixed length `len`: without
   * MULTILINE, `$` matches at the end and also just before a final newline.
   */
  predicate Anchored(v: string, len: nat, shape: string -> bool): (b: bool)
    ensures b <==> shape(v) || exists t :: |t| == len && shape(t) && v == t + "\n"
  {
    shape(v) || (|v| == len + 1 && v[len] == '\n' && shape(v[..len]))
  }

  /** The leftmost position in `[from, n)` where `matchAt` holds. */
  function FirstFrom(n: nat, matchAt: nat -> bool, from: nat): (r: Option<nat>)
    decreases n - from
    ensures r.Some? ==> from <= r.value < n && matchAt(r.value)
    ensures r.Some? ==> forall k :: from <= k < r.value ==> !matchAt(k)
    ensures r.None? ==> forall k :: from <= k < n ==> !matchAt(k)
  {
    if from >= n then None
    else if matchAt(from) then Some(from)
    else FirstFrom(n, matchAt, from + 1)
  }

  // ---------------------------------------------------------------------
  // The name pattern: the language
  // ---------------------------------------------------------------------

  /** Which character may follow which inside `[A-Z][a-z]+(?:\s[A-Z][a-z]+)+`. */
  predicate NameStep(prev: char, c: char) {
    (IsUpper(c) && IsPySpace(prev)) ||
    (IsLower(c) && (IsUpper(prev) || IsLower(prev))) ||
    (IsPySpace(c) && IsLower(prev))
  }

  /**
   * `s[i..k]` is in the language of the name pattern: two or more words, each
   * an upper-case letter followed by lower-case letters, with one whitespace
   * character between consecutive words.
   */
  predicate NameSpan(s: string, i: nat, k: nat) {
    i < k <= |s| && IsUpper(s[i]) && IsLower(s[k - 1]) &&
    (forall j :: i < j < k ==> NameStep(s[j - 1], s[j])) &&
    (exists j :: i < j < k && IsPySpace(s[j]))
  }

  /** The same language, on a whole string. */
  predicate IsNameText(t: string) {
    NameSpan(t, 0, |t|)
  }

  lemma NameSpanSlice(s: string, i: nat, k: nat)
    requires i <= k <= |s|
    ensures NameSpan(s, i, k) <==> IsNameText(s[i..k])
  {
  }

  // ---------------------------------------------------------------------
  // The name pattern: how the regex engine matches it
  // ---------------------------------------------------------------------

  /** Where the greedy `[a-z]+` (or `*`) that starts at `j` stops. */
  function LowerRunEnd(s: string, j: nat): (e: nat)
    requires j <= |s|
    decreases |s| - j
    ensures j <= e <= |s|
    ensures forall m :: j <= m < e ==> IsLower(s[m])
    ensures e < |s| ==> !IsLower(s[e])
  {
    if j < |s| && IsLower(s[j]) then LowerRunEnd(s, j + 1) else j
  }

  /** `[A-Z][a-z]+` can start at `i`. */
  predicate WordStartsAt(s: string, i: nat) {
    i + 1 < |s| && IsUpper(s[i]) && IsLower(s[i + 1])
  }

  /** Where the greedy word `[A-Z][a-z]+` that starts at `i` ends. */
  function WordEnd(s: string, i: nat): (e: nat)
    requires WordStartsAt(s, i)
    ensures i + 2 <= e <= |s|
  {
    LowerRunEnd(s, i + 1)
  }

  /** `\s[A-Z][a-z]+` can be matched at `e`. */
  predicate MoreWordAt(s: string, e: nat) {
    e < |s| && IsPySpace(s[e]) && WordStartsAt(s, e + 1)
  }

  /** Where the greedy `(?:\s[A-Z][a-z]+)*` that starts at `e` stops. */
  function ChainEnd(s: string, e: nat): (c: nat)
    requires e <= |s|
    decreases |s| - e
    ensures e <= c <= |s|
  {
    if MoreWordAt(s, e) then ChainEnd(s, WordEnd(s, e + 1)) else e
  }

  /**
   * Where the name pattern's match that starts at `i` ends, as Python's
   * backtracking engine finds it, or `None` when it has no match there.  A
   * match covers two words of at least two letters and the whitespace between
   * them, so it is at least five characters long.
   */
  function NameEndAt(s: string, i: nat): (r: Option<nat>)
    ensures r.Some? ==> i + 5 <= r.value <= |s|
    ensures r.Some? ==> IsUpper(s[i]) && IsLower(s[i + 1])
  {
    if WordStartsAt(s, i) && MoreWordAt(s, WordEnd(s, i)) then
      Some(ChainEnd(s, WordEnd(s, WordEnd(s, i) + 1)))
    else None
  }

  /** What the greedy chain consumes keeps to the language, and ends on a lower-case letter. */
  lemma {:induction false} ChainSound(s: string, i: nat, e: nat)
    requires i < e <= |s| && IsLower(s[e - 1])
    requires forall j :: i < j < e ==> NameStep(s[j - 1], s[j])
    ensures IsLower(s[ChainEnd(s, e) - 1])
    ensures forall j :: i < j < ChainEnd(s, e) ==> NameStep(s[j - 1], s[j])
    decreases |s| - e
  {
    if MoreWordAt(s, e) {
      var e' := WordEnd(s, e + 1);
      forall j | i < j < e' ensures NameStep(s[j - 1], s[j]) {
        if j == e + 1 {
          assert IsUpper(s[j]) && IsPySpace(s[j - 1]);
        } else if j > e + 1 {
          assert IsLower(s[j]);
        }
      }
      ChainSound(s, i, e');
    }
  }

  /** A longer span in the language cannot end inside the greedy chain. */
  lemma {:induction false} ChainLongest(s: string, i: nat, k: nat, e: nat)
    requires NameSpan(s, i, k)
    requires i < e <= k && IsLower(s[e - 1]) && (e < |s| ==> !IsLower(s[e]))
    ensures ChainEnd(s, e) >= k
    decreases |s| - e
  {
    if e < k {
      assert NameStep(s[e - 1], s[e]);
      assert IsPySpace(s[e]);
      assert e + 1 < k;
      assert NameStep(s[e], s[e + 1]);
      assert e + 2 < k;
      assert NameStep(s[e + 1], s[e + 2]);
      assert MoreWordAt(s, e);
      var e' := WordEnd(s, e + 1);
      if e' <= k {
        ChainLongest(s, i, k, e');
      }
    }
  }

  /** The engine's match at `i` is in the language. */
  lemma NameEndSound(s: string, i: nat)
    requires NameEndAt(s, i).Some?
    ensures NameSpan(s, i, NameEndAt(s, i).value)
  {
    var e1 := WordEnd(s, i);
    var e2 := WordEnd(s, e1 + 1);
    forall j | i < j < e2 ensures NameStep(s[j - 1], s[j]) {
      if j == e1 + 1 {
        assert IsUpper(s[j]) && IsPySpace(s[j - 1]);
      } else if j < e1 || j > e1 + 1 {
        assert IsLower(s[j]);
      }
    }
    ChainSound(s, i, e2);
    assert IsPySpace(s[e1]) && e1 < e2 <= ChainEnd(s, e2);
  }

  /**
   * Every span in the language that starts at `i` is found by the engine and
   * is no longer than its match: the greedy match is the longest one.
   */
  lemma NameEndLongest(s: string, i: nat, k: nat)
    requires NameSpan(s, i, k)
    ensures NameEndAt(s, i).Some? && NameEndAt(s, i).value >= k
  {
    assert NameStep(s[i], s[i + 1]);
    assert WordStartsAt(s, i);
    var e1 := WordEnd(s, i);
    var j :| i < j < k && IsPySpace(s[j]);
    assert e1 <= j;
    ChainLongest(s, i, k, e1);
    assert MoreWordAt(s, e1);
  }
}
