/** Text handling of the pipeline: the keyword tokenizer `clean_text`
    (`re.findall(r'\b[a-zA-Z]{3,}\b', text.lower())`), the word count of a
    sentence (`len(sent.split())`), substring search (`a in b`) and
    `" ".join(...)`. Characters outside ASCII are never word characters and
    are not case-mapped here (see README). */
module Text {

  /** The class `[a-zA-Z]` of the keyword pattern. */
  predicate IsLetter(c: char) {
    'a' <= c <= 'z' || 'A' <= c <= 'Z'
  }

  predicate IsUpper(c: char) {
    'A' <= c <= 'Z'
  }

  /** A word character for `\b`: letter, digit or underscore. */
  predicate IsWordChar(c: char) {
    IsLetter(c) || '0' <= c <= '9' || c == '_'
  }

  /** A keyword as `clean_text` can produce it: lowercase ASCII letters only. */
  predicate IsLowerWord(w: string) {
    forall k :: 0 <= k < |w| ==> 'a' <= w[k] <= 'z'
  }

  function LowerChar(c: char): char {
    if IsUpper(c) then (c as int + 32) as char else c
  }

  /** `str.lower()` on ASCII. */
  function Lower(s: string): string {
    seq(|s|, k requires 0 <= k < |s| => LowerChar(s[k]))
  }

  lemma LowerAppend(a: string, b: string)
    ensures Lower(a + b) == Lower(a) + Lower(b)
  {
    assert forall k :: 0 <= k < |a + b| ==> Lower(a + b)[k] == (Lower(a) + Lower(b))[k];
  }

  // ---------------------------------------------------------------------------
  // clean_text

  /** A match of the keyword pattern: a run of at least three letters that is
      a whole word of `t`, i.e. neither side touches another word character. */
  ghost predicate IsMatch(t: string, i: int, j: int) {
    && 0 <= i && i + 3 <= j <= |t|
    && (forall k :: i <= k < j ==> IsLetter(t[k]))
    && (i == 0 || !IsWordChar(t[i - 1]))
    && (j == |t| || !IsWordChar(t[j]))
  }

  /** The half-open span `[start, end)` of one match. */
  datatype Span = Span(start: nat, end: nat)

  /** `i` is not strictly inside a run of word characters. */
  predicate AtWordEdge(t: string, i: nat)
    requires i <= |t|
  {
    i == 0 || i == |t| || !IsWordChar(t[i - 1]) || !IsWordChar(t[i])
  }

  /** End of the run of word characters starting at `i`. */
  function WordEnd(t: string, i: nat): (j: nat)
    requires i <= |t|
    ensures i <= j <= |t|
    ensures forall k :: i <= k < j ==> IsWordChar(t[k])
    ensures j == |t| || !IsWordChar(t[j])
    decreases |t| - i
  {
    if i == |t| || !IsWordChar(t[i]) then i else WordEnd(t, i + 1)
  }

  predicate AllLetters(t: string, i: nat, j: nat)
    requires i <= j <= |t|
  {
    forall k :: i <= k < j ==> IsLetter(t[k])
  }

  /** The matches of the keyword pattern in `t[i..]`, scanned left to right
      the way `re.findall` does: at the start of every word, the whole word is
      taken if it is all letters and at least three long, and skipped otherwise. */
  function MatchSpans(t: string, i: nat): (spans: seq<Span>)
    requires i <= |t| && AtWordEdge(t, i)
    ensures forall k :: 0 <= k < |spans| ==> i <= spans[k].start && IsMatch(t, spans[k].start, spans[k].end)
    ensures forall k, l :: 0 <= k < l < |spans| ==> spans[k].end < spans[l].start
    decreases |t| - i
  {
    if i == |t| then []
    else if !IsWordChar(t[i]) then MatchSpans(t, i + 1)
    else
      var j := WordEnd(t, i);
      var rest := MatchSpans(t, j);
      if j - i >= 3 && AllLetters(t, i, j) then
        assert forall k :: 0 <= k < |rest| ==> j < rest[k].start by {
          forall k | 0 <= k < |rest| ensures j < rest[k].start {
            assert IsLetter(t[rest[k].start]);
          }
        }
        [Span(i, j)] + rest
      else rest
  }

  /** Every match of the pattern at or after a word edge is found by the scan. */
  lemma {:induction false} MatchSpansComplete(t: string, i: nat, a: int, b: int)
    requires i <= |t| && AtWordEdge(t, i)
    requires IsMatch(t, a, b) && i <= a
    ensures Span(a, b) in MatchSpans(t, i)
    decreases |t| - i
  {
    if i == |t| {
    } else if !IsWordChar(t[i]) {
      assert a != i;
      MatchSpansComplete(t, i + 1, a, b);
    } else {
      var j := WordEnd(t, i);
      if a == i {
        assert b == j;
      } else {
        MatchSpansComplete(t, j, a, b);
      }
    }
  }

  /** The spans of `clean_text(text)` in the lowered text. */
  function TokenSpans(text: string): seq<Span> {
    MatchSpans(Lower(text), 0)
  }

  /** `clean_text`: the keywords of `text`, lowercase, in source order. */
  function CleanText(text: string): (tokens: seq<string>)
    ensures forall k :: 0 <= k < |tokens| ==> |tokens[k]| >= 3 && IsLowerWord(tokens[k])
  {
    var t := Lower(text);
    var spans := MatchSpans(t, 0);
    seq(|spans|, k requires 0 <= k < |spans| => t[spans[k].start..spans[k].end])
  }

  /** `CleanText` is exactly `re.findall` of the keyword pattern on the lowered
      text: its tokens are the matches, in left-to-right order without overlap,
      and no match is missed. Since a match must be a whole word, a letter run
      glued to a digit or an underscore is never kept, not even in part. */
  lemma CleanTextIsFindall(text: string)
    ensures var t, spans := Lower(text), TokenSpans(text);
      && |CleanText(text)| == |spans|
      && (forall k :: 0 <= k < |spans| ==>
            IsMatch(t, spans[k].start, spans[k].end) && CleanText(text)[k] == t[spans[k].start..spans[k].end])
      && (forall k, l :: 0 <= k < l < |spans| ==> spans[k].end < spans[l].start)
      && (forall a, b :: IsMatch(t, a, b) ==> Span(a, b) in spans)
  {
    var t := Lower(text);
    forall a, b | IsMatch(t, a, b) ensures Span(a, b) in TokenSpans(text) {
      MatchSpansComplete(t, 0, a, b);
    }
  }

  // ---------------------------------------------------------------------------
  // str.split()

  /** Python's `str.isspace()` for one character: the separators of `str.split()`. */
  predicate IsSpace(c: char) {
    var n := c as int;
    || 9 <= n <= 13 || 0x1C <= n <= 0x20 || n == 0x85 || n == 0xA0 || n == 0x1680
    || 0x2000 <= n <= 0x200A || n == 0x2028 || n == 0x2029 || n == 0x202F
    || n == 0x205F || n == 0x3000
  }

  predicate NoSpace(w: string) {
    forall k :: 0 <= k < |w| ==> !IsSpace(w[k])
  }

  /** Length of the leading run of non-whitespace characters. */
  function RunLength(s: string): (n: nat)
    ensures n <= |s|
    ensures forall k :: 0 <= k < n ==> !IsSpace(s[k])
    ensures n == |s| || IsSpace(s[n])
  {
    if s == [] || IsSpace(s[0]) then 0 else 1 + RunLength(s[1..])
  }

  /** `s.split()`: the maximal runs of non-whitespace characters. */
  function SplitWords(s: string): (words: seq<string>)
    ensures forall k :: 0 <= k < |words| ==> words[k] != [] && NoSpace(words[k])
    decreases |s|
  {
    if s == [] then []
    else if IsSpace(s[0]) then SplitWords(s[1..])
    else
      var n := RunLength(s);
      [s[..n]] + SplitWords(s[n..])
  }

  function WordCount(s: string): nat {
    |SplitWords(s)|
  }

  /** Number of positions where a word begins: a non-whitespace character at
      the start, or right after whitespace (`afterSpace` says whether the
      character before `s` was whitespace or absent). */
  function WordStarts(s: string, afterSpace: bool): nat {
    if s == [] then 0
    else (if afterSpace && !IsSpace(s[0]) then 1 else 0) + WordStarts(s[1..], IsSpace(s[0]))
  }

  lemma WordStartsAtSpace(s: string, b: bool)
    requires s == [] || IsSpace(s[0])
    ensures WordStarts(s, b) == WordStarts(s, true)
  {
  }

  lemma {:induction false} WordStartsInsideRun(s: string, m: nat, n: nat)
    requires 1 <= m <= n <= |s|
    requires forall k :: 0 <= k < n ==> !IsSpace(s[k])
    ensures WordStarts(s[m..], false) == WordStarts(s[n..], false)
    decreases n - m
  {
    if m < n {
      assert s[m..][1..] == s[m + 1..];
      WordStartsInsideRun(s, m + 1, n);
    }
  }

  /** The word count of `str.split()` is the number of word starts. */
  lemma {:induction false} WordCountIsWordStarts(s: string)
    ensures WordCount(s) == WordStarts(s, true)
    decreases |s|
  {
    if s == [] {
    } else if IsSpace(s[0]) {
      WordCountIsWordStarts(s[1..]);
    } else {
      var n := RunLength(s);
      WordCountIsWordStarts(s[n..]);
      WordStartsInsideRun(s, 1, n);
      WordStartsAtSpace(s[n..], false);
    }
  }

  // ---------------------------------------------------------------------------
  // substring search and join

  predicate IsPrefix(p: string, s: string) {
    |p| <= |s| && s[..|p|] == p
  }

  /** Python's `sub in s`. */
  predicate Contains(s: string, sub: string)
    decreases |s|
  {
    IsPrefix(sub, s) || (s != [] && Contains(s[1..], sub))
  }

  /** `sub` occurs in `s` at position `k`. */
  ghost predicate OccursAt(s: string, sub: string, k: int) {
    0 <= k <= |s| - |sub| && s[k..k + |sub|] == sub
  }

  /** `Contains` holds exactly when `sub` occurs at some position of `s`. */
  lemma {:induction false} ContainsIff(s: string, sub: string)
    ensures Contains(s, sub) <==> exists k :: OccursAt(s, sub, k)
    decreases |s|
  {
    if s == [] {
      if exists k :: OccursAt(s, sub, k) {
        var k :| OccursAt(s, sub, k);
        assert IsPrefix(sub, s);
      }
      if IsPrefix(sub, s) {
        assert OccursAt(s, sub, 0);
      }
    } else {
      ContainsIff(s[1..], sub);
      if exists k :: OccursAt(s, sub, k) {
        var k :| OccursAt(s, sub, k);
        if k > 0 {
          assert OccursAt(s[1..], sub, k - 1);
        }
      }
      if Contains(s[1..], sub) {
        var k :| OccursAt(s[1..], sub, k);
        assert OccursAt(s, sub, k + 1);
      }
      if IsPrefix(sub, s) {
        assert OccursAt(s, sub, 0);
      }
    }
  }

  /** A string starting with `p` contains `p`. */
  lemma PrefixContained(p: string, rest: string)
    ensures Contains(p + rest, p)
  {
    assert (p + rest)[..|p|] == p;
  }

  /** Python's `" ".join(parts)`. */
  function JoinWithSpace(parts: seq<string>): string {
    if parts == [] then ""
    else if |parts| == 1 then parts[0]
    else parts[0] + " " + JoinWithSpace(parts[1..])
  }
}
