/**
 The word counter: the number of matches, searching globally, of a pattern
 with two alternatives, one ideograph or one greedy run of word characters.
 Each ideograph of the block U+4E00..U+9FA5 is one word, each maximal run of
 ASCII letters, digits and underscores is one word, and every other character
 is skipped.
 */
module WordCount {

  /** One character of the range U+4E00..U+9FA5. */
  predicate IsIdeograph(c: char)
  {
    '\U{4E00}' <= c <= '\U{9FA5}'
  }

  /** An ASCII letter, an ASCII digit or the underscore. */
  predicate IsWordChar(c: char)
  {
    ('a' <= c <= 'z') || ('A' <= c <= 'Z') || ('0' <= c <= '9') || c == '_'
  }

  /**
   Scans `text` left to right counting matches. `inRun` says that the
   character before `text` was a word character, so a word character at the
   front continues the current (greedy) run instead of starting a match.
   */
  function Scan(text: string, inRun: bool): (n: nat)
    ensures n <= |text|
  {
    if text == [] then 0
    else if IsIdeograph(text[0]) then 1 + Scan(text[1..], false)
    else if IsWordChar(text[0]) then (if inRun then 0 else 1) + Scan(text[1..], true)
    else Scan(text[1..], false)
  }

  /** `countWords(text)`: the length of the match array, or 0 when there is no match. */
  function CountWords(text: string): (n: nat)
    ensures n <= |text|
  {
    Scan(text, false)
  }

  /**
   Position `i` of `text` is where a match begins: an ideograph, or a word
   character not preceded by a word character.
   */
  predicate MatchStart(text: string, i: nat)
    requires i < |text|
  {
    IsIdeograph(text[i]) || (IsWordChar(text[i]) && (i == 0 || !IsWordChar(text[i - 1])))
  }

  /** The positions below `k` where a match begins. */
  function StartsBelow(text: string, k: nat): set<nat>
    requires k <= |text|
  {
    set i: nat | i < k && MatchStart(text, i)
  }

  /** All positions of `text` where a match begins. */
  function MatchStarts(text: string): set<nat>
  {
    StartsBelow(text, |text|)
  }

  lemma {:induction false} ScanCountsStarts(text: string, k: nat)
    requires k <= |text|
    ensures Scan(text[k..], k > 0 && IsWordChar(text[k - 1])) + |StartsBelow(text, k)| == |MatchStarts(text)|
    decreases |text| - k
  {
    if k < |text| {
      assert text[k..][0] == text[k];
      assert text[k..][1..] == text[k + 1..];
      var extra: set<nat> := if MatchStart(text, k) then {k} else {};
      assert StartsBelow(text, k + 1) == StartsBelow(text, k) + extra;
      ScanCountsStarts(text, k + 1);
    } else {
      assert text[k..] == [];
    }
  }

  /** The scanner counts exactly the positions where a match begins. */
  lemma CountWordsIsMatchStarts(text: string)
    ensures CountWords(text) == |MatchStarts(text)|
  {
    ScanCountsStarts(text, 0);
    assert text[0..] == text;
  }

  /** A text with no ideograph and no `[A-Za-z0-9_]` character (the empty text among them) counts 0. */
  lemma NoMatchNoWords(text: string)
    requires forall i :: 0 <= i < |text| ==> !IsIdeograph(text[i]) && !IsWordChar(text[i])
    ensures CountWords(text) == 0
  {
    CountWordsIsMatchStarts(text);
    assert MatchStarts(text) == {};
  }

  lemma {:induction false} ScanIdeographs(text: string, inRun: bool)
    requires forall i :: 0 <= i < |text| ==> IsIdeograph(text[i])
    ensures Scan(text, inRun) == |text|
  {
    if text != [] {
      ScanIdeographs(text[1..], false);
    }
  }

  /** Every ideograph is a word of its own, so a text of `k` ideographs counts `k`. */
  lemma IdeographsCountEach(text: string)
    requires forall i :: 0 <= i < |text| ==> IsIdeograph(text[i])
    ensures CountWords(text) == |text|
  {
    ScanIdeographs(text, false);
  }

  lemma {:induction false} ScanInsideRun(text: string)
    requires forall i :: 0 <= i < |text| ==> IsWordChar(text[i])
    ensures Scan(text, true) == 0
  {
    if text != [] {
      ScanInsideRun(text[1..]);
    }
  }

  /** A run of `[A-Za-z0-9_]` characters is one word, whatever its length. */
  lemma WordRunCountsOnce(text: string)
    requires |text| > 0
    requires forall i :: 0 <= i < |text| ==> IsWordChar(text[i])
    ensures CountWords(text) == 1
  {
    ScanInsideRun(text[1..]);
  }

  /** Whether the scan is inside a word run after reading `text`, having started with `inRun`. */
  function EndsInRun(text: string, inRun: bool): bool
  {
    if text == [] then inRun else IsWordChar(text[|text| - 1])
  }

  lemma {:induction false} ScanConcat(a: string, b: string, inRun: bool)
    ensures Scan(a + b, inRun) == Scan(a, inRun) + Scan(b, EndsInRun(a, inRun))
  {
    if a == [] {
      assert a + b == b;
    } else {
      assert (a + b)[0] == a[0];
      assert (a + b)[1..] == a[1..] + b;
      var next := IsWordChar(a[0]) && !IsIdeograph(a[0]);
      ScanConcat(a[1..], b, next);
      assert EndsInRun(a[1..], next) == EndsInRun(a, inRun);
    }
  }

  lemma ScanJoinsRun(b: string)
    ensures Scan(b, false) == Scan(b, true) + (if b != [] && IsWordChar(b[0]) && !IsIdeograph(b[0]) then 1 else 0)
  {
  }

  /**
   Counting a concatenation: the counts of the two parts add up, except that
   a word run ending `a` and a word run starting `b` join into one word.
   */
  lemma CountWordsConcat(a: string, b: string)
    ensures CountWords(a + b) ==
      CountWords(a) + CountWords(b)
      - (if a != [] && b != [] && IsWordChar(a[|a| - 1]) && IsWordChar(b[0]) then 1 else 0)
  {
    ScanConcat(a, b, false);
    ScanJoinsRun(b);
  }
}
