/**
 * The tokenizer of the agent's message dispatcher (main.py, line 39):
 * `user_msg.replace(',', ' ').split()`. Commas become spaces, then the
 * string is cut into the maximal runs of non-whitespace characters, as
 * Python's argument-less `str.split()` does.
 */
module Tokenizer {

  /** The characters Python's argument-less `str.split()` treats as whitespace. */
  predicate IsSpace(c: char) {
    c == ' ' || c == '\t' || c == '\n' || c == '\r'
    || c == '\U{0B}' || c == '\U{0C}'
    || ('\U{1C}' <= c <= '\U{1F}')
    || c == '\U{85}' || c == '\U{A0}' || c == '\U{1680}'
    || ('\U{2000}' <= c <= '\U{200A}')
    || c == '\U{2028}' || c == '\U{2029}' || c == '\U{202F}'
    || c == '\U{205F}' || c == '\U{3000}'
  }

  /** A string without whitespace. */
  predicate NoSpace(w: string) {
    forall i :: 0 <= i < |w| ==> !IsSpace(w[i])
  }

  /** A token as `split()` can produce it: non-empty, without whitespace. */
  predicate IsWord(w: string) {
    w != [] && NoSpace(w)
  }

  /**
   * Scans `s` left to right; `word` is the run of non-whitespace
   * characters read so far and not yet emitted.
   */
  function SplitFrom(s: string, word: string): (r: seq<string>)
    requires NoSpace(word)
    ensures forall k :: 0 <= k < |r| ==> IsWord(r[k])
    ensures forall k, c :: 0 <= k < |r| && c in r[k] ==> c in word || c in s
    decreases |s|
  {
    if s == [] then
      if word == [] then [] else [word]
    else
      assert forall c :: c in s[1..] ==> c in s;
      if IsSpace(s[0]) then
        (if word == [] then [] else [word]) + SplitFrom(s[1..], [])
      else
        SplitFrom(s[1..], word + [s[0]])
  }

  /** Python's `s.split()`: the whitespace-separated tokens of `s`, in order. */
  function Split(s: string): (r: seq<string>)
    ensures forall k :: 0 <= k < |r| ==> IsWord(r[k])
    ensures forall k, c :: 0 <= k < |r| && c in r[k] ==> c in s
  {
    SplitFrom(s, [])
  }

  /** Python's `s.replace(',', ' ')`. */
  function ReplaceCommas(s: string): (r: string)
    ensures |r| == |s| && ',' !in r
    ensures forall i :: 0 <= i < |s| ==> r[i] == (if s[i] == ',' then ' ' else s[i])
  {
    seq(|s|, i requires 0 <= i < |s| => if s[i] == ',' then ' ' else s[i])
  }

  /** The token list of line 39: every token is a non-empty run without whitespace or comma. */
  function Tokenize(msg: string): (r: seq<string>)
    ensures forall k :: 0 <= k < |r| ==> IsWord(r[k]) && ',' !in r[k]
  {
    Split(ReplaceCommas(msg))
  }

  /** `words` written out with `sep` between consecutive words. */
  function Join(words: seq<string>, sep: char): (r: string)
  {
    if words == [] then []
    else if |words| == 1 then words[0]
    else words[0] + [sep] + Join(words[1..], sep)
  }

  lemma JoinCons(w: string, words: seq<string>, sep: char)
    requires words != []
    ensures Join([w] + words, sep) == w + [sep] + Join(words, sep)
  {
    assert ([w] + words)[1..] == words;
  }

  /** A whitespace character ends the current run; what follows is split afresh. */
  lemma {:induction false} SplitFromSeparator(a: string, c: char, b: string, word: string)
    requires NoSpace(word) && IsSpace(c)
    ensures SplitFrom(a + [c] + b, word) == SplitFrom(a, word) + Split(b)
    decreases |a|
  {
    var s := a + [c] + b;
    if a == [] {
      assert s[0] == c && s[1..] == b;
    } else {
      assert s[0] == a[0] && s[1..] == a[1..] + [c] + b;
      if IsSpace(a[0]) {
        SplitFromSeparator(a[1..], c, b, []);
      } else {
        SplitFromSeparator(a[1..], c, b, word + [a[0]]);
      }
    }
  }

  /** A run without whitespace is emitted whole. */
  lemma {:induction false} SplitFromRun(w: string, word: string)
    requires NoSpace(word) && NoSpace(w)
    ensures SplitFrom(w, word) == if word + w == [] then [] else [word + w]
    decreases |w|
  {
    if w == [] {
      assert word + w == word;
    } else {
      assert word + w == (word + [w[0]]) + w[1..];
      SplitFromRun(w[1..], word + [w[0]]);
    }
  }

  /** `split()` of two pieces glued by one whitespace character is the two splits, concatenated. */
  lemma SplitSeparator(a: string, c: char, b: string)
    requires IsSpace(c)
    ensures Split(a + [c] + b) == Split(a) + Split(b)
  {
    SplitFromSeparator(a, c, b, []);
  }

  /** A single word splits to itself. */
  lemma SplitWord(w: string)
    requires IsWord(w)
    ensures Split(w) == [w]
  {
    SplitFromRun(w, []);
    assert [] + w == w;
  }

  lemma {:induction false} ReplaceCommasAppend(a: string, b: string)
    ensures ReplaceCommas(a + b) == ReplaceCommas(a) + ReplaceCommas(b)
  {
    var l, r := ReplaceCommas(a + b), ReplaceCommas(a) + ReplaceCommas(b);
    assert |l| == |r|;
    forall i | 0 <= i < |l| ensures l[i] == r[i] {
      if i < |a| { assert (a + b)[i] == a[i]; } else { assert (a + b)[i] == b[i - |a|]; }
    }
  }

  /**
   * A comma separates tokens exactly as whitespace does: the message
   * splits at it into the tokens before and the tokens after.
   */
  lemma TokenizeSeparator(a: string, c: char, b: string)
    requires c == ',' || IsSpace(c)
    ensures Tokenize(a + [c] + b) == Tokenize(a) + Tokenize(b)
  {
    ReplaceCommasAppend(a + [c], b);
    ReplaceCommasAppend(a, [c]);
    assert ReplaceCommas([c]) == [if c == ',' then ' ' else c];
    SplitSeparator(ReplaceCommas(a), if c == ',' then ' ' else c, ReplaceCommas(b));
  }

  /** A word without commas is one token. */
  lemma TokenizeWord(w: string)
    requires IsWord(w) && ',' !in w
    ensures Tokenize(w) == [w]
  {
    assert ReplaceCommas(w) == w;
    SplitWord(w);
  }

  /**
   * Joining comma-free words with a comma or with whitespace and
   * tokenizing gives back exactly those words.
   */
  lemma {:induction false} TokenizeJoin(words: seq<string>, sep: char)
    requires sep == ',' || IsSpace(sep)
    requires forall k :: 0 <= k < |words| ==> IsWord(words[k]) && ',' !in words[k]
    ensures Tokenize(Join(words, sep)) == words
    decreases |words|
  {
    if words == [] {
      assert ReplaceCommas([]) == [];
    } else if |words| == 1 {
      TokenizeWord(words[0]);
    } else {
      TokenizeSeparator(words[0], sep, Join(words[1..], sep));
      TokenizeWord(words[0]);
      TokenizeJoin(words[1..], sep);
    }
  }

  /** `"1,2,3"` and `"1 2 3"` give the same tokens: commas and spaces are interchangeable. */
  lemma CommaOrSpaceJoin(words: seq<string>)
    requires forall k :: 0 <= k < |words| ==> IsWord(words[k]) && ',' !in words[k]
    ensures Tokenize(Join(words, ',')) == Tokenize(Join(words, ' ')) == words
  {
    TokenizeJoin(words, ',');
    TokenizeJoin(words, ' ');
  }

  /** Re-tokenizing the tokens joined by single spaces reproduces them. */
  lemma TokenizeStable(msg: string)
    ensures Tokenize(Join(Tokenize(msg), ' ')) == Tokenize(msg)
  {
    TokenizeJoin(Tokenize(msg), ' ');
  }
}
