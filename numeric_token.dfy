/**
 * The numeric-token test of line 39 of main.py,
 * `s.replace('.', '', 1).isdigit()`, and the comprehension that keeps the
 * tokens passing it. Token values are never converted: the dispatcher only
 * counts them and hands them to the classifier as they are.
 */
module NumericToken {

  /** `str.isdigit` on one character, restricted to the ASCII digits. */
  predicate IsAsciiDigit(c: char) {
    '0' <= c <= '9'
  }

  predicate AllDigits(s: string) {
    forall i :: 0 <= i < |s| ==> IsAsciiDigit(s[i])
  }

  /** `str.isdigit()`: at least one character, and every character a digit. */
  predicate IsDigits(s: string) {
    s != [] && AllDigits(s)
  }

  /** `s.replace('.', '', 1)`: the first `.`, if any, is deleted; nothing else changes. */
  function RemoveFirstDot(s: string): (r: string)
    ensures '.' !in s ==> r == s
    ensures '.' in s ==> |r| == |s| - 1
  {
    if s == [] then []
    else if s[0] == '.' then s[1..]
    else
      assert '.' !in s ==> '.' !in s[1..] && s == [s[0]] + s[1..];
      [s[0]] + RemoveFirstDot(s[1..])
  }

  /** Position of the first `.` in `s`. */
  function FirstDot(s: string): (i: nat)
    requires '.' in s
    ensures i < |s| && s[i] == '.' && '.' !in s[..i]
  {
    if s[0] == '.' then 0
    else
      assert s == [s[0]] + s[1..];
      var j := FirstDot(s[1..]);
      assert s[..j + 1] == [s[0]] + s[1..][..j];
      j + 1
  }

  /** Deleting the first `.` of `a + "." + b`, where `a` has none, leaves `a + b`. */
  lemma {:induction false} RemoveFirstDotAt(a: string, b: string)
    requires '.' !in a
    ensures RemoveFirstDot(a + ['.'] + b) == a + b
    decreases |a|
  {
    var s := a + ['.'] + b;
    if a == [] {
      assert s[0] == '.' && s[1..] == b;
    } else {
      assert s[0] == a[0] && s[1..] == a[1..] + ['.'] + b;
      assert '.' !in a[1..] by { assert forall c :: c in a[1..] ==> c in a; }
      RemoveFirstDotAt(a[1..], b);
      assert a + b == [a[0]] + (a[1..] + b);
    }
  }

  lemma AllDigitsAppend(a: string, b: string)
    ensures AllDigits(a + b) <==> AllDigits(a) && AllDigits(b)
  {
    if AllDigits(a) && AllDigits(b) {
      forall j | 0 <= j < |a + b| ensures IsAsciiDigit((a + b)[j]) {
        if j < |a| { assert (a + b)[j] == a[j]; } else { assert (a + b)[j] == b[j - |a|]; }
      }
    }
    if AllDigits(a + b) {
      forall j | 0 <= j < |b| ensures IsAsciiDigit(b[j]) { assert (a + b)[|a| + j] == b[j]; }
      forall j | 0 <= j < |a| ensures IsAsciiDigit(a[j]) { assert (a + b)[j] == a[j]; }
    }
  }

  /** Line 39's test: a token counts as numeric when deleting its first `.` leaves only digits. */
  predicate IsNumericToken(s: string) {
    IsDigits(RemoveFirstDot(s))
  }

  /** A token with a `.` after a dot-free prefix `a` is numeric exactly when `a` and `b` are digit runs, not both empty. */
  lemma NumericTokenWithDot(a: string, b: string)
    requires '.' !in a
    ensures IsNumericToken(a + ['.'] + b) <==> AllDigits(a) && AllDigits(b) && |a| + |b| >= 1
  {
    RemoveFirstDotAt(a, b);
    AllDigitsAppend(a, b);
  }

  /**
   * The same set of tokens described directly: an unsigned integer, or
   * two (possibly empty) digit runs around one `.` that are not both empty.
   */
  predicate IsPlainDecimal(s: string) {
    IsDigits(s)
    || (|s| >= 2 && exists i :: 0 <= i < |s| && s[i] == '.' && AllDigits(s[..i]) && AllDigits(s[i + 1..]))
  }

  lemma NumericTokenIsPlainDecimal(s: string)
    ensures IsNumericToken(s) <==> IsPlainDecimal(s)
  {
    if '.' in s {
      var i := FirstDot(s);
      var a, b := s[..i], s[i + 1..];
      assert s == a + ['.'] + b;
      NumericTokenWithDot(a, b);
      assert !IsDigits(s) by { assert !IsAsciiDigit(s[i]); }
      if IsPlainDecimal(s) {
        var k :| 0 <= k < |s| && s[k] == '.' && AllDigits(s[..k]) && AllDigits(s[k + 1..]);
        assert '.' !in s[..k] && '.' !in s[..i];
        assert k == i;
      }
    }
  }

  /** The accepted shapes: integers, decimals, and a `.` at either end. */
  lemma NumericTokenAccepts()
    ensures IsNumericToken("12") && IsNumericToken("6.5") && IsNumericToken("1.") && IsNumericToken(".5")
  {
    assert "6.5" == "6" + ['.'] + "5";
    NumericTokenWithDot("6", "5");
    assert "1." == "1" + ['.'] + "";
    NumericTokenWithDot("1", "");
    assert ".5" == "" + ['.'] + "5";
    NumericTokenWithDot("", "5");
  }

  /** The rejected shapes: a sign, an exponent, two dots, a lone dot, nothing. */
  lemma NumericTokenRejects()
    ensures !IsNumericToken("-3") && !IsNumericToken("1e5") && !IsNumericToken("1.2.3")
    ensures !IsNumericToken(".") && !IsNumericToken("")
  {
    assert !IsAsciiDigit("-3"[0]);
    assert !IsAsciiDigit("1e5"[1]);
    assert "1.2.3" == "1" + ['.'] + "2.3";
    NumericTokenWithDot("1", "2.3");
    assert !IsAsciiDigit("2.3"[1]);
    assert "." == "" + ['.'] + "";
    NumericTokenWithDot("", "");
  }

  /** A token that opens with anything but a digit or a `.` is not numeric. */
  lemma NotNumericByFirst(s: string)
    requires s != [] && !IsAsciiDigit(s[0]) && s[0] != '.'
    ensures !IsNumericToken(s)
  {
    assert RemoveFirstDot(s)[0] == s[0];
  }

  /** `[... for s in tokens if <numeric>]`: the numeric tokens, in their original order. */
  function NumericTokens(tokens: seq<string>): (r: seq<string>)
    ensures |r| <= |tokens|
    ensures forall k :: 0 <= k < |r| ==> IsNumericToken(r[k]) && r[k] in tokens
    ensures forall k :: 0 <= k < |tokens| && IsNumericToken(tokens[k]) ==> tokens[k] in r
  {
    if tokens == [] then []
    else
      assert forall t :: t in tokens[1..] ==> t in tokens;
      assert forall k :: 1 <= k < |tokens| ==> tokens[k] == tokens[1..][k - 1];
      (if IsNumericToken(tokens[0]) then [tokens[0]] else []) + NumericTokens(tokens[1..])
  }

  /** Filtering distributes over concatenation, so the kept tokens keep their order. */
  lemma {:induction false} NumericTokensAppend(a: seq<string>, b: seq<string>)
    ensures NumericTokens(a + b) == NumericTokens(a) + NumericTokens(b)
    decreases |a|
  {
    if a != [] {
      assert (a + b)[0] == a[0] && (a + b)[1..] == a[1..] + b;
      NumericTokensAppend(a[1..], b);
    } else {
      assert a + b == b;
    }
  }

  /** Nothing is dropped exactly when every token is numeric. */
  lemma {:induction false} NumericTokensKeepsAll(tokens: seq<string>)
    ensures NumericTokens(tokens) == tokens <==> forall k :: 0 <= k < |tokens| ==> IsNumericToken(tokens[k])
    decreases |tokens|
  {
    if tokens != [] {
      var rest := tokens[1..];
      NumericTokensKeepsAll(rest);
      assert tokens == [tokens[0]] + rest;
      if !IsNumericToken(tokens[0]) {
        assert NumericTokens(tokens) == NumericTokens(rest);
        assert |NumericTokens(tokens)| < |tokens|;
      } else {
        assert NumericTokens(tokens) == [tokens[0]] + NumericTokens(rest);
        assert (forall k :: 0 <= k < |tokens| ==> IsNumericToken(tokens[k]))
          <==> (forall k :: 0 <= k < |rest| ==> IsNumericToken(rest[k])) by {
          assert forall k :: 1 <= k < |tokens| ==> tokens[k] == rest[k - 1];
        }
      }
    }
  }

  /** Nothing is kept exactly when no token is numeric. */
  lemma NumericTokensNone(tokens: seq<string>)
    ensures NumericTokens(tokens) == [] <==> forall k :: 0 <= k < |tokens| ==> !IsNumericToken(tokens[k])
  {
  }
}
