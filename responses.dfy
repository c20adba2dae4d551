/**
 * The two fixed reply templates of the dispatcher (main.py, lines 45-56):
 * the crop-prediction reply and the wrong-count reply. Each comes with a
 * reader that recovers what was embedded in it, which shows that the
 * template loses nothing.
 */
module Responses {
  import opened Wrappers
  import opened NumericToken

  function DigitValue(c: char): (d: nat)
    requires IsAsciiDigit(c)
    ensures d < 10
  {
    c as int - '0' as int
  }

  function DigitChar(d: nat): (c: char)
    requires d < 10
    ensures IsAsciiDigit(c) && DigitValue(c) == d
  {
    ('0' as int + d) as char
  }

  /** Python's `str(n)` for a non-negative `int`: its decimal digits, without leading zeros. */
  function DecimalString(n: nat): (r: string)
    ensures IsDigits(r)
    ensures r[0] == '0' ==> r == "0"
    ensures n < 10 <==> |r| == 1
  {
    if n < 10 then [DigitChar(n)]
    else
      var r := DecimalString(n / 10) + [DigitChar(n % 10)];
      assert r[0] == DecimalString(n / 10)[0];
      r
  }

  /** The value of a run of decimal digits, most significant first. */
  function DecimalValue(s: string): nat
    requires AllDigits(s)
  {
    if s == [] then 0 else DecimalValue(s[..|s| - 1]) * 10 + DigitValue(s[|s| - 1])
  }

  /** Reading back the decimal rendering gives the number. */
  lemma {:induction false} DecimalRoundTrip(n: nat)
    ensures DecimalValue(DecimalString(n)) == n
  {
    var r := DecimalString(n);
    if n >= 10 {
      DecimalRoundTrip(n / 10);
      assert r[..|r| - 1] == DecimalString(n / 10);
    }
  }

  const PredictionHead := "The predicted crop is **"
  const PredictionClose := "**."
  const Advice := "\n- Optimal sowing time\n- Irrigation schedule\n- Fertilizer recommendations\n- Pest management tips\n\nAsk me for more details on any step!"
  const PredictionTail := PredictionClose + Advice

  /** Reads the crop label out of a prediction reply, if `text` is one. */
  function LabelIn(text: string): Option<string>
  {
    if |text| >= |PredictionHead| + |PredictionTail|
       && text[..|PredictionHead|] == PredictionHead
       && text[|text| - |PredictionTail|..] == PredictionTail
    then Some(text[|PredictionHead|..|text| - |PredictionTail|])
    else None
  }

  /**
   * The reply on the seven-feature path (lines 45-52): it opens with
   * "The predicted crop is **<crop>**." and carries the crop so that it
   * can be read back.
   */
  function PredictionText(crop: string): (r: string)
    ensures |r| == |PredictionHead| + |crop| + |PredictionTail|
    ensures r[..|PredictionHead| + |crop| + 3] == PredictionHead + crop + PredictionClose
    ensures LabelIn(r) == Some(crop)
  {
    var r := PredictionHead + crop + PredictionTail;
    assert r[..|PredictionHead|] == PredictionHead;
    assert r[|r| - |PredictionTail|..] == PredictionTail;
    assert r[|PredictionHead|..|r| - |PredictionTail|] == crop;
    assert PredictionTail[..3] == PredictionClose;
    assert r[..|PredictionHead| + |crop| + 3] == PredictionHead + crop + PredictionTail[..3];
    r
  }

  // `RepliesDistinct` needs `CountHead[0] == 'P'`, which the verifier reads
  // off the short first piece more readily than off one long literal
  const CountHead := "Please" + " provide exactly 7 numeric features for prediction; you provided "

  /** Reads the reported count out of a wrong-count reply, if `text` is one. */
  function CountIn(text: string): Option<nat>
  {
    if |text| >= |CountHead| + 1
       && text[..|CountHead|] == CountHead
       && text[|text| - 1] == '.'
       && IsDigits(text[|CountHead|..|text| - 1])
    then Some(DecimalValue(text[|CountHead|..|text| - 1]))
    else None
  }

  /** The reply on the wrong-count path (line 56); the count can be read back from it. */
  function CountText(n: nat): (r: string)
    ensures |r| > |CountHead| && r[..|CountHead|] == CountHead && r[|r| - 1] == '.'
    ensures CountIn(r) == Some(n)
  {
    var digits := DecimalString(n);
    var r := CountHead + digits + ".";
    assert r[..|CountHead|] == CountHead;
    assert r[|CountHead|..|r| - 1] == digits;
    DecimalRoundTrip(n);
    r
  }

  /** No reply of one kind can be mistaken for one of the other. */
  lemma RepliesDistinct(crop: string, n: nat)
    ensures LabelIn(CountText(n)) == None && CountIn(PredictionText(crop)) == None
    ensures PredictionText(crop) != CountText(n)
  {
    var p, c := PredictionText(crop), CountText(n);
    assert p[0] == PredictionHead[0] == 'T' by { assert p[..|PredictionHead|] == PredictionHead; }
    assert c[0] == CountHead[0] == 'P' by { assert c[..|CountHead|] == CountHead; }
  }
}
