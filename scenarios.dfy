/**
 * The dispatcher on four example messages: a seven-feature
 * message, the same features separated by commas, a message with too few
 * features, and a free-text question.
 */
module Scenarios {
  import opened Tokenizer
  import opened NumericToken
  import opened Responses
  import opened ChatProxy
  import opened Agent

  /** Printable ASCII other than the comma: a cheap sufficient test for a token. */
  predicate Plain(w: string) {
    w != [] && forall i :: 0 <= i < |w| ==> '!' <= w[i] <= '~' && w[i] != ','
  }

  /** A message that is plain `words` joined by one separator has the numeric ones among `words` as its features. */
  lemma NumsOfJoin(msg: string, words: seq<string>, sep: char)
    requires sep == ',' || IsSpace(sep)
    requires forall k :: 0 <= k < |words| ==> Plain(words[k])
    requires Join(words, sep) == msg
    ensures Nums(msg) == NumericTokens(words)
  {
    forall k | 0 <= k < |words| ensures IsWord(words[k]) && ',' !in words[k] {
      assert Plain(words[k]);
    }
    TokenizeJoin(words, sep);
  }

  /** Every token of `words` is a run of digits, so all of them are kept. */
  lemma DigitRuns(words: seq<string>)
    requires forall k :: 0 <= k < |words| ==> IsDigits(words[k])
    ensures forall k :: 0 <= k < |words| ==> Plain(words[k])
    ensures NumericTokens(words) == words
  {
    NumericTokensKeepsAll(words);
  }

  // For each message, `...Spelled` writes it as its words and separators,
  // and `...Joined` shows that `Join` of the words gives that same spelling.
  lemma SevenFeatureSpelled()
    ensures "120 40 20 6.5 200 80 15" == "120" + [' '] + ("40" + [' '] + ("20" + [' '] + ("6.5" + [' '] + ("200" + [' '] + ("80" + [' '] + "15")))))
  {
  }

  lemma SevenFeatureJoined()
    ensures Join(["120", "40", "20", "6.5", "200", "80", "15"], ' ') == "120" + [' '] + ("40" + [' '] + ("20" + [' '] + ("6.5" + [' '] + ("200" + [' '] + ("80" + [' '] + "15")))))
  {
    JoinCons("80", ["15"], ' ');
    JoinCons("200", ["80", "15"], ' ');
    JoinCons("6.5", ["200", "80", "15"], ' ');
    JoinCons("20", ["6.5", "200", "80", "15"], ' ');
    JoinCons("40", ["20", "6.5", "200", "80", "15"], ' ');
    JoinCons("120", ["40", "20", "6.5", "200", "80", "15"], ' ');
  }

  lemma SevenFeaturePlain()
    ensures forall k :: 0 <= k < 7 ==> Plain(["120", "40", "20", "6.5", "200", "80", "15"][k])
  {
  }

  lemma SevenFeatureWords()
    ensures NumericTokens(["120", "40", "20", "6.5", "200", "80", "15"]) == ["120", "40", "20", "6.5", "200", "80", "15"]
  {
    var words := ["120", "40", "20", "6.5", "200", "80", "15"];
    forall k | 0 <= k < 7 ensures IsNumericToken(words[k]) {
      if k == 3 { NumericTokenAccepts(); } else { assert IsDigits(words[k]); }
    }
    NumericTokensKeepsAll(words);
  }

  /** "120 40 20 6.5 200 80 15": all seven tokens, in order, reach the classifier, and the history stays as it was. */
  lemma SevenFeatureScenario(history: seq<Turn>, predict: Features -> string, chat: seq<Turn> -> string)
    ensures Nums("120 40 20 6.5 200 80 15") == ["120", "40", "20", "6.5", "200", "80", "15"]
    ensures Respond("120 40 20 6.5 200 80 15", history, predict, chat)
         == Reply(PredictionText(predict(["120", "40", "20", "6.5", "200", "80", "15"])), history)
  {
    SevenFeaturePlain();
    SevenFeatureWords();
    SevenFeatureSpelled();
    SevenFeatureJoined();
    NumsOfJoin("120 40 20 6.5 200 80 15", ["120", "40", "20", "6.5", "200", "80", "15"], ' ');
  }

  lemma CommaDigitsSpelled()
    ensures "1,2,3,4,5,6,7" == "1" + [','] + ("2" + [','] + ("3" + [','] + ("4" + [','] + ("5" + [','] + ("6" + [','] + "7")))))
  {
  }

  lemma CommaDigitsJoined()
    ensures Join(["1", "2", "3", "4", "5", "6", "7"], ',') == "1" + [','] + ("2" + [','] + ("3" + [','] + ("4" + [','] + ("5" + [','] + ("6" + [','] + "7")))))
  {
    JoinCons("6", ["7"], ',');
    JoinCons("5", ["6", "7"], ',');
    JoinCons("4", ["5", "6", "7"], ',');
    JoinCons("3", ["4", "5", "6", "7"], ',');
    JoinCons("2", ["3", "4", "5", "6", "7"], ',');
    JoinCons("1", ["2", "3", "4", "5", "6", "7"], ',');
  }

  lemma SpacedDigitsSpelled()
    ensures "1 2 3 4 5 6 7" == "1" + [' '] + ("2" + [' '] + ("3" + [' '] + ("4" + [' '] + ("5" + [' '] + ("6" + [' '] + "7")))))
  {
  }

  lemma SpacedDigitsJoined()
    ensures Join(["1", "2", "3", "4", "5", "6", "7"], ' ') == "1" + [' '] + ("2" + [' '] + ("3" + [' '] + ("4" + [' '] + ("5" + [' '] + ("6" + [' '] + "7")))))
  {
    JoinCons("6", ["7"], ' ');
    JoinCons("5", ["6", "7"], ' ');
    JoinCons("4", ["5", "6", "7"], ' ');
    JoinCons("3", ["4", "5", "6", "7"], ' ');
    JoinCons("2", ["3", "4", "5", "6", "7"], ' ');
    JoinCons("1", ["2", "3", "4", "5", "6", "7"], ' ');
  }

  lemma DigitWords()
    ensures forall k :: 0 <= k < 7 ==> Plain(["1", "2", "3", "4", "5", "6", "7"][k])
    ensures NumericTokens(["1", "2", "3", "4", "5", "6", "7"]) == ["1", "2", "3", "4", "5", "6", "7"]
  {
    DigitRuns(["1", "2", "3", "4", "5", "6", "7"]);
  }

  /** "1,2,3,4,5,6,7" and "1 2 3 4 5 6 7" give the same seven features. */
  lemma CommaScenario()
    ensures Nums("1,2,3,4,5,6,7") == Nums("1 2 3 4 5 6 7") == ["1", "2", "3", "4", "5", "6", "7"]
  {
    DigitWords();
    CommaDigitsSpelled();
    CommaDigitsJoined();
    SpacedDigitsSpelled();
    SpacedDigitsJoined();
    NumsOfJoin("1,2,3,4,5,6,7", ["1", "2", "3", "4", "5", "6", "7"], ',');
    NumsOfJoin("1 2 3 4 5 6 7", ["1", "2", "3", "4", "5", "6", "7"], ' ');
  }

  lemma ThreeFeatureSpelled()
    ensures "120 40 20" == "120" + [' '] + ("40" + [' '] + "20")
  {
  }

  lemma ThreeFeatureJoined()
    ensures Join(["120", "40", "20"], ' ') == "120" + [' '] + ("40" + [' '] + "20")
  {
    JoinCons("40", ["20"], ' ');
    JoinCons("120", ["40", "20"], ' ');
  }

  lemma ThreeFeatureWords()
    ensures forall k :: 0 <= k < 3 ==> Plain(["120", "40", "20"][k])
    ensures NumericTokens(["120", "40", "20"]) == ["120", "40", "20"]
  {
    DigitRuns(["120", "40", "20"]);
  }

  lemma ThreeFeatureReply()
    ensures CountText(3) == CountHead + "3."
  {
    assert DecimalString(3) == "3";
  }

  /**
   * "120 40 20": the corrective reply for three features, which is
   * "Please provide exactly 7 numeric features for prediction; you provided 3.",
   * and the history unchanged.
   */
  lemma ThreeFeatureScenario(history: seq<Turn>, predict: Features -> string, chat: seq<Turn> -> string)
    ensures Respond("120 40 20", history, predict, chat)
         == Reply(CountHead + "3.", history)
  {
    ThreeFeatureWords();
    ThreeFeatureSpelled();
    ThreeFeatureJoined();
    NumsOfJoin("120 40 20", ["120", "40", "20"], ' ');
    ThreeFeatureReply();
  }

  lemma QuestionSpelled()
    ensures "What fertilizer should I use for rice?" == "What" + [' '] + ("fertilizer" + [' '] + ("should" + [' '] + ("I" + [' '] + ("use" + [' '] + ("for" + [' '] + "rice?")))))
  {
  }

  lemma QuestionJoined()
    ensures Join(["What", "fertilizer", "should", "I", "use", "for", "rice?"], ' ') == "What" + [' '] + ("fertilizer" + [' '] + ("should" + [' '] + ("I" + [' '] + ("use" + [' '] + ("for" + [' '] + "rice?")))))
  {
    JoinCons("for", ["rice?"], ' ');
    JoinCons("use", ["for", "rice?"], ' ');
    JoinCons("I", ["use", "for", "rice?"], ' ');
    JoinCons("should", ["I", "use", "for", "rice?"], ' ');
    JoinCons("fertilizer", ["should", "I", "use", "for", "rice?"], ' ');
    JoinCons("What", ["fertilizer", "should", "I", "use", "for", "rice?"], ' ');
  }

  lemma QuestionPlain()
    ensures forall k :: 0 <= k < 7 ==> Plain(["What", "fertilizer", "should", "I", "use", "for", "rice?"][k])
  {
  }

  /** No word of the question starts with a digit or a `.`, so none is numeric. */
  lemma QuestionWords()
    ensures NumericTokens(["What", "fertilizer", "should", "I", "use", "for", "rice?"]) == []
  {
    var words := ["What", "fertilizer", "should", "I", "use", "for", "rice?"];
    forall k | 0 <= k < |words| ensures !IsNumericToken(words[k]) {
      NotNumericByFirst(words[k]);
    }
    NumericTokensNone(words);
  }

  /**
   * "What fertilizer should I use for rice?": no numeric token, so with an
   * empty history the chat service is asked with the persona turn first
   * and the user's text last, and the history becomes that exchange.
   */
  lemma FreeTextScenario(predict: Features -> string, chat: seq<Turn> -> string)
    ensures RouteOf("What fertilizer should I use for rice?") == FreeText
    ensures var q := "What fertilizer should I use for rice?";
      var answer := chat([SystemPrompt, Turn(User, q)]);
      Respond(q, [], predict, chat) == Reply(answer, [Turn(User, q), Turn(Assistant, answer)])
  {
    QuestionPlain();
    QuestionWords();
    QuestionSpelled();
    QuestionJoined();
    NumsOfJoin("What fertilizer should I use for rice?", ["What", "fertilizer", "should", "I", "use", "for", "rice?"], ' ');
  }
}
