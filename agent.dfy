/**
 * The message dispatcher `handle_agent` (main.py, lines 31-64). A message
 * with exactly seven numeric tokens goes to the crop classifier, one with
 * some other positive number of them gets a corrective reply, and one
 * with none goes to the chat service, whose exchange is then appended to
 * the caller's conversation history in place.
 *
 * The classifier (`model.predict`) and the chat call (`azure_chat`) are
 * parameters: `predict` maps one feature vector to its crop label, and
 * `chat` maps a message list to the assistant's text.
 */
module Agent {
  import opened Wrappers
  import opened Tokenizer
  import opened NumericToken
  import opened Responses
  import opened ChatProxy

  /** A feature vector for the classifier: exactly seven numeric tokens, as written. */
  type Features = s: seq<string> | |s| == 7 witness ["0", "0", "0", "0", "0", "0", "0"]

  /** `nums` of line 39: the numeric tokens of the message, in order. */
  function Nums(userMsg: string): (r: seq<string>)
    ensures forall k :: 0 <= k < |r| ==> IsNumericToken(r[k]) && IsWord(r[k]) && ',' !in r[k]
  {
    NumericTokens(Tokenize(userMsg))
  }

  /** The three ways out of lines 40-61. */
  datatype Route =
    | Prediction(features: Features)
    | CountError(count: nat)
    | FreeText

  /** The branch taken, decided by the number of numeric tokens alone. */
  function RouteOf(userMsg: string): (r: Route)
    ensures r.Prediction? <==> |Nums(userMsg)| == 7
    ensures r.Prediction? ==> r.features == Nums(userMsg)
    ensures r.CountError? <==> |Nums(userMsg)| != 7 && |Nums(userMsg)| > 0
    ensures r.CountError? ==> r.count == |Nums(userMsg)|
    ensures r.FreeText? <==> Nums(userMsg) == []
  {
    var nums := Nums(userMsg);
    if |nums| == 7 then Prediction(nums)
    else if |nums| > 0 then CountError(|nums|)
    else FreeText
  }

  /** The pair `handle_agent` returns: the reply text and the history. */
  datatype Reply = Reply(text: string, history: seq<Turn>)

  /** What `handle_agent` returns for a message and the history it was given. */
  function Respond(userMsg: string, history: seq<Turn>, predict: Features -> string, chat: seq<Turn> -> string): (r: Reply)
    ensures Nums(userMsg) != [] ==> r.history == history
    ensures Nums(userMsg) == [] ==> |r.history| == |history| + 2 && r.history[..|history|] == history
  {
    match RouteOf(userMsg)
    case Prediction(features) => Reply(PredictionText(predict(features)), history)
    case CountError(n) => Reply(CountText(n), history)
    case FreeText =>
      var answer := chat(ChatMessages(history, userMsg));
      Reply(answer, history + [Turn(User, userMsg), Turn(Assistant, answer)])
  }

  /**
   * Seven numeric tokens: the reply is the prediction template around the
   * label `predict` gives for those tokens in order, and the history is
   * returned as it came. The chat service plays no part.
   */
  lemma RespondSevenFeatures(userMsg: string, history: seq<Turn>, predict: Features -> string,
                             chat: seq<Turn> -> string, chat': seq<Turn> -> string)
    requires |Nums(userMsg)| == 7
    ensures var r := Respond(userMsg, history, predict, chat);
      && LabelIn(r.text) == Some(predict(Nums(userMsg)))
      && r.text[..|PredictionHead| + |predict(Nums(userMsg))| + 3] == PredictionHead + predict(Nums(userMsg)) + PredictionClose
      && r.history == history
      && r == Respond(userMsg, history, predict, chat')
  {
  }

  /**
   * One to six, or eight or more, numeric tokens (whatever other words the
   * message holds): the reply names that count, the history is returned as
   * it came, and neither the classifier nor the chat service plays a part.
   */
  lemma RespondWrongCount(userMsg: string, history: seq<Turn>, predict: Features -> string, predict': Features -> string,
                          chat: seq<Turn> -> string, chat': seq<Turn> -> string)
    requires |Nums(userMsg)| != 7 && |Nums(userMsg)| > 0
    ensures var r := Respond(userMsg, history, predict, chat);
      && CountIn(r.text) == Some(|Nums(userMsg)|)
      && r.text == CountHead + DecimalString(|Nums(userMsg)|) + "."
      && r.history == history
      && r == Respond(userMsg, history, predict', chat')
  {
  }

  /**
   * No numeric token: the chat service receives the history followed by
   * the persona turn and the user's turn, its answer is the reply, and the
   * history gains the user's turn and then the assistant's. The
   * classifier plays no part.
   */
  lemma RespondFreeText(userMsg: string, history: seq<Turn>, predict: Features -> string, predict': Features -> string,
                        chat: seq<Turn> -> string)
    requires Nums(userMsg) == []
    ensures var r := Respond(userMsg, history, predict, chat);
      && r.text == chat(history + [SystemPrompt, Turn(User, userMsg)])
      && r.history == history + [Turn(User, userMsg), Turn(Assistant, r.text)]
      && r == Respond(userMsg, history, predict', chat)
  {
  }

  /** Only the free-text path appends, and it appends exactly two turns. */
  lemma HistoryGrowsOnlyOnFreeText(userMsg: string, history: seq<Turn>, predict: Features -> string, chat: seq<Turn> -> string)
    ensures var r := Respond(userMsg, history, predict, chat);
      (|r.history| == |history| + 2 <==> RouteOf(userMsg).FreeText?)
      && (!RouteOf(userMsg).FreeText? <==> r.history == history)
  {
  }

  /** The caller's history list, which `handle_agent` extends in place. */
  class ConversationHistory {
    var turns: seq<Turn>

    /** The fresh `[]` of line 37. */
    constructor ()
      ensures turns == []
    {
      turns := [];
    }

    /** `list.append`. */
    method Append(turn: Turn)
      modifies this
      ensures turns == old(turns) + [turn]
    {
      turns := turns + [turn];
    }
  }

  /**
   * `handle_agent(user_msg, numeric_features, conversation_history)`.
   * A missing history is replaced by a fresh empty one; a given one is the
   * object returned, changed in place. `numericFeatures` is never read.
   */
  method HandleAgent(userMsg: string, numericFeatures: Option<seq<real>>, conversationHistory: ConversationHistory?,
                     predict: Features -> string, chat: seq<Turn> -> string)
    returns (response: string, history: ConversationHistory)
    modifies conversationHistory
    ensures conversationHistory != null ==> history == conversationHistory
    ensures conversationHistory == null ==> fresh(history)
    ensures Reply(response, history.turns)
         == Respond(userMsg, if conversationHistory == null then [] else old(conversationHistory.turns), predict, chat)
  {
    if conversationHistory == null {
      history := new ConversationHistory();
    } else {
      history := conversationHistory;
    }

    var nums := Nums(userMsg);
    if |nums| == 7 {
      var crop := predict(nums);
      response := PredictionText(crop);
      return;
    } else if |nums| > 0 {
      response := CountText(|nums|);
      return;
    }

    var userTurn := Turn(User, userMsg);
    var messages := ChatMessages(history.turns, userMsg);
    var answer := chat(messages);
    history.Append(userTurn);
    history.Append(Turn(Assistant, answer));
    response := answer;
  }
}
