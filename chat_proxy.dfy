/**
 * Conversation turns and the chat side of the dispatcher: the message
 * list sent to the chat service (main.py, lines 58-60) and the fail-soft
 * wrapper around the HTTP call (`azure_chat`, lines 19-29). The HTTP
 * exchange itself is not modelled; what it produced is a parameter.
 */
module ChatProxy {
  import opened Wrappers

  datatype Role = System | User | Assistant

  /** One `{"role": ..., "content": ...}` entry of a conversation. */
  datatype Turn = Turn(role: Role, content: string)

  /** The fixed persona instruction of line 58. */
  const SystemPrompt := Turn(System, "You are a helpful agricultural assistant. Give the best ever solution in a concise way")

  /**
   * The message list of line 60. Both arms of its conditional give the
   * history followed by the persona turn and the user's turn.
   */
  function ChatMessages(history: seq<Turn>, userMsg: string): (r: seq<Turn>)
    ensures r == history + [SystemPrompt, Turn(User, userMsg)]
    ensures r[..|history|] == history
    ensures r[|history|] == SystemPrompt && r[|r| - 1] == Turn(User, userMsg)
  {
    if history != [] then history + [SystemPrompt, Turn(User, userMsg)]
    else [SystemPrompt, Turn(User, userMsg)]
  }

  /** What the POST to the chat endpoint came to. */
  datatype ServiceOutcome =
    | Replied(content: string)       // a 2xx answer with choices[0].message.content
    | RequestFailed(detail: string)  // a requests.RequestException (connection, timeout, HTTP status, bad JSON)
    | UnexpectedShape                // a JSON answer without that path: KeyError, IndexError or TypeError

  const Apology := "Sorry, I couldn\U{2019}t reach the assistant service."

  /** Reads the diagnostic back out of a degraded reply, if `text` is one. */
  function ApologyDetail(text: string): Option<string>
  {
    if |text| >= |Apology| + 3 && text[..|Apology| + 2] == Apology + " (" && text[|text| - 1] == ')'
    then Some(text[|Apology| + 2..|text| - 1])
    else None
  }

  /**
   * `azure_chat`: the content of a reply, or the apology carrying the
   * exception's text when the request failed. Only request exceptions are
   * caught; any other fault escapes to the caller (`None`).
   */
  function AzureChat(outcome: ServiceOutcome): (r: Option<string>)
    ensures r.None? <==> outcome.UnexpectedShape?
    ensures outcome.Replied? ==> r == Some(outcome.content)
    ensures outcome.RequestFailed? ==>
      r.Some? && |r.value| > |Apology| && r.value[..|Apology|] == Apology && ApologyDetail(r.value) == Some(outcome.detail)
  {
    match outcome
    case Replied(content) => Some(content)
    case RequestFailed(detail) =>
      var text := Apology + " (" + detail + ")";
      assert text[..|Apology| + 2] == Apology + " (";
      assert text[..|Apology|] == Apology;
      assert text[|Apology| + 2..|text| - 1] == detail;
      Some(text)
    case UnexpectedShape => None
  }
}
