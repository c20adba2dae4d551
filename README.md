# Crop-recommendation agent: the message dispatcher

This project models `handle_agent`, the message dispatcher of a small
crop-recommendation web service, and proves what it promises.

A user message is turned into tokens: commas become spaces, then the text
is split on whitespace. A token counts as numeric when deleting its first
`.` leaves a non-empty run of digits. The number of numeric tokens decides
the reply:

- **Exactly seven.** The tokens go, in order, to the crop classifier. The
  reply is a fixed template around the predicted crop.
- **One to six, or eight or more.** The reply is a corrective message that
  names the count.
- **None.** The message is free text. The chat service receives the
  history, a fixed persona turn and the user's turn. Its answer is the
  reply. The user's turn and the assistant's turn are then appended, in
  place, to the caller's history list.

The classifier (`model.predict`) and the chat call (`azure_chat`) are
parameters of the model. `predict` maps a seven-token feature vector to a
crop label. `chat` maps a message list to the assistant's text. The
fail-soft contract of `azure_chat` is modelled on its own, over the outcome
of the HTTP exchange.

Files, one module each:

- `wrappers.dfy`: `Option`.
- `tokenizer.dfy`: `str.replace(',', ' ')` and `str.split()`, with Python's whitespace set.
- `numeric_token.dfy`: the numeric-token test and the filter that keeps numeric tokens.
- `responses.dfy`: the two fixed reply templates, the decimal rendering of the count, and readers that recover what each reply embeds.
- `chat_proxy.dfy`: conversation turns, the message list sent to the chat service, and `azure_chat`'s error handling.
- `agent.dfy`: the routing, the reply function `Respond`, the `ConversationHistory` class and the `HandleAgent` method.
- `scenarios.dfy`: the dispatcher on four concrete messages.

`Respond` is the specification. `HandleAgent` follows the source step by
step on a `ConversationHistory` object, and its postcondition says that
its reply and the object's new turns are exactly what `Respond` gives.
A missing history (`None`) becomes a fresh object. A given history is the
object returned, changed in place.

## Model

| member | source | states |
|---|---|---|
| `Tokenizer.Split` | main.py:39 | every token of `split()` is a non-empty run without whitespace, made of characters of the input |
| `Tokenizer.SplitSeparator` | main.py:39 | splitting `a + c + b` at a whitespace character `c` gives the tokens of `a` followed by those of `b` |
| `Tokenizer.SplitWord` | main.py:39 | a non-empty run without whitespace splits to itself |
| `Tokenizer.Tokenize` | main.py:39 | no token is empty or contains whitespace or a comma |
| `Tokenizer.TokenizeSeparator` | main.py:39 | a comma separates tokens exactly as whitespace does |
| `Tokenizer.TokenizeWord` | main.py:39 | a comma-free run without whitespace is a single token |
| `Tokenizer.TokenizeJoin` | main.py:39 | words joined by a comma or by whitespace tokenize back to exactly those words |
| `Tokenizer.CommaOrSpaceJoin` | main.py:39 | `"1,2,...,7"`-style and `"1 2 ... 7"`-style messages give the same tokens |
| `Tokenizer.TokenizeStable` | main.py:39 | the tokens joined by single spaces tokenize back to the same tokens |
| `NumericToken.RemoveFirstDot` | main.py:39 | `replace('.', '', 1)` leaves a dot-free string unchanged and otherwise shortens it by one |
| `NumericToken.RemoveFirstDotAt` | main.py:39 | deleting the first dot of `a + "." + b`, when `a` has no dot, gives `a + b` |
| `NumericToken.NumericTokenWithDot` | main.py:39 | a token with a first dot is numeric iff the parts before and after it are digit runs, not both empty |
| `NumericToken.NumericTokenIsPlainDecimal` | main.py:39 | numeric tokens are exactly the unsigned integers and the strings of two digit runs, not both empty, around one dot (both directions) |
| `NumericToken.NumericTokenAccepts` | main.py:39 | `12`, `6.5`, `1.` and `.5` are numeric |
| `NumericToken.NumericTokenRejects` | main.py:39 | `-3`, `1e5`, `1.2.3`, `.` and the empty string are not numeric |
| `NumericToken.NotNumericByFirst` | main.py:39 | a token starting with anything but a digit or a dot is not numeric |
| `NumericToken.NumericTokens` | main.py:39 | the kept tokens are numeric and come from the input; every numeric token of the input is kept |
| `NumericToken.NumericTokensAppend` | main.py:39 | the filter distributes over concatenation, so kept tokens stay in input order |
| `NumericToken.NumericTokensKeepsAll` | main.py:39 | nothing is dropped iff every token is numeric |
| `NumericToken.NumericTokensNone` | main.py:39 | nothing is kept iff no token is numeric |
| `Responses.DecimalString` | main.py:56 | `str(n)` is a non-empty digit run without a leading zero |
| `Responses.DecimalRoundTrip` | main.py:56 | reading the decimal rendering back gives the number |
| `Responses.PredictionText` | main.py:45-52 | the reply opens with `The predicted crop is **<crop>**.` and the crop can be read back out of it |
| `Responses.CountText` | main.py:56 | the reply opens with the fixed corrective sentence, ends with `.`, and the count can be read back out of it |
| `Responses.RepliesDistinct` | main.py:45-56 | a prediction reply never reads as a count reply, and the reverse |
| `ChatProxy.ChatMessages` | main.py:58-60 | both arms of the conditional give the history, then the persona turn, then the user's turn |
| `ChatProxy.AzureChat` | main.py:24-29 | a reply's content is passed through; a request failure gives the apology with the diagnostic, readable back; any other fault escapes |
| `Agent.Nums` | main.py:39 | the features are numeric tokens without whitespace or comma |
| `Agent.RouteOf` | main.py:40-61 | seven numeric tokens route to the classifier with those tokens, another positive count to the count reply, none to the chat |
| `Agent.Respond` | main.py:31-64 | only a message without numeric tokens changes the history, and then it keeps the old turns and adds two |
| `Agent.RespondSevenFeatures` | main.py:40-53 | with seven numeric tokens the reply carries `predict` of those tokens in order; the history is unchanged; the chat service plays no part |
| `Agent.RespondWrongCount` | main.py:55-56 | with 1-6 or 8+ numeric tokens the reply is the corrective sentence with that count; the history is unchanged; neither the classifier nor the chat service plays a part |
| `Agent.RespondFreeText` | main.py:58-64 | with no numeric token, the chat gets history + persona + user turn, its answer is the reply, and the history gains the user's turn then the assistant's; the classifier plays no part |
| `Agent.HistoryGrowsOnlyOnFreeText` | main.py:53-64 | the history grows by two exactly on the free-text path and is unchanged on the others |
| `Agent.ConversationHistory.constructor` | main.py:36-37 | a missing history starts empty |
| `Agent.ConversationHistory.Append` | main.py:62-63 | `append` adds one turn at the end and changes nothing else |
| `Agent.HandleAgent` | main.py:31-64 | returns the given history object (or a fresh one for `None`), and its reply and new turns are what `Respond` gives for the old turns; `numeric_features` has no influence |
| `Scenarios.SevenFeatureScenario` | main.py:39-53 | `"120 40 20 6.5 200 80 15"` sends those seven tokens, in order, to the classifier, and the history is unchanged |
| `Scenarios.CommaScenario` | main.py:39 | `"1,2,3,4,5,6,7"` and `"1 2 3 4 5 6 7"` give the same seven features |
| `Scenarios.ThreeFeatureScenario` | main.py:55-56 | `"120 40 20"` gets `Please provide exactly 7 numeric features for prediction; you provided 3.` and the history is unchanged |
| `Scenarios.FreeTextScenario` | main.py:58-64 | `"What fertilizer should I use for rice?"` goes to the chat with the persona turn first and the user's text last |

## Left out

- The Flask routes `home`, `agent` and `predict` (main.py:67-89) and the server start-up (main.py:91-92): HTTP and template plumbing.
- Configuration through `dotenv` and `os.getenv` (main.py:8-12).
- The HTTP exchange of `azure_chat` (main.py:19-27): the URL, the headers, the payload with temperature 0.5 and `max_tokens` 1000, and the 30-second timeout. `AzureChat` starts from what the exchange came to.
- Agent.HandleAgent: `chat` is a total function to a string. A fault that escapes `azure_chat` (the `None` of `AzureChat`: a JSON answer without `choices[0].message.content`) would abort `handle_agent` before the history is touched. That abort is not threaded through the dispatcher.
- The classifier: loading `model.pkl` with `pickle` (main.py:16-17), the `numpy` array (main.py:41), and failures of `predict`. `model.predict` on the one-row batch and the `pred[0]` that follows are one parameter, from the feature vector to the crop label's text.
- `float(s)` (main.py:39): tokens stay strings. Their values never influence the routing, and the classifier receives them as written.
- NumericToken.IsNumericToken: only the ASCII digits `0-9` count as digits. Python's `str.isdigit` also accepts other Unicode digits. For Unicode decimal digits such as Arabic-Indic `١` (U+0661) or fullwidth `１`, `float` succeeds. So a message such as `"١ ٢ ٣ ٤ ٥ ٦ ٧"` goes to the classifier in the source, and `"١ ٢"` gets the count reply. The model sends both to the chat service, and two turns are appended. Only non-decimal digits such as `²` pass `isdigit` and then make `float` raise `ValueError`, which the model does not capture either.
- `azure_chat` catches only `requests.exceptions.RequestException` (main.py:28). A body that is not JSON is caught, but a JSON body of the wrong shape raises `KeyError`, `IndexError` or `TypeError`, which escape. The model follows the code.
- The apology text uses a right single quotation mark (U+2019) in `couldn’t`, as main.py:29 does, not an ASCII apostrophe.
