# LoreMaster plugin — a Dafny model

LoreMaster is a game-assistant plugin. It reads JSON commands from a pipe,
asks a chat model to play a video-game character, writes JSON responses back
(each followed by `<<END>>`), and speaks the replies. This project models its
single source file, `plugin.py`, in five modules:

- `PyText` (`pytext.dfy`): the Python string operations the plugin relies on.
  These are `strip()` over Python's whitespace set, `lower()`, `startswith`,
  and the `in` substring test.
- `Transport` (`transport.dfy`): `read_command`'s chunk loop, which stops at
  the first short read. Then the greedy `{.*}` extraction and the
  `<<END>>` framing of `write_response`.
- `Parser` (`parser.dfy`): `parse_message`. It yields the decoded object, or
  the fixed fallback with game "Unknown", character "Unknown", sex "male" and
  the input as the message. It also defines the speech gender flag.
- `Voice` (`voice.dfy`): the first-match voice search of
  `speech_worker`/`speak`, with the corrected male test (see Findings).
  The test as written is kept beside it.
- `Conversation` (`conversation.dfy`): `talk` and its four module globals.
  These are the chat history, the conversation style and the active
  character and game. `Session` is a class holding them, and `Session.Talk`
  updates them in place. `TalkStep` is the same step as a function on
  `SessionState`, and the lemmas are stated about it.
- `Dispatch` (`dispatch.dfy`): `main`'s loop over inbound commands and their
  `tool_calls`. Calls are routed on `func`: "talk", "initialize" or
  "shutdown". Commands arrive already decoded. The outside services are
  parameters: the parser's reply and the chat completion's outcome for the
  n-th talk call, and the `json.loads` that `parse_message` applies to that
  reply.

The model follows `plugin.py` as written:

- Switching character or game discards the history. No history is kept per
  persona.
- Extraction is greedy: it runs from the first `{` to the last `}`. It does
  not find a balanced object.
- Eviction happens at most once per call. It keeps `history[len // 2:]`,
  which is the newer half, rounded up.
- Only the `input` key of a talk call's params is read.
- An empty style string counts as no style.
- A parsed object with a character but no game raises `KeyError` before
  any global is assigned. With the same character, the comparison at line
  225 reads the game. With a new character, the `or` short-circuits, and
  the log line at 226 reads the game before the reset at lines 227-229.
- On success, `talk` writes its reply itself and queues it for speech, then
  returns `None`. `main` writes only the dicts `talk` returns: the style
  confirmation and the error object.

## Model

| member | source | states |
|---|---|---|
| PyText.StripKeepsCore | plugin.py:67 | `strip()` returns the slice of the text that has only whitespace before and after it and that neither starts nor ends with whitespace |
| PyText.StrippedAtUnique | plugin.py:67 | only one slice of a text fits that description, so `strip()` is fully determined by it |
| PyText.TrimStartDropsSpaces | plugin.py:67 | removing leading whitespace keeps a suffix, drops only whitespace, and stops at the first other character |
| PyText.TrimEndDropsSpaces | plugin.py:67 | removing trailing whitespace keeps a prefix, drops only whitespace, and stops at the last other character |
| PyText.LowerFolds | plugin.py:220 | `lower()` folds every character in place and keeps the length |
| Voice.KelvinSignIdMatchesMark | plugin.py:115-119 | an identifier "MAR" followed by a Kelvin sign lower-cases to "mark" and matches a male request |
| PyText.ContainsAt | plugin.py:116-119 | a needle occurring at any position of the text satisfies the `in` test |
| PyText.ContainsHasPosition | plugin.py:116-119 | conversely, the `in` test holds only when the needle occurs at some position, so `Contains` is exactly substring occurrence |
| Transport.FirstEnd | plugin.py:46-65 | the reading loop stops at the first read that fails or returns fewer than 4096 bytes, and no earlier read does either |
| Transport.Chunks | plugin.py:61-62 | each read contributes exactly its decoded buffer cut at the reported byte count, in order |
| Transport.ExtractObject | plugin.py:71-79 | there is no match exactly when no `{` precedes a `}`; a match runs from the first `{` to the last `}` |
| Transport.ReadCommand | plugin.py:41-86 | the loop makes exactly as many reads as it takes to reach the first ending read; a failed read yields `None`; otherwise the result is the extraction from the stripped join of all chunks read |
| Transport.FrameRoundTrip | plugin.py:91 | a response framed with `<<END>>` is split back exactly, whatever follows it, provided its JSON text does not contain `<<END>>` |
| Transport.FrameCutShort | plugin.py:91 | a JSON text containing `<<END>>` is cut short by a reader splitting on the first terminator |
| Parser.ParseMessage | plugin.py:171-206 | with no reply, no `{...}` span or an undecodable span, the result is the fallback; when the span decodes, the result is the decoded object; any result other than the fallback is the decoded span of the reply |
| Parser.FallbackKeepsInput | plugin.py:202-206 | the fallback has exactly the four fields, keeps the input verbatim as the message, is "Unknown"/"Unknown" with sex "male", and does not ask for a female voice |
| Parser.SpeaksFemaleExactly | plugin.py:265 | the speech flag holds exactly when "sex" is present and spells "female" in any ASCII letter case |
| Voice.AsWrittenMaleAcceptsFemaleNames | plugin.py:119 | as written, a male request accepts every voice whose lower-cased name contains "female" |
| Voice.MaleRequestPicksFemaleVoice | plugin.py:113-121 | a voice named "Female" passes the written male test and fails the corrected one |
| Voice.CorrectedMatchDiffersOnlyOnFemaleNames | plugin.py:116-119 | the corrected test agrees with the written one except for male requests on names saying "female", and such a voice is then taken only when its id names a male voice |
| Voice.SelectVoice | plugin.py:113-121 | the result is the index of the first matching voice, or `None` exactly when no voice matches |
| Conversation.EvictionKeepsRecentTurns | plugin.py:244-250 | the kept history is a suffix of the history; under the budget it is the whole history; over it, exactly `len - len // 2` of the newest entries; the newest entry always survives |
| Conversation.WindowIsRecentSuffix | plugin.py:242 | `history[-10:]` is the newest `min(len, 10)` entries, in order |
| Conversation.MessagesAreWindow | plugin.py:242-249 | the messages are the system prompt, then the newest `min(len, 10)` entries of the history in order, ending with the user's turn |
| Conversation.ConverseAppendsTurns | plugin.py:231-269 | a settled turn keeps persona and style, sends the prompt and window of the evicted history, which ends with the user's turn, and appends the reply or reports the error |
| Conversation.SentIsPromptThenRecentTurns | plugin.py:242-249 | a turn sends the system prompt first, then at most the last ten history entries in order, ending with the user's turn (at most eleven messages) |
| Conversation.FreshConverse | plugin.py:240-260 | on an empty history a turn leaves exactly the user's turn, followed by the reply if there is one |
| Conversation.SwitchDiscardsHistory | plugin.py:225-229 | a new character or game leaves the parsed pair active and the history holding only this turn and its reply |
| Conversation.SamePersonaAppendsTurn | plugin.py:240-250 | the same pair keeps the history, appends the user's turn, applies the one eviction check, and then appends the reply; under the budget the old history is a prefix of the new one |
| Conversation.ReplyOrError | plugin.py:252-269 | a model answer appends exactly one stripped assistant turn after the user's turn and is reported as the reply; a failure leaves the user's turn last and returns the error object |
| Conversation.StyleCommandSetsOnlyStyle | plugin.py:220-223 | a message starting with "set style " in any case sets the style to the stripped remainder after ten characters, answers success, sends nothing, and leaves history and persona unchanged |
| Conversation.FallbackAfterPersonaDiscardsHistory | plugin.py:225-229 | the "Unknown"/"Unknown" fallback persona following any other (character, game) pair discards that history |
| Conversation.MissingGameChangesNothing | plugin.py:225-226 | a parsed object with a character but no game raises `KeyError("game")` with every global unchanged and no model called, whether or not the character is new |
| Conversation.TalkKeepsHistoryConversational | plugin.py:240-260 | the history never holds a system message |
| Conversation.Session.constructor | plugin.py:208-211 | the globals start with an empty history, no style and no active persona |
| Conversation.Session.Talk | plugin.py:213-269 | updating the globals in place gives exactly the new state, outcome and messages of `TalkStep` |
| Conversation.Session.Respond | plugin.py:231-269 | the append, window, single eviction and reply steps, done in place, give exactly the turn of `Converse` |
| Dispatch.ExitIsFinal | plugin.py:295-297 | after shutdown or an escaping `KeyError`, later calls change nothing |
| Dispatch.ExitIsFinalInbound | plugin.py:277-297 | after shutdown or an escaping `KeyError`, later commands change nothing |
| Dispatch.OneResponsePerCall | plugin.py:287-294 | a list of calls that runs to its end writes exactly one response per talk or initialize call and contains no shutdown |
| Dispatch.ShutdownStopsDispatch | plugin.py:295-297 | a shutdown call ends the run as it stands after the calls before it; nothing after it is done |
| Dispatch.SpeechFollowsWrittenReply | plugin.py:263-265 | every queued utterance was also written to the host as a successful reply |
| Dispatch.DispatchCalls | plugin.py:287-297 | the loop over `tool_calls`, with the session updated in place, ends in the run given by the call-by-call specification |
| Dispatch.Serve | plugin.py:275-297 | `main` over a finite stream of commands ends in the run given by the command-by-command specification, with the session holding its state |

## Findings

| source | as written | input that shows it | evidently intended | confidence | as-written member | corrected member |
|---|---|---|---|---|---|---|
| plugin.py:119 | a male request accepts any voice whose lower-cased name contains "male" | a voice named "Female" with an empty id, and a male request | a male request should not take a voice whose name says "female" | medium, not executed | Voice.MaleRequestPicksFemaleVoice | Voice.SelectVoice |

The same test appears in `speak` at plugin.py:153. `Voice.SelectVoice`
searches with the corrected `VoiceMatches`. The written test is kept as
`VoiceMatchesAsWritten`. `Voice.CorrectedMatchDiffersOnlyOnFemaleNames`
proves the two tests differ only on such names.

## Left out

- The Win32 pipe calls (`GetStdHandle`, `ReadFile`, `WriteFile`) are foreign I/O. A read is given as its outcome: a failure, or the decoded buffer with the byte count. UTF-8 decoding with invalid bytes dropped is not modelled.
- Transport.ReadCommand: requires a channel that eventually holds an ending read. The source blocks on the pipe indefinitely.
- Transport.ReadCommand: returns the extracted text, not a decoded command. `json.loads` of that text (plugin.py:75) is a library call and is not modelled, nor are exceptions other than a failed read.
- Dispatch.Serve: takes already decoded commands. `read_command`, with its `json.loads`, is folded into the `inbound` sequence, where `None` is a read that gave nothing. Nothing links `Transport.ReadCommand`'s result to an entry of `inbound`.
- `json.dumps` is not modelled. `write_response` is modelled as framing the already serialized text, and a write error that is only logged is not modelled.
- Decoded JSON objects are kept as maps from string to string. Non-string field values, and the `TypeError`/`AttributeError` paths they would cause, are not modelled. The same goes for a decoded value that is not an object.
- The OpenAI calls are remote services: the parser prompt, the model name and the temperatures. `parse_message`'s reply and the chat completion's outcome are parameters. A reply with no text counts as a failed call.
- The pyttsx3 engine, the speech thread and the queue are not modelled. A queued utterance is recorded in the run, and voice selection is modelled over a list of (name, id) pairs.
- PyText.LowerFolds: folds ASCII letters and the Kelvin sign (U+212A, to "k") and keeps every other character. Python's `lower()` also folds other scripts to non-ASCII letters, and U+0130 to "i" followed by U+0307, which changes a string's length. Every string the plugin compares a lower-cased text with is ASCII: "set style ", "female", "male", "zira", "eva", "david" and "mark". None of them has an "i" followed by U+0307. So these differences do not change the outcome of any of those tests. The lower-cased text itself is never stored or sent.
- Logging, `print`, the start-up API-key check, `sys.exit` as a process exit, and the `SELFTEST` path are side effects with no stateable logic.
- Dispatch.Serve: `main` loops forever. The model runs it over a finite sequence of inbound commands. A command that is missing, empty or without tool calls is skipped, as in the source.
