# Voice-chat back ends: chat history, prompt building and reply rules

This project models the part of three versions of a FastAPI voice-chat
server that decides things, leaving the network calls aside:

- the per-session, in-memory chat-history store (`chat_history_store` and
  its five helper functions), identical in the history version
  (`Task-10/main.py`) and the error-handling version (`Task-12/main.py`);
- one turn of `agent_chat_with_history` in both versions: what is stored, in
  which order, what prompt Gemini receives (the last ten messages, aliasing
  of the list read included), how the reply is cut to Murf's 3000-character
  limit, which count and status are answered, and how every failure is
  answered;
- the clear-history endpoint;
- the pure rules of the `/llm/query` pipeline of the first LLM version
  (`Task-9/main.py`): blank-transcription rejection, the key checks, the
  reply cut, quote stripping of the Murf key and propagation of Murf's status;
- the `/generate-audio` checks, the Murf status mapping, `validate_api_keys`
  and `/health` of the error-handling version.

AssemblyAI, Gemini and Murf are inputs. A transcription outcome is a value.
Gemini is a function from the prompt to its reply, and Murf a function from
the request (key, text, voice) to its answer. Contracts can therefore name
the exact prompt and text that were sent. Environment variables are
`Option<string>` values, where "set" means present and non-empty as Python's
truthiness has it. `datetime.now()` becomes a `Timestamp` argument, one for
each message a turn stores. In the error-handling version, a call wrapped in
`asyncio.wait_for` yields `Timed<T>`, which is either its own outcome or a
timeout.

The store is the class `ChatStore.ChatHistoryStore`. Its fields are the
dictionary and the dictionary's key order. Each method states its whole new
state through the pure transition functions `Record`/`RecordOrder` (append)
or map removal (clear). The dictionary's invariant is `WellFormed`: the key
order lists every key once, and no list is empty. The lemmas
`RecordKeepsWellFormed` and `ClearKeepsWellFormed` prove that invariant is
preserved, and the two methods that change the store call them. That the key
order is the insertion order is stated per operation: `RecordOrder` puts a
new session last, and `Without` keeps the other keys in their order.

Each handler is a specification function (`ChatTurn`) giving the messages a
turn appends and its answer. A method on the store is proved to do exactly
that.

## Model

| member | source | states |
|---|---|---|
| Text.StripWith | Task-9/main.py:244 | `s.strip(chars)`: the result neither starts nor ends with a dropped character and is `s` minus a droppable prefix and suffix |
| Text.StripEmptyIff | Task-10/main.py:268 | stripping gives the empty string exactly when every character is droppable (whitespace-only text) |
| Text.StripIdempotent | Task-10/main.py:304 | stripping a stripped text changes nothing |
| Text.StripQuotesKeepsInterior | Task-9/main.py:244 | `'"a\'b"'.strip('"\'')` is `a'b`: quotes inside the key are kept |
| Text.IntToString | Task-12/main.py:589-595 | `str(code)` of a status code: a `-` exactly for negatives, then decimal digits only, with no leading zero, whose value is the code's magnitude |
| Text.NatToString | Task-12/main.py:589-595 | the decimal digits of a natural number, no leading zero; reading them back gives the number |
| Services.IsBlank | Task-12/main.py:658-659 | `not text or text.strip() == ""` holds exactly for a missing text or one made only of whitespace |
| Replies.TruncateForSpeech | Task-12/main.py:709-711 | a reply of at most 3000 characters is unchanged; a longer one becomes its first 2900 characters plus the 48-character continuation (2948 in all); never over 3000 |
| Replies.TruncateIdempotent | Task-10/main.py:310-313 | cutting an already cut reply changes nothing |
| Health.ValidateApiKeys | Task-12/main.py:119-128 | one flag per service, true exactly when its key is set |
| Health.HealthCheck | Task-12/main.py:205-219 | "healthy" iff at least one key is set; "All services operational" iff all three are; each service available iff its own key is set |
| Health.MessageAgreesWithStatus | Task-12/main.py:212-218 | the all-clear message never comes with a degraded status |
| TextToSpeech.CheckTtsRequest | Task-12/main.py:507-536 | 400 iff the text is empty or whitespace-only; 413 iff it is not blank and over 5000 characters; 503 iff both checks pass and the key is missing; success exactly when the text is not blank, at most 5000 characters long and the key is set, carrying the quote-stripped key; every failure has a fallback text |
| TextToSpeech.MurfToTts | Task-12/main.py:555-616 | success iff Murf answered 200, with its `audioFile`; 429 iff Murf said 429; 408 iff Murf timed out; otherwise 503; every failure has a fallback text |
| TextToSpeech.GenerateAudio | Task-12/main.py:500-626 | a failed check is answered before Murf is called; success exactly when the checks pass and Murf answers 200 to the stripped key, the text and the voice; once the checks pass, every answer from Murf is mapped by `MurfToTts` |
| TextToSpeech.EmptyTextHasFallback | Task-12/main.py:507-514 | posting empty text yields 400 with a detail carrying a `fallback` field |
| LlmQuery.TranscriptGate | Task-9/main.py:204-209 | passes exactly a present, non-blank transcription, unchanged; a blank one gives 400 "No speech detected in audio"; an error status gives 500 "Transcription error: …"; an exception gives the handler's catch-all 500 |
| LlmQuery.ReplyGate | Task-9/main.py:224-229 | passes exactly a non-empty reply, stripped; an empty one gives 500 "No response generated from LLM" |
| LlmQuery.SpeechRequest | Task-9/main.py:239-256 | 500 iff the Murf key is missing; otherwise the quote-stripped key, the text and the default voice |
| LlmQuery.SpeechGate | Task-9/main.py:270-282 | success iff Murf answered 200, with `audioFile` or `""`; any other status is raised with that same status; a timeout or request error gives 500 |
| LlmQuery.QueryPrompt | Task-9/main.py:220-222 | the Gemini prompt is the fixed instruction, ending in a blank line, followed by the transcription verbatim |
| LlmQuery.LlmQueryAudio | Task-9/main.py:193-288 | a rejected transcription is reported before Gemini is considered; a missing Gemini key gives 500 before generation; a reply Gemini could not give fails with the reply check's error; then a missing Murf key gives 500; otherwise success exactly when Murf answers 200, and Murf's failure is the speech check's error; success returns Gemini's stripped reply cut to 3000 characters, sent with the stripped key |
| LlmQuery.MurfStatusPropagates | Task-9/main.py:278-282 | a non-200 answer from Murf fails the request with Murf's own status |
| ChatStore.Without | Task-12/main.py:175-180 | the key order after `del`: exactly the other keys, still distinct, each in its old relative order (the key's first position cut out), unchanged if the key was absent |
| ChatStore.Summaries | Task-12/main.py:186-197 | each summary names a listed session and describes its list: length, first and last timestamps |
| ChatStore.SummariesListEverySession | Task-10/main.py:92-103 | in a well-formed store, one summary per session, in the dictionary's order |
| ChatStore.SummariesComplete | Task-12/main.py:189-190 | every session with a non-empty list has a summary |
| ChatStore.Record | Task-12/main.py:162-173 | after appending, the session's list is the old one plus exactly the new messages, and every other session's list is unchanged |
| ChatStore.RecordTwice | Task-10/main.py:277-308 | appending the user's message and then the reply is appending both at once |
| ChatStore.RecordKeepsWellFormed | Task-12/main.py:164-165 | appending keeps the key order listing every key once, and no list empty |
| ChatStore.ClearKeepsWellFormed | Task-12/main.py:177-178 | removing a session keeps the dictionary well formed |
| ChatStore.ChatHistoryStore.constructor | Task-12/main.py:57 | the store starts empty and well formed |
| ChatStore.ChatHistoryStore.GetChatHistory | Task-12/main.py:158-160 | the stored list, or `[]` for an unknown session |
| ChatStore.ChatHistoryStore.AddMessage | Task-12/main.py:162-173 | the new state is `Record` of one message; a new session goes last in the key order; a well-formed store stays well formed |
| ChatStore.ChatHistoryStore.ClearChatHistory | Task-12/main.py:175-180 | returns whether the session was present; afterwards it is absent, the other sessions are untouched and keep their order; a well-formed store stays well formed |
| ChatStore.ChatHistoryStore.GetSessionMessageCount | Task-12/main.py:182-184 | the stored list's length, 0 for an unknown session |
| ChatStore.ChatHistoryStore.GetAllSessions | Task-10/main.py:92-103 | the loop builds exactly `Summaries` of the dictionary in its order |
| ChatStore.ClearTwice | Task-10/main.py:81-86 | clearing twice: the first call reports presence, the second always false |
| Prompt.ContextWindow | Task-10/main.py:283 | `chat_history[-10:]` when longer than ten, else all: the latest `min(10, n)` messages, in order |
| Prompt.ContextFrame | Task-10/main.py:280-292 | every prompt starts with the preamble and ends with the utterance's `User:` line followed by the closing request |
| Prompt.RenderHistoryAppend | Task-10/main.py:284-288 | rendering a concatenation renders each part in turn |
| Prompt.BuildConversationContext | Task-10/main.py:280-292 | the `+=` loop builds the preamble, one `User:`/`Assistant:` line per message of the window, the utterance and the closing request |
| Prompt.UtteranceQuotedTwice | Task-10/main.py:274-291 | when the list read already ends with the user's message, the prompt quotes it twice in a row |
| Prompt.FreshSessionPrompt | Task-10/main.py:274-291 | for an empty history the prompt is the preamble, the utterance line and the closing request |
| Prompt.WindowIgnoresOlderMessages | Task-12/main.py:687 | once ten or more messages follow them, older messages never reach the prompt; with exactly ten, the window is those ten |
| Conversation.HistorySeen | Task-10/main.py:274-277 | the list read is the stored list plus the user's message for an existing session, and a fresh `[]` for a new one |
| Conversation.ReadAndRecord | Task-12/main.py:673-674 | reading then appending: the list handed back is `HistorySeen`, and the store gains exactly the user's message |
| Conversation.PromptQuotesUtterance | Task-10/main.py:274-292 | a new session's prompt quotes the utterance once with no history; an existing session's prompt quotes it twice in a row |
| HistoryChat.ChatTurn | Task-10/main.py:253-373 | a rejected transcription stores nothing; otherwise the user's message is stored first; the reply is stored, stripped and whole, exactly when the Gemini key is set and Gemini gave a non-empty text; success reports the cut reply, the prior count plus 2 and "success" |
| HistoryChat.ChatTurnOutcome | Task-10/main.py:294-367 | after a passed transcription: a missing Gemini key gives 500, a reply Gemini could not give fails with the reply check's error, and once both messages are stored the answer is `SpeakReplyStep`'s; the turn succeeds exactly when the Gemini key is set, Gemini gives a non-empty reply, the Murf key is set and Murf answers 200 to the cut reply |
| HistoryChat.AnswerStep | Task-10/main.py:294-367 | the reply is stored exactly when the key is set and the reply is non-empty; a missing key gives 500 before generation; a reply Gemini could not give fails with the reply check's error; once the reply is stored the answer is `SpeakReplyStep`'s |
| HistoryChat.SpeakReplyStep | Task-10/main.py:310-373 | success iff the Murf key is set and Murf answered 200 to the cut reply, with `audioFile` or `""`; a missing key gives 500; a non-200 answer fails with Murf's own status; a timeout or request error gives the catch-all 500 "Chat agent failed: …" |
| HistoryChat.RecordUtterance | Task-10/main.py:273-292 | the prompt built equals `ChatPrompt` of the list before the turn; the store gains the user's message |
| HistoryChat.AnswerUtterance | Task-10/main.py:294-367 | the answer and the messages stored from the key check on are those of `AnswerStep` |
| HistoryChat.StoreAndSpeak | Task-10/main.py:307-362 | the reply is stored whole before the speech steps run; the count spoken is read from the store and includes it |
| HistoryChat.HeardTurn | Task-10/main.py:273-367 | after a passed transcription: the user's message, then what `AnswerStep` appends |
| HistoryChat.AgentChatWithHistory | Task-10/main.py:253-373 | the answer is `ChatTurn`'s and the store's new state is `Record` of exactly the turn's messages |
| HistoryChat.LongReplyStoredWhole | Task-10/main.py:304-313 | a reply over 3000 characters is stored whole while the answer carries its cut form |
| HistoryChat.MurfStatusPropagates | Task-10/main.py:363-367 | a non-200 Murf answer fails the turn with Murf's status after both messages were stored |
| HistoryChat.ClearAnswer | Task-10/main.py:416-428 | the status is "success" whether or not the session had history; the message tells which |
| HistoryChat.ClearHistoryEndpoint | Task-10/main.py:410-428 | answers `ClearAnswer` of whether the session existed, and removes it |
| ResilientChat.Hearing | Task-12/main.py:640-668 | the AssemblyAI key is checked first; a timeout, an error status or exception, and a blank text each have their own fallback; only a present, non-blank text passes |
| ResilientChat.ReplyText | Task-12/main.py:700-718 | a timeout or failure gives a canned text; a reply is stripped and cut; the result never exceeds 3000 characters |
| ResilientChat.AssistantText | Task-12/main.py:677-682 | without a Gemini key the LLM error text, without asking; otherwise Gemini's answer to the prompt built from the list read |
| ResilientChat.FallbackText | Task-12/main.py:740 | the text read out without audio: "Your message: '", the transcription, "'. My response: '", the reply and the parenthesised note, each at its stated position (the same f-string recurs at lines 788, 801 and 813) |
| ResilientChat.SpeechStep | Task-12/main.py:725-813 | never a fallback; always both texts, the session and the count; audio exactly when the Murf key is set and Murf answered 200 |
| ResilientChat.ChatTurn | Task-12/main.py:631-821 | an unheard turn stores nothing and answers a fallback; a heard turn stores the user's message and the reply, answers with the stored reply (at most 3000 characters) and the prior count plus 2 |
| ResilientChat.ComposeReply | Task-12/main.py:677-718 | the reply text as computed, the prompt built by the loop only when the Gemini key is set |
| ResilientChat.StoreExchange | Task-12/main.py:672-722 | both messages are stored, the reply computed from the list read between them |
| ResilientChat.HeardTurn | Task-12/main.py:672-813 | the count spoken is the prior count plus 2; the store gains exactly the two messages |
| ResilientChat.AgentChatWithHistory | Task-12/main.py:631-821 | the answer is `ChatTurn`'s and the store's new state is `Record` of exactly the turn's messages |
| ResilientChat.StoredReplyIsSpoken | Task-12/main.py:709-722 | the stored reply and the returned reply are the same cut text |
| ResilientChat.MurfRefusalIsPartial | Task-12/main.py:779-789 | a non-200 Murf answer yields "partial_success" with both texts, the count and the failure note |

## Left out

- Network calls to AssemblyAI, Gemini and Murf are not performed. Their outcomes are inputs. The Murf payload's fixed `format` ("MP3") and `sampleRate` (44100) are not modelled.
- `asyncio.wait_for`, `asyncio.to_thread` and the async handlers are left out. Timeouts are modelled as a `TimedOut` outcome of the awaited call. Concurrent requests, and their interleaving on the shared store, are not modelled.
- Parsing of Murf's JSON body is left out. Its `audioFile` field is an input. A body that fails to parse would reach a handler's catch-all, and that path is not modelled.
- The catch-all `except Exception` around a whole handler is modelled only where it answers a failure of a modelled call: a transcription exception, a Gemini exception, or a Murf timeout or request error. Exceptions from code not modelled (logging, JSON) are left out. So is the error-handling version's `general_error` fallback after such an exception.
- `generate_fallback_audio` calls Murf. The model keeps only the message it is given, as `ResilientChat.ChatResponse.Fallback`. The audio it might produce is left out.
- The `/agent/sessions` endpoint, `GET /agent/history/{session_id}` with its timestamp serialisation, `/generate-error-audio`, `/transcribe/file`, `/tts/echo` and `/llm/query/text` are not part of this model.
- FastAPI routing, `UploadFile`, `JSONResponse`, logging and `print` are left out.
- Loading `.env` is left out. Environment variables are passed in as values.
- `datetime.now()` and `isoformat` are left out. Timestamps are opaque integers passed in.
- The thin Murf and AssemblyAI wrappers of earlier versions and the static file server are not part of this model.
- ChatStore.ChatHistoryStore: `get_chat_history` hands back the stored list itself, so later appends show through it. The model does not keep a reference. `Conversation.ReadAndRecord` re-reads the stored list after the append when the session existed, which is the only place the handlers use that alias.
- ResilientChat.ChatResponse.Fallback: it records the message handed to `generate_fallback_audio`, not the response dictionary it builds ("System Error" transcription, count 0, status "fallback").
