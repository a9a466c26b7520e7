# Voice Agent AI — verified model of the request logic

Voice Agent AI is a FastAPI service with two audio endpoints:

- `/voice-agent` takes an audio file, transcribes it, asks a language model for a reply, synthesizes the reply as speech and returns the three results.
- `/audio-chat` does the same within a conversation. It keeps a process-wide map from session id to the ordered list of turns, and it writes the recent turns into the prompt.

The speech, chat and synthesis steps are calls to an external provider. This project models, in Dafny, the deterministic logic around those calls and proves what it promises:

- **Settings** (`config.dfy`, module `Config`): the comma-separated allow-list of extensions, split and stripped, and the megabyte limit in bytes.
- **Upload handling** (`audio_utils.dfy`, module `AudioUtils`):
  - validation: the extension check first, then too large, then empty;
  - the upload stream as an object with a read position that validation rewinds;
  - the temporary-file lifecycle over a file system modelled as a map from existing paths to their bytes.
- **Conversations** (`audio_chat.dfy`, module `AudioChat`):
  - the session store as a class whose `sessions` map its methods update in place;
  - the `audio_chat`, `delete_session` and `get_session_history` handlers;
  - the context-prompt renderer, as a loop proved against a recursive rendering function.
- **Single-shot pipeline** (`voice_agent.dfy`, module `VoiceAgent`): the `voice_agent` handler, which runs validate → save → transcribe → reply → synthesize, maps errors and cleans up in `finally`; and the error-body handler.
- **Shared support**:
  - `http.dfy` (module `Http`): HTTP errors, results and the exception mapping both handlers share;
  - `providers.dfy` (module `Providers`): provider outcomes and the record of provider calls;
  - `strings.dfy` (module `Strings`): the Python string built-ins the core relies on;
  - `validation_examples.dfy` (module `ValidationExamples`): the validation outcomes the API tests expect under the default settings, stated for any plain file stem.

Each provider call is an abstract outcome: `Value(v)` or `Fault(message)`. Each handler takes the three outcomes as parameters and records the calls it makes in a ghost trace (`Transcribe(path, bytes)`, `GenerateReply(prompt)`, `Synthesize(text)`). Its contract states which stages ran, in what order and on which inputs. The id from `uuid4()` and the temporary file name are also parameters, each required to be unused. A fault of `save_temp_file` is a parameter too: none, before the file is created, or after.

In several places the code behaves differently from what a reader of the endpoints might expect. The model follows the code:

- **No rollback.** One might expect the two turns of an exchange to be appended together, once everything has succeeded. The code appends the user's turn before asking for the reply, and the assistant's turn before synthesis. A later failure leaves them in place, so a failed reply leaves a dangling user turn (`AudioChat.ReplyFailureKeepsUserTurn`).
- **Session before validation.** The session is opened before the upload is validated, so a rejected upload still creates a new, empty session.
- **Empty session id.** An empty `session_id` is treated like a missing one.
- **No empty-reply fallback.** An empty reply is not replaced by any default text; the reply outcome is passed on as it is.
- **Too large before empty.** The size limit is checked before emptiness, so an upload is reported as too large before it is reported as empty. The order matters only for a negative limit.
- **Case-insensitive matching.** Only the file's extension is lower-cased, not the allow-list. An allow-list entry with an upper-case ASCII letter therefore never matches (`AudioUtils.UppercaseEntryNeverMatches`).
- **Cleanup guard.** `voice_agent` cleans up whenever a path was obtained. `audio_chat` also checks that the path exists first.
- **Leaked file.** If `save_temp_file` fails after creating its file, the handler never learns the path, so the empty file stays on disk. Temporary files are therefore not released on every path.

## Model

| member | source | states |
|---|---|---|
| `Strings.Split` | app/config.py:34 | `str.split(sep)`: one piece per separator plus one, no piece contains the separator, and joining the pieces with it gives back the input |
| `Strings.SplitJoin` | app/config.py:34 | splitting a join of separator-free pieces gives back the pieces |
| `Strings.Strip` | app/config.py:34 | `str.strip()`: the result is a contiguous middle of the input, only whitespace is dropped on either side, and it neither starts nor ends with whitespace |
| `Strings.StripKeepsAbsent` | app/config.py:34 | stripping never introduces a character the input did not hold |
| `Strings.StripStripped` | app/config.py:34 | stripping a string without surrounding whitespace leaves it unchanged (so stripping is idempotent) |
| `Strings.RFind` | app/utils/audio_utils.py:23 | the last occurrence of a character, or -1 exactly when it does not occur |
| `Strings.Lower` | app/utils/audio_utils.py:23 | same length, each character lowered, no upper-case ASCII letter left |
| `Strings.NatToDecimal` | app/utils/audio_utils.py:38 | `str(n)` for n >= 0: at least one digit, only digits, no leading zero except for 0 itself, and the digits read back as n |
| `Strings.IntToDecimal` | app/utils/audio_utils.py:38 | `str(n)`: '-' first exactly when n is negative, then only digits with no leading zero (unless n is 0), read back as the magnitude of n |
| `Config.AllowedFormatsList` | app/config.py:32-34 | the list has one entry per comma plus one (never empty); no entry holds a comma or surrounding whitespace |
| `Config.AllowedFormatsOfJoin` | app/config.py:34 | comma-joined entries come back each stripped, in their original order |
| `Config.AllowedFormatsOfStrippedJoin` | app/config.py:34 | entries already stripped come back exactly |
| `Config.DefaultFormats` | app/config.py:19-34 | the default setting gives exactly [".wav", ".mp3"] |
| `Config.EmptySegmentSurvives` | app/config.py:34 | an empty piece between two commas stays as an "" entry |
| `Config.MaxAudioSizeBytes` | app/config.py:37-39 | the byte limit is a whole number of MiB equal to the setting, and non-negative for a non-negative setting |
| `Config.MaxAudioSizeBytesMonotone` | app/config.py:39 | a larger megabyte setting never gives a smaller byte limit |
| `Config.DefaultMaxAudioSize` | app/config.py:18-39 | the default limit is 10485760 bytes |
| `AudioUtils.PathNameShape` | app/utils/audio_utils.py:23 | the final path component is the tail after the last '/' and holds no '/' |
| `AudioUtils.SuffixShape` | app/utils/audio_utils.py:23 | the pathlib suffix is empty exactly when the name is empty, has no '.' after its first character, or ends in '.'; otherwise it is the name's tail from its last '.' |
| `AudioUtils.SuffixOfPlainName` | app/utils/audio_utils.py:23 | a stem without '.' or '/' followed by '.' and a non-empty ending without '.' or '/' has exactly that dotted ending as its suffix |
| `AudioUtils.ValidationError` | app/utils/audio_utils.py:23-47 | a file passes exactly when its lower-cased extension is allowed and its size is between 1 and the byte limit; every rejection is a 400 |
| `AudioUtils.FormatCheckedFirst` | app/utils/audio_utils.py:23-28 | a bad extension is reported whatever the size, even for an empty or oversized file |
| `AudioUtils.TooLargeRejected` | app/utils/audio_utils.py:35-39 | with an allowed extension, a size above the limit gives the "too large" error, before emptiness is checked |
| `AudioUtils.EmptyRejected` | app/utils/audio_utils.py:41-45 | with an allowed extension and a non-negative limit, size 0 gives the "empty" error |
| `AudioUtils.SizeAtLimitAccepted` | app/utils/audio_utils.py:35-47 | a size exactly at the limit is accepted |
| `AudioUtils.UppercaseEntryNeverMatches` | app/utils/audio_utils.py:23-24 | an allow-list entry with an upper-case ASCII letter never equals a file's extension |
| `ValidationExamples.WavExtension` | app/utils/audio_utils.py:23 | the extension of any plain stem followed by ".wav" (such as "test.wav") is ".wav" |
| `ValidationExamples.TxtExtension` | app/utils/audio_utils.py:23 | the extension of any plain stem followed by ".txt" (such as "test.txt") is ".txt" |
| `ValidationExamples.TextNotAllowedByDefault` | app/utils/audio_utils.py:23-28 | under the default setting a ".txt" extension is not in the allow-list |
| `ValidationExamples.DefaultRejectsText` | tests/test_api.py:64-71 | under the defaults, a ".txt" file of any size is refused with the format error |
| `ValidationExamples.DefaultRejectsEmptyWav` | tests/test_api.py:74-81 | under the defaults, an empty ".wav" file is refused as empty |
| `ValidationExamples.DefaultRejectsLargeWav` | tests/test_api.py:84-93 | under the defaults, a ".wav" file over 10485760 bytes (such as the 20 MB upload) is refused as too large |
| `ValidationExamples.DefaultAcceptsWav` | tests/test_api.py:33-55 | under the defaults, a ".wav" file of 1 to 10485760 bytes passes validation |
| `AudioUtils.UploadFile.SeekEnd` | app/utils/audio_utils.py:31 | `seek(0, 2)` puts the position at the end |
| `AudioUtils.UploadFile.SeekStart` | app/utils/audio_utils.py:33 | `seek(0)` puts the position at the start |
| `AudioUtils.UploadFile.Read` | app/utils/audio_utils.py:74 | `read()` returns the bytes from the current position on and leaves the position at the end |
| `AudioUtils.ValidateAudioFile` | app/utils/audio_utils.py:12-47 | raises exactly what ValidationError says; a passing file is rewound to position 0, and a bad extension leaves the stream untouched |
| `AudioUtils.FileSystem.SaveTempFile` | app/utils/audio_utils.py:50-86 | on success, a new file named stem + the original (not lower-cased) suffix holds the upload's bytes from the read position on; a failure before creation changes nothing; a failure after it leaves an empty file; every failure is 500 "Error al procesar el archivo" |
| `AudioUtils.FileSystem.CleanupTempFile` | app/utils/audio_utils.py:89-101 | the file system becomes AfterCleanup of the old one: the path is gone, nothing else changes, and it never fails |
| `AudioUtils.AfterCleanup` | app/utils/audio_utils.py:96-98 | the path is absent afterwards, and every other path is present with the same bytes exactly when it was before |
| `AudioUtils.CleanupIdempotent` | app/utils/audio_utils.py:89-101 | cleaning up twice is cleaning up once |
| `AudioUtils.CleanupAbsentIsNoop` | app/utils/audio_utils.py:96-98 | cleaning up a path that does not exist changes nothing |
| `AudioUtils.CleanupUndoesSave` | app/utils/audio_utils.py:66-98 | removing a freshly created file restores the file system as it was before the save |
| `Http.MapException` | app/main.py:128-137 | an `HTTPException` passes through unchanged; any other exception becomes 500 with the prefix followed by its message |
| `AudioChat.RoleLabel` | app/routes/audio_chat.py:665 | a turn is labelled "Usuario" exactly when its role is "user", otherwise "Asistente" |
| `AudioChat.UserTurnLine` | app/routes/audio_chat.py:665-666 | a user turn renders as "Usuario: " + content + newline |
| `AudioChat.AssistantTurnLine` | app/routes/audio_chat.py:665-666 | an assistant turn renders as "Asistente: " + content + newline |
| `AudioChat.RenderOneTurn` | app/routes/audio_chat.py:665-666 | a single turn renders as its own line |
| `AudioChat.TurnLineCount` | app/routes/audio_chat.py:665-666 | a turn with single-line content renders with exactly one line break |
| `Strings.ConcatAppend` | app/routes/audio_chat.py:664-666 | text built up with `+=` over two lists of pieces is the text of the first followed by that of the second |
| `Strings.ConcatCount` | app/routes/audio_chat.py:664-666 | when every piece holds a character once, the built-up text holds it once per piece |
| `AudioChat.RenderTurnsAppend` | app/routes/audio_chat.py:664-666 | rendering a concatenation of turn lists is the concatenation of their renderings |
| `AudioChat.RenderTurnsLineAt` | app/routes/audio_chat.py:664-666 | each turn is its own line (the k-th of `TurnLines`), after the lines of the turns before it and before those after it (chronological order) |
| `AudioChat.RenderTurnsLineCount` | app/routes/audio_chat.py:664-666 | with single-line contents the rendering has exactly one line per turn |
| `AudioChat.LastTurns` | app/routes/audio_chat.py:664 | `history[-n:]` for n >= 1 (the handler uses n = 6): the last min(n, len) turns, as a suffix of the history |
| `AudioChat.BuildContextPrompt` | app/routes/audio_chat.py:646-671 | the loop that builds the prompt produces ContextPrompt: the message alone without history, otherwise the header, one line per turn of the last six, then "\nUsuario: " + message + "\nAsistente:" |
| `AudioChat.ContextPromptWithoutHistory` | app/routes/audio_chat.py:658-660 | with empty history the message is passed through unchanged |
| `AudioChat.ContextPromptIgnoresOlderTurns` | app/routes/audio_chat.py:664 | turns older than the last six do not affect the prompt |
| `AudioChat.ContextPromptLineCount` | app/routes/audio_chat.py:663-668 | with single-line texts, a prompt built from history has 3 + min(6, n) line breaks; the three come from the header and the two cues, which hold one each (the step lemmas `HeaderLineBreak`, `UserCueLineBreak`, `AssistantCueLineBreak`, `FixedTextLineBreaks` and `PromptTextLineBreaks`) |
| `AudioChat.SessionStore.constructor` | app/routes/audio_chat.py:22 | the store starts empty |
| `AudioChat.SessionStore.GetOrCreateSession` | app/routes/audio_chat.py:547-552 | an absent, empty or unknown id binds the fresh id to an empty list; a known id is returned and the store is unchanged |
| `AudioChat.SessionStore.AppendTurn` | app/routes/audio_chat.py:569-572 | the turn goes at the end of that session; every other entry is unchanged |
| `AudioChat.SessionStore.DeleteSession` | app/routes/audio_chat.py:623-630 | a stored id is removed alone, with the confirmation message; an unknown id is a 404 and nothing changes |
| `AudioChat.SessionStore.GetSessionHistory` | app/routes/audio_chat.py:634-643 | 404 exactly for an unknown id; otherwise the stored list and its length, without changing the store |
| `AudioChat.SessionStore.ConverseTurn` | app/routes/audio_chat.py:563-604 | after the save, only the chosen session changes, to ExchangeTurns; the calls are ExchangeCalls; the outcome is ExchangeResult |
| `AudioChat.SessionStore.SaveAndConverse` | app/routes/audio_chat.py:559-619 | a failed save is a 500 with no provider call and no session change; after a save, the file system ends as it began, the path is cleaned once, and sessions, calls and result are as the Exchange functions say; the upload stream ends at its end, or at 0 when the file could not be created |
| `AudioChat.SessionStore.AudioChat` | app/routes/audio_chat.py:522-619 | the session is opened first; a rejected upload returns its 400 with no save, no call and the new session left in the store; otherwise as SaveAndConverse. The upload stream is untouched after a format rejection, rewound to 0 after a size rejection or a failed file creation, and at its end otherwise |
| `AudioChat.ExchangeTurns` | app/routes/audio_chat.py:569-586 | the session history only grows: by 0 turns if transcription fails, 1 if the reply fails, 2 otherwise |
| `AudioChat.ExchangeCalls` | app/routes/audio_chat.py:565-590 | transcription of the saved file always comes first; the reply is asked for only after a transcription, and speech only after a reply |
| `AudioChat.ExchangeResult` | app/routes/audio_chat.py:565-615 | success exactly when all three stages succeed, with the session id and the stored history; every failure is a 500 prefixed "Error procesando audio chat: " |
| `AudioChat.ReplyFailureKeepsUserTurn` | app/routes/audio_chat.py:569-579 | a failed reply leaves the user's turn appended and fails with the reply's message |
| `AudioChat.SpeechFailureKeepsBothTurns` | app/routes/audio_chat.py:583-590 | a failed synthesis leaves both turns appended and fails with its message |
| `AudioChat.SuccessfulExchange` | app/routes/audio_chat.py:569-604 | a successful run answers with the stage outputs and the history extended by exactly the user and assistant turns |
| `AudioChat.ReplySeesPriorHistory` | app/routes/audio_chat.py:576-579 | the reply is requested with the prompt built from the history before this request; for a new session, with the transcription alone |
| `AudioChat.ExchangeStagesFeedEachOther` | app/routes/audio_chat.py:565-590 | in a fully successful run the saved file is transcribed, the reply is asked for the prompt built from the transcription and the prior history, and the reply text is synthesized |
| `AudioChat.TwoExchangesHistory` | app/routes/audio_chat.py:569-586 | two successful requests on a new session leave four turns, alternating user and assistant, in order |
| `AudioChat.SecondRequestQuotesFirst` | app/routes/audio_chat.py:663-668 | the second request's prompt quotes the first exchange as two lines between the header and the cues |
| `AudioChat.DeleteThenHistory` | app/routes/audio_chat.py:623-643 | deleting a session and then reading its history gives 404 |
| `VoiceAgent.PipelineCalls` | app/main.py:104-114 | transcription of the saved file comes first; each later stage runs only if the one before it succeeded |
| `VoiceAgent.StagesFeedEachOther` | app/main.py:104-114 | on success each stage gets the previous one's output: the saved file, then the transcription, then the reply |
| `VoiceAgent.PipelineResult` | app/main.py:104-137 | success exactly when all three stages succeed, carrying their three outputs; otherwise a 500 "Error en el procesamiento: " + the first failing stage's message |
| `VoiceAgent.RunStages` | app/main.py:104-126 | the three stages in a row change nothing and make exactly the PipelineCalls; they respond or fail as PipelineResult says |
| `VoiceAgent.VoiceAgent` | app/main.py:82-142 | a rejected upload keeps its 400, with no save, no call and no cleanup; a failed save is a 500 with no call; after a save, cleanup runs once and the file system ends as it began; every error is 400 or 500. The upload stream is untouched after a format rejection, rewound to 0 after a size rejection or a failed file creation, and at its end otherwise |
| `VoiceAgent.HttpExceptionHandler` | app/main.py:145-154 | the status is kept, `error` is the detail, and `detail` repeats it exactly when it is non-empty |
| `VoiceAgent.ErrorBodyRecoversError` | app/main.py:145-154 | the original error can be read back from the status and body |

## Left out

- The provider calls (speech-to-text, chat completion, text-to-speech) are abstract outcomes. Their requests, the TTS response format and the base64 encoding are not modelled.
- `processing_time` and `time.time()` are wall-clock floats and are left out of both response types.
- `uuid.uuid4()` and the random temporary file name become parameters that must not already be in use. Their randomness is not modelled.
- Concurrency: the handlers are async but take no lock. Each handler is modelled as one uninterrupted run, so interleaved requests on the same session are not modelled.
- Logging, FastAPI routing, the demo HTML page, the `/` and `/health` endpoints, pydantic schema checks (such as the 422 for a missing file) and loading settings from the environment are left out.
- The file system is a map from existing paths to their bytes. Directory creation, partial writes and an unlink that fails are not modelled. A failing unlink would be swallowed and logged, which the model treats as a successful removal.
- A missing upload file name (`None`) is not modelled; every upload has a string name.
- `Strings.Lower`: lower-cases ASCII letters only; Python's `str.lower()` also lowers non-ASCII letters.
- `AudioUtils.PathNameShape`: the final component is the text after the last '/'. pathlib's handling of trailing slashes, "." and ".." components, and of the name "." itself, is not modelled.
- `Strings.Split`: models `split` with a one-character separator only, which is the only use the core makes of it.
