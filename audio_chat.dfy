/** The conversational audio chat: a process-wide store from session id to
    the ordered list of turns, the request handler that extends it, the
    delete and history handlers, and the renderer that writes the recent
    turns into the prompt sent for the reply. */
module AudioChat {
  import opened Strings
  import opened Http
  import opened Config
  import opened AudioUtils
  import opened Providers

  /** One stored `{role, content}` entry. */
  datatype Turn = Turn(role: string, content: string)

  const UserRole := "user"
  const AssistantRole := "assistant"

  /** How many of the most recent turns go into the prompt. */
  const HistoryWindow := 6

  const ContextHeader := "Historial de conversación:\n"
  const UserCue := "\nUsuario: "
  const AssistantCue := "\nAsistente:"

  /** The speaker label written for a stored role: "Usuario" exactly for
      the role "user", "Asistente" for every other role. */
  function RoleLabel(role: string): (speaker: string)
    ensures speaker == "Usuario" <==> role == UserRole
    ensures speaker == "Asistente" <==> role != UserRole
  {
    if role == UserRole then "Usuario" else "Asistente"
  }

  /** The prompt line for one turn: label, ": ", content, newline. */
  function TurnLine(t: Turn): string
  {
    RoleLabel(t.role) + ": " + t.content + "\n"
  }

  /** The prompt line of each turn, in order. */
  function TurnLines(turns: seq<Turn>): (lines: seq<string>)
    ensures |lines| == |turns|
    ensures forall k :: 0 <= k < |turns| ==> lines[k] == TurnLine(turns[k])
  {
    seq(|turns|, k requires 0 <= k < |turns| => TurnLine(turns[k]))
  }

  /** The lines of the turns, one after another. */
  function RenderTurns(turns: seq<Turn>): string
  {
    Concat(TurnLines(turns))
  }

  /** Rendering distributes over concatenation of turn lists. */
  lemma RenderTurnsAppend(a: seq<Turn>, b: seq<Turn>)
    ensures RenderTurns(a + b) == RenderTurns(a) + RenderTurns(b)
  {
    assert TurnLines(a + b) == TurnLines(a) + TurnLines(b);
    ConcatAppend(TurnLines(a), TurnLines(b));
  }

  /** One turn renders as its own line. */
  lemma RenderOneTurn(t: Turn)
    ensures RenderTurns([t]) == TurnLine(t)
  {
    var lines := TurnLines([t]);
    ConcatPrefixStep(lines, 0);
    assert lines[..1] == lines;
    assert Concat(lines[..0]) == "" by {
      assert lines[..0] == [];
    }
    assert lines[0] == TurnLine(t);
  }

  /** The k-th turn is rendered as its own line, after the lines of the turns
      before it and before the lines of the turns after it. */
  lemma RenderTurnsLineAt(turns: seq<Turn>, k: nat)
    requires k < |turns|
    ensures RenderTurns(turns)
            == RenderTurns(turns[..k]) + TurnLine(turns[k]) + RenderTurns(turns[k + 1..])
  {
    var before, t, after := turns[..k], turns[k], turns[k + 1..];
    assert turns == (before + [t]) + after;
    RenderTurnsAppend(before + [t], after);
    RenderTurnsAppend(before, [t]);
    RenderOneTurn(t);
  }

  predicate SingleLine(s: string)
  {
    '\n' !in s
  }

  /** With single-line contents, the rendering has one line per turn. */
  lemma RenderTurnsLineCount(turns: seq<Turn>)
    requires forall k :: 0 <= k < |turns| ==> SingleLine(turns[k].content)
    ensures Count(RenderTurns(turns), '\n') == |turns|
  {
    var lines := TurnLines(turns);
    forall k | 0 <= k < |lines| ensures Count(lines[k], '\n') == 1 {
      TurnLineCount(turns[k]);
    }
    ConcatCount(lines, '\n');
  }

  /** A turn with single-line content renders as exactly one line. */
  lemma TurnLineCount(t: Turn)
    requires SingleLine(t.content)
    ensures Count(TurnLine(t), '\n') == 1
  {
    var speaker := RoleLabel(t.role);
    assert SingleLine(speaker);
    CountAppend(speaker, ": ", '\n');
    CountAppend(speaker + ": ", t.content, '\n');
    CountAppend(speaker + ": " + t.content, "\n", '\n');
  }

  /** Python's `history[-n:]` for n >= 1: the last n turns, or all when
      there are fewer. (At n = 0 Python gives the whole list; the handler
      only ever uses n = 6.) */
  function LastTurns(history: seq<Turn>, n: nat): (window: seq<Turn>)
    requires n > 0
    ensures |window| == if |history| < n then |history| else n
    ensures window == history[|history| - |window|..]
  {
    if |history| <= n then history else history[|history| - n..]
  }

  /** The text `process_text_with_context` hands to the reply generator:
      the message alone when there is no history, otherwise the header, one
      line per turn among the last six, and the current message as the
      user's next line followed by the assistant's cue. */
  function ContextPrompt(message: string, history: seq<Turn>): string
  {
    if |history| == 0 then message
    else ContextHeader + RenderTurns(LastTurns(history, HistoryWindow))
         + UserCue + message + AssistantCue
  }

  /** The `for` loop of `process_text_with_context`: the prompt is built
      by appending one line per windowed turn to the header. */
  method BuildContextPrompt(message: string, history: seq<Turn>) returns (prompt: string)
    ensures prompt == ContextPrompt(message, history)
  {
    if |history| == 0 {
      return message;
    }
    var window := LastTurns(history, HistoryWindow);
    ghost var lines := TurnLines(window);
    prompt := ContextHeader;
    var k := 0;
    while k < |window|
      invariant 0 <= k <= |window|
      invariant prompt == ContextHeader + Concat(lines[..k])
    {
      var line := TurnLine(window[k]);
      ConcatPrefixStep(lines, k);
      AppendAssoc(ContextHeader, Concat(lines[..k]), line);
      prompt := prompt + line;
      k := k + 1;
    }
    assert lines[..k] == lines;
    assert prompt == ContextHeader + RenderTurns(window);
    prompt := prompt + UserCue + message + AssistantCue;
  }

  /** With no history the message goes through unchanged. */
  lemma ContextPromptWithoutHistory(message: string)
    ensures ContextPrompt(message, []) == message
  {
  }

  /** Turns older than the last six do not reach the prompt. */
  lemma ContextPromptIgnoresOlderTurns(message: string, older: seq<Turn>, recent: seq<Turn>)
    requires |recent| >= HistoryWindow
    ensures ContextPrompt(message, older + recent) == ContextPrompt(message, recent)
  {
    var h := older + recent;
    assert LastTurns(h, HistoryWindow) == LastTurns(recent, HistoryWindow) by {
      assert h[|h| - HistoryWindow..] == recent[|recent| - HistoryWindow..];
    }
  }

  /** Each fixed piece of the prompt holds exactly one line break. */
  lemma HeaderLineBreak()
    ensures Count(ContextHeader, '\n') == 1
  {
    assert ContextHeader == "Historial de conversación:" + "\n" + "";
    OneLineBreak("Historial de conversación:", "");
  }

  lemma UserCueLineBreak()
    ensures Count(UserCue, '\n') == 1
  {
    assert UserCue == "" + "\n" + "Usuario: ";
    OneLineBreak("", "Usuario: ");
  }

  lemma AssistantCueLineBreak()
    ensures Count(AssistantCue, '\n') == 1
  {
    assert AssistantCue == "" + "\n" + "Asistente:";
    OneLineBreak("", "Asistente:");
  }

  lemma OneLineBreak(before: string, after: string)
    requires SingleLine(before) && SingleLine(after)
    ensures Count(before + "\n" + after, '\n') == 1
  {
    CountAppend(before, "\n", '\n');
    CountAppend(before + "\n", after, '\n');
  }

  /** With single-line contents and message, a prompt built from history
      has exactly min(6, n) turn lines besides its own three line breaks. */
  lemma ContextPromptLineCount(message: string, history: seq<Turn>)
    requires |history| > 0
    requires SingleLine(message)
    requires forall k :: 0 <= k < |history| ==> SingleLine(history[k].content)
    ensures Count(ContextPrompt(message, history), '\n')
            == 3 + (if |history| < HistoryWindow then |history| else HistoryWindow)
  {
    var window := LastTurns(history, HistoryWindow);
    forall k | 0 <= k < |window| ensures SingleLine(window[k].content) {
      assert window[k] == history[|history| - |window| + k];
    }
    RenderTurnsLineCount(window);
    PromptTextLineBreaks(message, RenderTurns(window));
  }

  /** The header and the two cues hold three line breaks in all. */
  lemma FixedTextLineBreaks()
    ensures Count(ContextHeader, '\n') + Count(UserCue, '\n') + Count(AssistantCue, '\n') == 3
  {
    HeaderLineBreak();
    UserCueLineBreak();
    AssistantCueLineBreak();
  }

  /** The prompt text around a body of turn lines adds three line breaks. */
  lemma PromptTextLineBreaks(message: string, body: string)
    requires SingleLine(message)
    ensures Count(ContextHeader + body + UserCue + message + AssistantCue, '\n') == 3 + Count(body, '\n')
  {
    FixedTextLineBreaks();
    LineBreaksAround(ContextHeader, body, UserCue, message, AssistantCue);
  }

  lemma LineBreaksAround(header: string, body: string, cue: string, message: string, close: string)
    requires Count(header, '\n') + Count(cue, '\n') + Count(close, '\n') == 3
    requires SingleLine(message)
    ensures Count(header + body + cue + message + close, '\n') == 3 + Count(body, '\n')
  {
    CountAppendFive(header, body, cue, message, close, '\n');
  }

  /** The body of a successful `audio_chat` response. */
  datatype AudioChatResponse = AudioChatResponse(
    sessionId: string,
    transcription: string,
    responseText: string,
    audioBase64: string,
    conversationHistory: seq<Turn>)

  /** The body of `get_session_history`. */
  datatype HistoryResponse = HistoryResponse(sessionId: string, history: seq<Turn>, messageCount: nat)

  const SessionNotFound := HttpError(404, "Sesión no encontrada")

  const ChatErrorPrefix := "Error procesando audio chat: "

  /** A request opens a new session when it names none, names the empty
      string, or names an id that is not stored. */
  predicate NeedsNewSession(requested: Option<string>, sessions: map<string, seq<Turn>>)
  {
    requested.None? || requested.value == "" || requested.value !in sessions
  }

  /** The id a request ends up using. */
  function ChosenSessionId(requested: Option<string>, sessions: map<string, seq<Turn>>, freshId: string): string
  {
    if NeedsNewSession(requested, sessions) then freshId else requested.value
  }

  /** The turns of the chosen session before the request adds any. */
  function PriorHistory(requested: Option<string>, sessions: map<string, seq<Turn>>): seq<Turn>
  {
    if NeedsNewSession(requested, sessions) then [] else sessions[requested.value]
  }

  /** The `chat_sessions` map. */
  class SessionStore {
    var sessions: map<string, seq<Turn>>

    constructor ()
      ensures sessions == map[]
    {
      sessions := map[];
    }

    /** The session lookup at the start of `audio_chat`: an absent, empty
        or unknown id binds the fresh id to an empty list; a known id is
        used as it is and nothing changes. */
    method GetOrCreateSession(requested: Option<string>, freshId: string) returns (id: string)
      requires freshId !in sessions
      modifies this
      ensures id == ChosenSessionId(requested, old(sessions), freshId)
      ensures NeedsNewSession(requested, old(sessions)) ==> sessions == old(sessions)[freshId := []]
      ensures !NeedsNewSession(requested, old(sessions)) ==> sessions == old(sessions)
      ensures id in sessions && sessions[id] == PriorHistory(requested, old(sessions))
      ensures sessions == old(sessions)[id := PriorHistory(requested, old(sessions))]
    {
      if requested.None? || requested.value == "" || requested.value !in sessions {
        id := freshId;
        sessions := sessions[id := []];
      } else {
        id := requested.value;
      }
    }

    /** `chat_sessions[id].append(turn)`: the turn goes at the end of that
        session's list; earlier entries and other sessions are unchanged. */
    method AppendTurn(id: string, turn: Turn)
      requires id in sessions
      modifies this
      ensures sessions == old(sessions)[id := old(sessions)[id] + [turn]]
    {
      sessions := sessions[id := sessions[id] + [turn]];
    }

    /** `delete_session`: removes exactly that id when it is stored, and
        otherwise fails with 404 and changes nothing. */
    method DeleteSession(id: string) returns (r: Result<string>)
      modifies this
      ensures id in old(sessions) ==>
                r == Ok("Sesión " + id + " eliminada") && sessions == old(sessions) - {id}
      ensures id !in old(sessions) ==> r == Err(SessionNotFound) && sessions == old(sessions)
    {
      if id in sessions {
        sessions := sessions - {id};
        return Ok("Sesión " + id + " eliminada");
      } else {
        return Err(SessionNotFound);
      }
    }

    /** `get_session_history`: 404 for an unknown id; otherwise the stored
        list and its length. It only reads the store. */
    function GetSessionHistory(id: string): (r: Result<HistoryResponse>)
      reads this
      ensures r.Err? <==> id !in sessions
      ensures r.Err? ==> r.error == SessionNotFound
      ensures r.Ok? ==> r.value.sessionId == id && r.value.history == sessions[id]
                        && r.value.messageCount == |sessions[id]|
    {
      if id !in sessions then Err(SessionNotFound)
      else Ok(HistoryResponse(id, sessions[id], |sessions[id]|))
    }

    /** The `try` body of `audio_chat`, once the upload is saved at `path`
        holding `saved`: the `try` body from transcription to the response.
        It changes only the chosen session, leaves it holding ExchangeTurns,
        makes the calls ExchangeCalls lists, and either fails with the
        exception ExchangeResult reports or produces its response. */
    method ConverseTurn(sid: string, path: string, saved: seq<byte>,
                        transcription: Outcome<string>, reply: Outcome<string>, speech: Outcome<string>)
      returns (response: Option<AudioChatResponse>, failure: Option<Exception>, ghost calls: seq<ProviderCall>)
      requires sid in sessions
      modifies this
      ensures sessions == old(sessions)[sid := ExchangeTurns(old(sessions)[sid], transcription, reply)]
      ensures calls == ExchangeCalls(path, saved, old(sessions)[sid], transcription, reply)
      ensures response.Some? <==> failure.None?
      ensures response.Some? ==>
                ExchangeResult(sid, old(sessions)[sid], transcription, reply, speech) == Ok(response.value)
      ensures failure.Some? ==>
                ExchangeResult(sid, old(sessions)[sid], transcription, reply, speech)
                == Err(MapException(failure.value, ChatErrorPrefix))
    {
      response, failure := None, None;
      calls := [Transcribe(path, saved)];
      match transcription {
        case Fault(m) =>
          failure := Some(OtherException(m));
        case Value(text) =>
          AppendTurn(sid, Turn(UserRole, text));
          var history := sessions[sid];
          assert history[..|history| - 1] == old(sessions)[sid];
          var prompt := BuildContextPrompt(text, history[..|history| - 1]);
          calls := calls + [GenerateReply(prompt)];
          match reply {
            case Fault(m) =>
              failure := Some(OtherException(m));
            case Value(responseText) =>
              ghost var withUser := history;
              AppendTurn(sid, Turn(AssistantRole, responseText));
              UpdateTwice(old(sessions), sid, withUser, sessions[sid]);
              assert sessions[sid] == old(sessions)[sid] + [Turn(UserRole, text), Turn(AssistantRole, responseText)];
              calls := calls + [Synthesize(responseText)];
              match speech {
                case Fault(m) =>
                  failure := Some(OtherException(m));
                case Value(audioBase64) =>
                  response := Some(AudioChatResponse(sid, text, responseText, audioBase64, sessions[sid]));
              }
          }
      }
    }

    /** The part of `audio_chat` after validation: the upload is saved,
        ConverseTurn runs on it, the saved file is removed in the `finally`
        (so the file system ends as it began), and the outcome is mapped
        to an HTTP result. A failed save is a 500 and reaches no provider. */
    method SaveAndConverse(audio: UploadFile, fs: FileSystem, sid: string, stem: string, saveFault: SaveFault,
                           transcription: Outcome<string>, reply: Outcome<string>, speech: Outcome<string>)
      returns (r: Result<AudioChatResponse>, ghost calls: seq<ProviderCall>, ghost cleaned: seq<string>)
      requires audio.Valid() && audio.position == 0
      requires sid in sessions
      requires stem != "" && TempPath(stem, audio.filename) !in fs.files
      modifies this, audio, fs
      ensures var path := TempPath(stem, audio.filename);
              && (saveFault != NoFault ==>
                    r == Err(SaveError) && calls == [] && cleaned == [] && sessions == old(sessions)
                    && fs.files == (if saveFault == WriteFails then old(fs.files)[path := []] else old(fs.files)))
              && (saveFault == NoFault ==>
                    var prior := old(sessions)[sid];
                    cleaned == [path] && fs.files == old(fs.files)
                    && calls == ExchangeCalls(path, audio.content, prior, transcription, reply)
                    && sessions == old(sessions)[sid := ExchangeTurns(prior, transcription, reply)]
                    && r == ExchangeResult(sid, prior, transcription, reply, speech))
      ensures audio.position == (if saveFault == CreateFails then 0 else |audio.content|)
    {
      calls, cleaned := [], [];
      var tempFilePath: Option<string> := None;
      var failure: Option<Exception> := None;
      var response: Option<AudioChatResponse> := None;

      var saved := fs.SaveTempFile(audio, stem, saveFault);
      if saved.Err? {
        failure := Some(HttpException(saved.error));
      } else {
        tempFilePath := Some(saved.value);
        assert audio.content[0..] == audio.content;
        response, failure, calls := ConverseTurn(sid, saved.value, fs.files[saved.value],
                                                 transcription, reply, speech);
        CleanupUndoesSave(old(fs.files), saved.value, audio.content);
      }
      // finally
      if tempFilePath.Some? && |tempFilePath.value| > 0 && fs.Exists(tempFilePath.value) {
        fs.CleanupTempFile(tempFilePath.value);
        cleaned := [tempFilePath.value];
      }
      match failure {
        case Some(e) => r := Err(MapException(e, ChatErrorPrefix));
        case None => r := Ok(response.value);
      }
    }

    /** `audio_chat`. The session is opened before the upload is validated,
        so even a rejected request leaves it in the store; a rejected upload
        is refused with its own 400 before anything is saved or called. */
    method AudioChat(audio: UploadFile, fs: FileSystem, settings: Settings,
                     requested: Option<string>, freshId: string, stem: string, saveFault: SaveFault,
                     transcription: Outcome<string>, reply: Outcome<string>, speech: Outcome<string>)
      returns (r: Result<AudioChatResponse>, ghost calls: seq<ProviderCall>, ghost cleaned: seq<string>)
      requires audio.Valid()
      requires freshId !in sessions
      requires stem != "" && TempPath(stem, audio.filename) !in fs.files
      modifies this, audio, fs
      ensures var sid := ChosenSessionId(requested, old(sessions), freshId);
              var prior := PriorHistory(requested, old(sessions));
              var invalid := ValidationError(settings, audio.filename, |audio.content|);
              var path := TempPath(stem, audio.filename);
              && (invalid.Some? ==>
                    r == Err(invalid.value) && calls == [] && cleaned == []
                    && sessions == old(sessions)[sid := prior] && fs.files == old(fs.files))
              && (invalid.None? && saveFault != NoFault ==>
                    r == Err(SaveError) && calls == [] && cleaned == []
                    && sessions == old(sessions)[sid := prior]
                    && fs.files == (if saveFault == WriteFails then old(fs.files)[path := []] else old(fs.files)))
              && (invalid.None? && saveFault == NoFault ==>
                    cleaned == [path] && fs.files == old(fs.files)
                    && calls == ExchangeCalls(path, audio.content, prior, transcription, reply)
                    && sessions == old(sessions)[sid := ExchangeTurns(prior, transcription, reply)]
                    && r == ExchangeResult(sid, prior, transcription, reply, speech))
      ensures FileExtension(audio.filename) !in AllowedFormatsList(settings) ==> audio.position == old(audio.position)
      ensures FileExtension(audio.filename) in AllowedFormatsList(settings) ==>
                audio.position == (if ValidationError(settings, audio.filename, |audio.content|).Some?
                                      || saveFault == CreateFails then 0 else |audio.content|)
    {
      var sessionId := GetOrCreateSession(requested, freshId);
      ghost var afterOpen := sessions;
      var invalid := ValidateAudioFile(audio, settings);
      if invalid.Some? {
        // the `except HTTPException: raise` path; nothing was saved
        r, calls, cleaned := Err(MapException(HttpException(invalid.value), ChatErrorPrefix)), [], [];
      } else {
        r, calls, cleaned := SaveAndConverse(audio, fs, sessionId, stem, saveFault, transcription, reply, speech);
        UpdateTwice(old(sessions), sessionId, afterOpen[sessionId], sessions[sessionId]);
      }
    }
  }

  /** Setting a key twice keeps only the second value. */
  lemma UpdateTwice<K, V>(m: map<K, V>, k: K, first: V, second: V)
    ensures m[k := first][k := second] == m[k := second]
  {
  }

  /** The turns a saved upload leaves in its session, given the history
      before the request and what transcription and reply produced: the
      user's turn once transcription succeeds, the assistant's once the
      reply does. Nothing is ever removed, so the history only grows. */
  function ExchangeTurns(prior: seq<Turn>, transcription: Outcome<string>, reply: Outcome<string>): (turns: seq<Turn>)
    ensures prior <= turns
    ensures |turns| == |prior| + (if transcription.Fault? then 0 else if reply.Fault? then 1 else 2)
  {
    match transcription
    case Fault(_) => prior
    case Value(text) =>
      match reply
      case Fault(_) => prior + [Turn(UserRole, text)]
      case Value(responseText) => prior + [Turn(UserRole, text), Turn(AssistantRole, responseText)]
  }

  /** The provider calls of that run, in order: transcription of the saved
      file, then the reply for the prompt built from the prior history,
      then speech for the reply; each only if the stage before succeeded. */
  ghost function ExchangeCalls(path: string, saved: seq<byte>, prior: seq<Turn>,
                               transcription: Outcome<string>, reply: Outcome<string>): (calls: seq<ProviderCall>)
    ensures 1 <= |calls| <= 3 && calls[0] == Transcribe(path, saved)
    ensures |calls| == 1 <==> transcription.Fault?
    ensures |calls| == 3 <==> transcription.Value? && reply.Value?
  {
    [Transcribe(path, saved)]
    + match transcription
      case Fault(_) => []
      case Value(text) =>
        [GenerateReply(ContextPrompt(text, prior))]
        + match reply
          case Fault(_) => []
          case Value(responseText) => [Synthesize(responseText)]
  }

  /** The handler's result for that run: a 500 carrying the message of the
      first failing stage, or the response with the stored history. */
  function ExchangeResult(sid: string, prior: seq<Turn>, transcription: Outcome<string>,
                          reply: Outcome<string>, speech: Outcome<string>): (r: Result<AudioChatResponse>)
    ensures r.Ok? <==> transcription.Value? && reply.Value? && speech.Value?
    ensures r.Err? ==> r.error.status == 500 && ChatErrorPrefix <= r.error.detail
    ensures r.Ok? ==> r.value.sessionId == sid
                      && r.value.conversationHistory == ExchangeTurns(prior, transcription, reply)
  {
    match transcription
    case Fault(m) => Err(HttpError(500, ChatErrorPrefix + m))
    case Value(text) =>
      match reply
      case Fault(m) => Err(HttpError(500, ChatErrorPrefix + m))
      case Value(responseText) =>
        match speech
        case Fault(m) => Err(HttpError(500, ChatErrorPrefix + m))
        case Value(audioBase64) =>
          Ok(AudioChatResponse(sid, text, responseText, audioBase64, ExchangeTurns(prior, transcription, reply)))
  }

  /** No rollback: when the reply fails, the user's turn stays in the
      session, dangling, and the request fails with the reply's message. */
  lemma ReplyFailureKeepsUserTurn(sid: string, prior: seq<Turn>, text: string, message: string,
                                  speech: Outcome<string>)
    ensures ExchangeTurns(prior, Value(text), Fault(message)) == prior + [Turn(UserRole, text)]
    ensures ExchangeResult(sid, prior, Value(text), Fault(message), speech)
            == Err(HttpError(500, ChatErrorPrefix + message))
  {
  }

  /** No rollback: when synthesis fails, both turns stay in the session. */
  lemma SpeechFailureKeepsBothTurns(sid: string, prior: seq<Turn>, text: string, responseText: string,
                                    message: string)
    ensures ExchangeTurns(prior, Value(text), Value(responseText))
            == prior + [Turn(UserRole, text), Turn(AssistantRole, responseText)]
    ensures ExchangeResult(sid, prior, Value(text), Value(responseText), Fault(message))
            == Err(HttpError(500, ChatErrorPrefix + message))
  {
  }

  /** A successful run answers with the stage outputs and the session's
      history extended by exactly the user's and the assistant's turns. */
  lemma SuccessfulExchange(sid: string, prior: seq<Turn>, text: string, responseText: string,
                           audioBase64: string)
    ensures ExchangeResult(sid, prior, Value(text), Value(responseText), Value(audioBase64))
            == Ok(AudioChatResponse(sid, text, responseText, audioBase64,
                                    prior + [Turn(UserRole, text), Turn(AssistantRole, responseText)]))
  {
  }

  /** The reply is asked for with the history as it was before the request:
      for a new session, with the transcription alone. */
  lemma ReplySeesPriorHistory(path: string, saved: seq<byte>, prior: seq<Turn>, text: string,
                              reply: Outcome<string>)
    ensures ExchangeCalls(path, saved, prior, Value(text), reply)[1] == GenerateReply(ContextPrompt(text, prior))
    ensures prior == [] ==> ExchangeCalls(path, saved, prior, Value(text), reply)[1] == GenerateReply(text)
  {
  }

  /** In a fully successful run each stage gets the previous stage's output:
      the saved file, then the prompt built from the transcription, then
      the reply. */
  lemma ExchangeStagesFeedEachOther(path: string, saved: seq<byte>, prior: seq<Turn>,
                                    text: string, responseText: string)
    ensures ExchangeCalls(path, saved, prior, Value(text), Value(responseText))
            == [Transcribe(path, saved), GenerateReply(ContextPrompt(text, prior)), Synthesize(responseText)]
  {
  }

  /** Two successful requests on a new session leave four turns, user and
      assistant alternating, in the order they were made. */
  lemma TwoExchangesHistory(first: string, firstReply: string, second: string, secondReply: string)
    ensures ExchangeTurns(ExchangeTurns([], Value(first), Value(firstReply)), Value(second), Value(secondReply))
            == [Turn(UserRole, first), Turn(AssistantRole, firstReply),
                Turn(UserRole, second), Turn(AssistantRole, secondReply)]
  {
  }

  /** A user turn is written as "Usuario: " and its content on one line. */
  lemma UserTurnLine(content: string)
    ensures TurnLine(Turn(UserRole, content)) == "Usuario: " + content + "\n"
  {
    assert "Usuario" + ": " == "Usuario: ";
  }

  /** An assistant turn is written as "Asistente: " and its content on one line. */
  lemma AssistantTurnLine(content: string)
    ensures TurnLine(Turn(AssistantRole, content)) == "Asistente: " + content + "\n"
  {
    assert RoleLabel(AssistantRole) == "Asistente" by {
      assert |AssistantRole| != |UserRole|;
    }
    assert "Asistente" + ": " == "Asistente: ";
  }

  /** After a first successful exchange in a new session, the second
      request's prompt quotes that exchange line by line. */
  lemma SecondRequestQuotesFirst(text: string, responseText: string, next: string)
    ensures ContextPrompt(next, ExchangeTurns([], Value(text), Value(responseText)))
            == ContextHeader + ("Usuario: " + text + "\n") + ("Asistente: " + responseText + "\n")
               + UserCue + next + AssistantCue
  {
    var user, assistant := Turn(UserRole, text), Turn(AssistantRole, responseText);
    var turns := [user, assistant];
    assert ExchangeTurns([], Value(text), Value(responseText)) == turns;
    assert LastTurns(turns, HistoryWindow) == turns;
    assert turns == [user] + [assistant];
    RenderTurnsAppend([user], [assistant]);
    RenderOneTurn(user);
    RenderOneTurn(assistant);
    UserTurnLine(text);
    AssistantTurnLine(responseText);
    var userLine, assistantLine := "Usuario: " + text + "\n", "Asistente: " + responseText + "\n";
    assert ContextHeader + (userLine + assistantLine) == ContextHeader + userLine + assistantLine;
  }

  /** Deleting a session and then asking for its history gives 404. */
  method DeleteThenHistory(store: SessionStore, id: string) returns (history: Result<HistoryResponse>)
    modifies store
    ensures history == Err(SessionNotFound)
  {
    var _ := store.DeleteSession(id);
    history := store.GetSessionHistory(id);
  }
}
