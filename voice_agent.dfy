/** The single-shot `/voice-agent` handler: validate the upload, save it,
    transcribe, reply, synthesize, answer with the three texts; plus the
    handler that turns every `HTTPException` into a JSON error body. */
module VoiceAgent {
  import opened Http
  import opened Config
  import opened AudioUtils
  import opened Providers

  /** The body of a successful `/voice-agent` response. */
  datatype VoiceAgentResponse = VoiceAgentResponse(transcription: string, responseText: string, audioBase64: string)

  const PipelineErrorPrefix := "Error en el procesamiento: "

  /** The provider calls made once the upload is saved at `path` holding
      `saved`, in order: transcription of that file, a reply to the
      transcription as it is, speech for the reply; each only if the stage
      before it succeeded. */
  ghost function PipelineCalls(path: string, saved: seq<byte>,
                               transcription: Outcome<string>, reply: Outcome<string>): (calls: seq<ProviderCall>)
    ensures 1 <= |calls| <= 3 && calls[0] == Transcribe(path, saved)
    ensures |calls| == 1 <==> transcription.Fault?
    ensures |calls| == 3 <==> transcription.Value? && reply.Value?
  {
    [Transcribe(path, saved)]
    + match transcription
      case Fault(_) => []
      case Value(text) =>
        [GenerateReply(text)]
        + match reply
          case Fault(_) => []
          case Value(responseText) => [Synthesize(responseText)]
  }

  /** The handler's result once the upload is saved: the three stage
      outputs, or a 500 carrying the message of the first failing stage. */
  function PipelineResult(transcription: Outcome<string>, reply: Outcome<string>, speech: Outcome<string>)
    : (r: Result<VoiceAgentResponse>)
    ensures r.Ok? <==> transcription.Value? && reply.Value? && speech.Value?
    ensures r.Ok? ==> r.value == VoiceAgentResponse(transcription.value, reply.value, speech.value)
    ensures transcription.Fault? ==> r == Err(HttpError(500, PipelineErrorPrefix + transcription.message))
    ensures transcription.Value? && reply.Fault? ==> r == Err(HttpError(500, PipelineErrorPrefix + reply.message))
    ensures transcription.Value? && reply.Value? && speech.Fault? ==>
              r == Err(HttpError(500, PipelineErrorPrefix + speech.message))
  {
    match transcription
    case Fault(m) => Err(HttpError(500, PipelineErrorPrefix + m))
    case Value(text) =>
      match reply
      case Fault(m) => Err(HttpError(500, PipelineErrorPrefix + m))
      case Value(responseText) =>
        match speech
        case Fault(m) => Err(HttpError(500, PipelineErrorPrefix + m))
        case Value(audioBase64) => Ok(VoiceAgentResponse(text, responseText, audioBase64))
  }

  /** When every stage succeeds, each is fed the previous one's output:
      the saved file, then the transcription, then the reply. */
  lemma StagesFeedEachOther(path: string, saved: seq<byte>, text: string, responseText: string)
    ensures PipelineCalls(path, saved, Value(text), Value(responseText))
            == [Transcribe(path, saved), GenerateReply(text), Synthesize(responseText)]
  {
  }

  /** The three provider stages inside the `try` of `voice_agent`, each
      fed the previous one's output. It changes nothing; it either produces the
      response or stops at the first failure, as PipelineResult says, after
      the calls PipelineCalls lists. */
  method RunStages(path: string, saved: seq<byte>,
                   transcription: Outcome<string>, reply: Outcome<string>, speech: Outcome<string>)
    returns (response: Option<VoiceAgentResponse>, failure: Option<Exception>, ghost calls: seq<ProviderCall>)
    ensures calls == PipelineCalls(path, saved, transcription, reply)
    ensures response.Some? <==> failure.None?
    ensures response.Some? ==> PipelineResult(transcription, reply, speech) == Ok(response.value)
    ensures failure.Some? ==>
              PipelineResult(transcription, reply, speech) == Err(MapException(failure.value, PipelineErrorPrefix))
  {
    response, failure := None, None;
    calls := [Transcribe(path, saved)];
    match transcription {
      case Fault(m) =>
        failure := Some(OtherException(m));
      case Value(text) =>
        calls := calls + [GenerateReply(text)];
        match reply {
          case Fault(m) =>
            failure := Some(OtherException(m));
          case Value(responseText) =>
            calls := calls + [Synthesize(responseText)];
            match speech {
              case Fault(m) =>
                failure := Some(OtherException(m));
              case Value(audioBase64) =>
                response := Some(VoiceAgentResponse(text, responseText, audioBase64));
            }
        }
    }
  }

  /** `voice_agent`. A rejected upload is refused with its own 400 before
      anything is saved or called. A failed save is a 500 and reaches no
      provider; a save that failed after creating the file leaves it
      behind, since no path was obtained to clean up. Once the upload is
      saved, the stages run on it, the file is removed whatever happens
      (so the file system ends as it began), and the result is
      PipelineResult. Every error is a 400 or a 500. */
  method VoiceAgent(audio: UploadFile, fs: FileSystem, settings: Settings, stem: string, saveFault: SaveFault,
                    transcription: Outcome<string>, reply: Outcome<string>, speech: Outcome<string>)
    returns (r: Result<VoiceAgentResponse>, ghost calls: seq<ProviderCall>, ghost cleaned: seq<string>)
    requires audio.Valid()
    requires stem != "" && TempPath(stem, audio.filename) !in fs.files
    modifies audio, fs
    ensures r.Err? ==> r.error.status == 400 || r.error.status == 500
    ensures var invalid := ValidationError(settings, audio.filename, |audio.content|);
            var path := TempPath(stem, audio.filename);
            && (invalid.Some? ==>
                  r == Err(invalid.value) && calls == [] && cleaned == [] && fs.files == old(fs.files))
            && (invalid.None? && saveFault != NoFault ==>
                  r == Err(SaveError) && calls == [] && cleaned == []
                  && fs.files == (if saveFault == WriteFails then old(fs.files)[path := []] else old(fs.files)))
            && (invalid.None? && saveFault == NoFault ==>
                  cleaned == [path] && fs.files == old(fs.files)
                  && calls == PipelineCalls(path, audio.content, transcription, reply)
                  && r == PipelineResult(transcription, reply, speech))
    ensures FileExtension(audio.filename) !in AllowedFormatsList(settings) ==> audio.position == old(audio.position)
    ensures FileExtension(audio.filename) in AllowedFormatsList(settings) ==>
              audio.position == (if ValidationError(settings, audio.filename, |audio.content|).Some?
                                    || saveFault == CreateFails then 0 else |audio.content|)
  {
    calls, cleaned := [], [];
    var tempFilePath: Option<string> := None;
    var failure: Option<Exception> := None;
    var response: Option<VoiceAgentResponse> := None;

    var invalid := ValidateAudioFile(audio, settings);
    if invalid.Some? {
      failure := Some(HttpException(invalid.value));
    } else {
      var saved := fs.SaveTempFile(audio, stem, saveFault);
      if saved.Err? {
        failure := Some(HttpException(saved.error));
      } else {
        tempFilePath := Some(saved.value);
        assert audio.content[0..] == audio.content;
        response, failure, calls := RunStages(saved.value, fs.files[saved.value], transcription, reply, speech);
        CleanupUndoesSave(old(fs.files), saved.value, audio.content);
      }
    }
    // finally
    if tempFilePath.Some? && |tempFilePath.value| > 0 {
      fs.CleanupTempFile(tempFilePath.value);
      cleaned := [tempFilePath.value];
    }
    match failure {
      case Some(e) => r := Err(MapException(e, PipelineErrorPrefix));
      case None => r := Ok(response.value);
    }
  }

  /** The JSON body of an error response (`ErrorResponse`). */
  datatype ErrorBody = ErrorBody(error: string, detail: Option<string>)

  /** `http_exception_handler`: keeps the status code, puts the detail in
      `error`, and repeats it in `detail` unless it is empty. */
  function HttpExceptionHandler(e: HttpError): (response: (int, ErrorBody))
    ensures response.0 == e.status
    ensures response.1.error == e.detail
    ensures response.1.detail.Some? <==> e.detail != ""
    ensures response.1.detail.Some? ==> response.1.detail.value == e.detail
  {
    (e.status, ErrorBody(e.detail, if e.detail != "" then Some(e.detail) else None))
  }

  /** The error the handler was given can be read back from the body it wrote. */
  lemma ErrorBodyRecoversError(e: HttpError)
    ensures var (status, body) := HttpExceptionHandler(e);
            HttpError(status, body.error) == e
            && (match body.detail case Some(d) => d case None => "") == e.detail
  {
  }
}
