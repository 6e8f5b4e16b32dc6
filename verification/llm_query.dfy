/** The `/llm/query` pipeline of the first LLM version: audio is transcribed,
    the text is sent to Gemini with a fixed instruction, the reply is cut to
    Murf's limit and spoken. Every step that can fail raises an
    `HTTPException`; nothing is stored. The step functions below are shared
    with the chat handler of the next version, which repeats them verbatim. */
module LlmQuery {
  import opened Wrappers
  import opened Text
  import opened Services
  import opened Replies

  const NoSpeechDetected: string := "No speech detected in audio"
  const GeminiKeyMissing: string := "GEMINI_API_KEY not found in environment variables"
  const MurfKeyMissing: string := "MURF_API_KEY not found in environment variables"
  const NoLlmResponse: string := "No response generated from LLM"

  /** The text of a handler's catch-all `except Exception as e` detail. */
  function Unexpected(prefix: string, message: string): HttpError {
    HttpError(500, Plain(prefix + message))
  }

  /** The transcription checks: an error status or an exception gives 500;
      a missing, empty or whitespace-only text gives 400 "No speech detected
      in audio"; otherwise the text goes on unchanged. */
  function TranscriptGate(t: Transcript, failurePrefix: string): (r: Result<string, HttpError>)
    ensures r.Success? <==> t.Transcribed? && !IsBlank(t.text)
    ensures r.Success? ==> r.value == t.text.value && !All(r.value, Whitespace)
    ensures t.Transcribed? && IsBlank(t.text) ==> r == Failure(HttpError(400, Plain(NoSpeechDetected)))
    ensures r.Failure? ==> r.error.status == 400 || r.error.status == 500
    // an error status, or an exception while transcribing, gives 500
    ensures t.TranscriptError? ==> r == Failure(HttpError(500, Plain("Transcription error: " + t.error)))
    ensures t.TranscribeFailed? ==> r == Failure(HttpError(500, Plain(failurePrefix + t.message)))
  {
    match t
    case TranscriptError(e) => Failure(HttpError(500, Plain("Transcription error: " + e)))
    case TranscribeFailed(m) => Failure(Unexpected(failurePrefix, m))
    case Transcribed(text) =>
      if IsBlank(text) then Failure(HttpError(400, Plain(NoSpeechDetected)))
      else Success(text.value)
  }

  /** The reply checks: an exception gives 500 with the catch-all detail, an
      empty text gives 500 "No response generated from LLM"; otherwise the
      text is stripped. A whitespace-only reply passes (the emptiness test
      comes before the strip) and becomes the empty string. */
  function ReplyGate(o: Reply, failurePrefix: string): (r: Result<string, HttpError>)
    ensures r.Success? <==> o.Generated? && o.text != []
    ensures r.Success? ==> r.value == Strip(o.text)
    ensures o.Generated? && o.text == [] ==> r == Failure(HttpError(500, Plain(NoLlmResponse)))
    ensures r.Failure? ==> r.error.status == 500
  {
    match o
    case LlmFailed(m) => Failure(Unexpected(failurePrefix, m))
    case Generated(text) =>
      if text == [] then Failure(HttpError(500, Plain(NoLlmResponse)))
      else Success(Strip(text))
  }

  /** The Murf request for `text`: 500 when the key is not set; otherwise
      the key with surrounding quotes stripped, the text and the default voice. */
  function SpeechRequest(murfEnv: Option<string>, text: string): (r: Result<MurfRequest, HttpError>)
    ensures r.Success? <==> Present(murfEnv)
    ensures r.Success? ==> r.value.apiKey == StripQuotes(murfEnv.value) && r.value.text == text
    ensures r.Success? ==> r.value.voiceId == DefaultVoice
    ensures r.Failure? ==> r.error == HttpError(500, Plain(MurfKeyMissing))
  {
    if !Present(murfEnv) then Failure(HttpError(500, Plain(MurfKeyMissing)))
    else Success(MurfRequest(StripQuotes(murfEnv.value), text, DefaultVoice))
  }

  /** Murf's answer: 200 yields the audio URL (`""` when the body has none);
      any other status is raised again with that same status; a timeout or
      request error falls to the catch-all 500. */
  function SpeechGate(o: MurfOutcome, failurePrefix: string): (r: Result<string, HttpError>)
    ensures r.Success? <==> o.MurfResponse? && o.statusCode == 200
    ensures r.Success? ==> r.value == o.audioFile.GetOr("")
    ensures o.MurfResponse? && o.statusCode != 200 ==> r.error.status == o.statusCode
    ensures !o.MurfResponse? ==> r.error.status == 500
  {
    match o
    case MurfResponse(code, body, audioFile) =>
      if code == 200 then Success(audioFile.GetOr(""))
      else Failure(HttpError(code, Plain("Murf API error: " + body)))
    case MurfTimeout(m) => Failure(Unexpected(failurePrefix, m))
    case MurfRequestError(m) => Failure(Unexpected(failurePrefix, m))
  }

  const PipelineFailed: string := "LLM audio pipeline failed: "

  /** The prompt sent to Gemini: the instruction, a blank line, the text. */
  function QueryPrompt(transcription: string): (r: string)
    ensures |r| == |QueryInstruction| + |transcription|
    ensures r[..|QueryInstruction|] == QueryInstruction && r[|QueryInstruction|..] == transcription
  {
    QueryInstruction + transcription
  }

  const QueryInstruction: string :=
    "You are a helpful AI assistant. Please respond to the following in a conversational and concise manner (keep it under 2500 characters to fit TTS limits): \n\n"

  datatype QueryResponse = QueryResponse(audioUrl: string, transcription: string, llmResponse: string, status: string)

  /** `llm_query_audio(file)`, with the transcriber's outcome, the Gemini
      model (`llm`) and the Murf API (`murf`) given as inputs. */
  function LlmQueryAudio(transcript: Transcript, geminiEnv: Option<string>, llm: string -> Reply,
                         murfEnv: Option<string>, murf: MurfRequest -> MurfOutcome): (r: Result<QueryResponse, HttpError>)
    // a rejected transcription is reported before Gemini is considered
    ensures TranscriptGate(transcript, PipelineFailed).Failure? ==>
      r == Failure(TranscriptGate(transcript, PipelineFailed).error)
    ensures transcript.Transcribed? && IsBlank(transcript.text) ==>
      r == Failure(HttpError(400, Plain(NoSpeechDetected)))
    // a missing Gemini key is reported before any generation
    ensures TranscriptGate(transcript, PipelineFailed).Success? && !Present(geminiEnv) ==>
      r == Failure(HttpError(500, Plain(GeminiKeyMissing)))
    // on success: the reply spoken and returned is Gemini's, stripped and cut
    // to at most 3000 characters, sent with the stripped key
    ensures r.Success? ==>
      && TranscriptGate(transcript, PipelineFailed).Success?
      && r.value.transcription == TranscriptGate(transcript, PipelineFailed).value
      && Present(geminiEnv) && Present(murfEnv)
      && var reply := llm(QueryPrompt(r.value.transcription));
      && reply.Generated? && reply.text != []
      && r.value.llmResponse == TruncateForSpeech(Strip(reply.text))
      && |r.value.llmResponse| <= MaxSpokenChars
      && var sent := murf(MurfRequest(StripQuotes(murfEnv.value), r.value.llmResponse, DefaultVoice));
      && sent.MurfResponse? && sent.statusCode == 200
      && r.value.audioUrl == sent.audioFile.GetOr("")
      && r.value.status == "success"
    // a reply Gemini could not give fails with the reply check's error
    ensures
      var heard := TranscriptGate(transcript, PipelineFailed);
      heard.Success? && Present(geminiEnv) ==>
        var reply := ReplyGate(llm(QueryPrompt(heard.value)), PipelineFailed);
        reply.Failure? ==> r == Failure(reply.error)
    // with a reply: a missing Murf key fails with 500, and otherwise Murf's
    // answer decides, success exactly on 200 and the speech check's error else
    ensures
      var heard := TranscriptGate(transcript, PipelineFailed);
      heard.Success? && Present(geminiEnv) && !Present(murfEnv) ==>
        var reply := ReplyGate(llm(QueryPrompt(heard.value)), PipelineFailed);
        reply.Success? ==> r == Failure(HttpError(500, Plain(MurfKeyMissing)))
    ensures
      var heard := TranscriptGate(transcript, PipelineFailed);
      heard.Success? && Present(geminiEnv) && Present(murfEnv) ==>
        var reply := ReplyGate(llm(QueryPrompt(heard.value)), PipelineFailed);
        reply.Success? ==>
          var sent := murf(MurfRequest(StripQuotes(murfEnv.value), TruncateForSpeech(reply.value), DefaultVoice));
          && (r.Success? <==> sent.MurfResponse? && sent.statusCode == 200)
          && (r.Failure? ==> r.error == SpeechGate(sent, PipelineFailed).error)
  {
    var heard := TranscriptGate(transcript, PipelineFailed);
    if heard.Failure? then Failure(heard.error)
    else if !Present(geminiEnv) then Failure(HttpError(500, Plain(GeminiKeyMissing)))
    else
      var reply := ReplyGate(llm(QueryPrompt(heard.value)), PipelineFailed);
      if reply.Failure? then Failure(reply.error)
      else
        var spoken := TruncateForSpeech(reply.value);
        var request := SpeechRequest(murfEnv, spoken);
        if request.Failure? then Failure(request.error)
        else
          var audio := SpeechGate(murf(request.value), PipelineFailed);
          if audio.Failure? then Failure(audio.error)
          else Success(QueryResponse(audio.value, heard.value, spoken, "success"))
  }

  /** A non-200 answer from Murf is raised again with Murf's own status. */
  lemma MurfStatusPropagates(transcript: Transcript, geminiEnv: Option<string>, llm: string -> Reply,
                             murfEnv: Option<string>, murf: MurfRequest -> MurfOutcome)
    requires TranscriptGate(transcript, PipelineFailed).Success? && Present(geminiEnv) && Present(murfEnv)
    requires llm(QueryPrompt(TranscriptGate(transcript, PipelineFailed).value)).Generated?
    requires llm(QueryPrompt(TranscriptGate(transcript, PipelineFailed).value)).text != []
    requires
      var reply := llm(QueryPrompt(TranscriptGate(transcript, PipelineFailed).value)).text;
      var sent := murf(MurfRequest(StripQuotes(murfEnv.value), TruncateForSpeech(Strip(reply)), DefaultVoice));
      sent.MurfResponse? && sent.statusCode != 200
    ensures
      var reply := llm(QueryPrompt(TranscriptGate(transcript, PipelineFailed).value)).text;
      var sent := murf(MurfRequest(StripQuotes(murfEnv.value), TruncateForSpeech(Strip(reply)), DefaultVoice));
      LlmQueryAudio(transcript, geminiEnv, llm, murfEnv, murf) == Failure(HttpError(sent.statusCode, Plain("Murf API error: " + sent.body)))
  {
  }
}
