/** The `/generate-audio` endpoint of the error-handling version: it checks
    the text, then the Murf key, then maps Murf's answer to a response or to
    an `HTTPException` whose detail always carries a fallback text. */
module TextToSpeech {
  import opened Wrappers
  import opened Text
  import opened Services

  /** The longest text the endpoint accepts. */
  const MaxRequestChars: nat := 5000

  const ApiKeyMissingFallback: string :=
    "The service is temporarily unavailable due to configuration issues. Please try again later."
  const TtsErrorFallback: string :=
    "I understand you, but I'm having trouble generating speech right now."

  const AuthFailedFallback: string :=
    "The text-to-speech service is currently unavailable due to authentication issues"
  const RateLimitFallback: string := "Too many requests. Please wait a moment and try again."
  const TimeoutFallback: string := "Audio generation is taking too long. Please try again with shorter text."
  const NetworkFallback: string :=
    "Unable to connect to the text-to-speech service. Please check your connection and try again."

  /** The body returned on success: `TTSResponse(audio_url, status)`. */
  datatype TtsResponse = TtsResponse(audioUrl: string, status: string)

  /** The checks made before anything is sent: empty or whitespace-only text
      gives 400, text over 5000 characters gives 413 (in that order, so a
      long blank text gives 400), and only then a missing key gives 503. On
      success the result is the key as it will be sent, quotes stripped. */
  function CheckTtsRequest(text: string, murfEnv: Option<string>): (r: Result<string, HttpError>)
    ensures r.Failure? && r.error.status == 400 <==> IsBlank(Some(text))
    ensures r.Failure? && r.error.status == 413 <==> !IsBlank(Some(text)) && |text| > MaxRequestChars
    ensures r.Failure? && r.error.status == 503 <==>
      !IsBlank(Some(text)) && |text| <= MaxRequestChars && !Present(murfEnv)
    ensures r.Success? <==> !IsBlank(Some(text)) && |text| <= MaxRequestChars && Present(murfEnv)
    ensures r.Success? ==> Present(murfEnv) && r.value == StripQuotes(murfEnv.value)
    ensures r.Failure? ==> r.error.detail.WithFallback? && r.error.detail.fallback != []
  {
    if IsBlank(Some(text)) then
      Failure(HttpError(400, WithFallback("Empty text provided", "Please provide some text to convert to speech")))
    else if |text| > MaxRequestChars then
      Failure(HttpError(413, WithFallback("Text too long", "Please provide shorter text (max 5000 characters)")))
    else if !Present(murfEnv) then
      Failure(HttpError(503, WithFallback("Text-to-speech service unavailable", ApiKeyMissingFallback)))
    else
      Success(StripQuotes(murfEnv.value))
  }

  /** How Murf's answer becomes the endpoint's: 200 is success, a 429 stays
      a 429, a 401 and every other status become 503, a timeout 408 and any
      other request error 503. */
  function MurfToTts(o: MurfOutcome): (r: Result<TtsResponse, HttpError>)
    ensures r.Success? <==> o.MurfResponse? && o.statusCode == 200
    ensures r.Success? ==> r.value == TtsResponse(o.audioFile.GetOr(""), "success")
    ensures r.Failure? && r.error.status == 429 <==> o.MurfResponse? && o.statusCode == 429
    ensures r.Failure? && r.error.status == 408 <==> o.MurfTimeout?
    ensures r.Failure? ==> r.error.status in {408, 429, 503}
    ensures r.Failure? ==> r.error.detail.WithFallback? && r.error.detail.fallback != []
  {
    match o
    case MurfResponse(code, body, audioFile) =>
      if code == 200 then Success(TtsResponse(audioFile.GetOr(""), "success"))
      else if code == 401 then
        Failure(HttpError(503, WithFallback("Authentication failed", AuthFailedFallback)))
      else if code == 429 then
        Failure(HttpError(429, WithFallback("Rate limit exceeded", RateLimitFallback)))
      else
        Failure(HttpError(503, WithFallback("TTS service error: " + IntToString(code), TtsErrorFallback)))
    case MurfTimeout(_) =>
      Failure(HttpError(408, WithFallback("Request timeout", TimeoutFallback)))
    case MurfRequestError(_) =>
      Failure(HttpError(503, WithFallback("Network error", NetworkFallback)))
  }

  /** `generate_audio(request)`, with Murf's answer given by `murf`. Murf is
      consulted only once every check has passed, with the stripped key, the
      text as given and the requested voice; every failure carries a fallback. */
  function GenerateAudio(text: string, voiceId: string, murfEnv: Option<string>,
                         murf: MurfRequest -> MurfOutcome): (r: Result<TtsResponse, HttpError>)
    ensures CheckTtsRequest(text, murfEnv).Failure? ==> r == Failure(CheckTtsRequest(text, murfEnv).error)
    ensures r.Success? ==>
      && CheckTtsRequest(text, murfEnv).Success?
      && var sent := murf(MurfRequest(StripQuotes(murfEnv.value), text, voiceId));
      && sent.MurfResponse? && sent.statusCode == 200
      && r.value.audioUrl == sent.audioFile.GetOr("")
    ensures r.Failure? ==> r.error.detail.WithFallback? && r.error.detail.fallback != []
    // once the checks pass, Murf's answer decides: 200 is success, and any
    // other answer fails as `MurfToTts` maps it
    ensures r.Success? <==>
      && CheckTtsRequest(text, murfEnv).Success?
      && var sent := murf(MurfRequest(StripQuotes(murfEnv.value), text, voiceId));
      && sent.MurfResponse? && sent.statusCode == 200
    ensures CheckTtsRequest(text, murfEnv).Success? ==>
      r == MurfToTts(murf(MurfRequest(StripQuotes(murfEnv.value), text, voiceId)))
  {
    match CheckTtsRequest(text, murfEnv)
    case Failure(e) => Failure(e)
    case Success(key) => MurfToTts(murf(MurfRequest(key, text, voiceId)))
  }

  /** The case the error read-out script exercises: posting empty text
      yields 400 with a detail that has a `fallback` field. */
  lemma EmptyTextHasFallback(voiceId: string, murfEnv: Option<string>, murf: MurfRequest -> MurfOutcome)
    ensures GenerateAudio("", voiceId, murfEnv, murf).Failure?
    ensures GenerateAudio("", voiceId, murfEnv, murf).error.status == 400
    ensures GenerateAudio("", voiceId, murfEnv, murf).error.detail.WithFallback?
  {
  }
}
