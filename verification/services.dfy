/** What the handlers see of the world outside them: environment variables,
    the AssemblyAI transcriber, the Gemini model and the Murf speech API.
    None of these is called here; each call is an input to the model. */
module Services {
  import opened Wrappers
  import opened Text

  /** A moment, as `datetime.now()` would return it. */
  type Timestamp = int

  /** `if os.getenv(NAME):` — the variable is set and not empty. */
  predicate Present(env: Option<string>) {
    env.Some? && env.value != []
  }

  /** `not text or text.strip() == ""` for a string that may be `None`. */
  predicate IsBlank(text: Option<string>)
    ensures IsBlank(text) <==> text.None? || All(text.value, Whitespace)
  {
    if text.None? then true
    else
      StripEmptyIff(text.value, Whitespace);
      text.value == [] || Strip(text.value) == []
  }

  /** The result of `transcriber.transcribe(...)`: a transcript whose text may
      be `None`, a transcript whose status is `error`, or an exception. */
  datatype Transcript =
    | Transcribed(text: Option<string>)
    | TranscriptError(error: string)
    | TranscribeFailed(message: string)

  /** The result of `model.generate_content(...)` read through `.text`: the
      text (possibly empty), or an exception. */
  datatype Reply =
    | Generated(text: string)
    | LlmFailed(message: string)

  /** A call wrapped in `asyncio.wait_for`: its own outcome, or a timeout. */
  datatype Timed<+T> = Completed(value: T) | TimedOut

  /** The voice used for every spoken LLM reply. */
  const DefaultVoice: string := "en-US-natalie"

  /** The request posted to Murf's `speech/generate`: the key sent in the
      `api-key` header, the text and the voice. The payload's fixed format
      (MP3) and sample rate (44100) are left out. */
  datatype MurfRequest = MurfRequest(apiKey: string, text: string, voiceId: string)

  /** What the post to Murf yields: a response (status code, body text and
      the `audioFile` field of the JSON body, if any), an httpx timeout, or
      another request error. */
  datatype MurfOutcome =
    | MurfResponse(statusCode: int, body: string, audioFile: Option<string>)
    | MurfTimeout(message: string)
    | MurfRequestError(message: string)

  /** The `detail` of an `HTTPException`: a plain string, or an object with
      an `error` text and a `fallback` text meant to be read to the user. */
  datatype Detail =
    | Plain(text: string)
    | WithFallback(error: string, fallback: string)

  /** An `HTTPException` raised by a handler. */
  datatype HttpError = HttpError(status: int, detail: Detail)
}
