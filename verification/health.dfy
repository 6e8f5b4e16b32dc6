/** The `/health` endpoint: which of the three API keys are configured, and
    the summary built from that. */
module Health {
  import opened Wrappers
  import opened Services

  /** `validate_api_keys()`: one flag per service, true when its key is set. */
  datatype KeyStatus = KeyStatus(assemblyai: bool, gemini: bool, murf: bool)

  function ValidateApiKeys(assemblyaiEnv: Option<string>, geminiEnv: Option<string>, murfEnv: Option<string>): (k: KeyStatus)
    ensures k.assemblyai <==> Present(assemblyaiEnv)
    ensures k.gemini <==> Present(geminiEnv)
    ensures k.murf <==> Present(murfEnv)
  {
    KeyStatus(Present(assemblyaiEnv), Present(geminiEnv), Present(murfEnv))
  }

  datatype Overall = Healthy | Degraded
  datatype Availability = Available | Unavailable

  datatype HealthReport = HealthReport(
    status: Overall,
    speechToText: Availability,
    llm: Availability,
    textToSpeech: Availability,
    message: string)

  const AllOperational: string := "All services operational"
  const SomeLimited: string := "Some services may have limited functionality"

  /** Healthy as soon as one key is set; the all-clear message only when all
      three are; each service is available exactly when its own key is set. */
  function HealthCheck(k: KeyStatus): (h: HealthReport)
    ensures h.status == Healthy <==> k.assemblyai || k.gemini || k.murf
    ensures h.message == AllOperational <==> k.assemblyai && k.gemini && k.murf
    ensures h.message == AllOperational || h.message == SomeLimited
    ensures h.speechToText == Available <==> k.assemblyai
    ensures h.llm == Available <==> k.gemini
    ensures h.textToSpeech == Available <==> k.murf
  {
    HealthReport(
      if k.assemblyai || k.gemini || k.murf then Healthy else Degraded,
      if k.assemblyai then Available else Unavailable,
      if k.gemini then Available else Unavailable,
      if k.murf then Available else Unavailable,
      if k.assemblyai && k.gemini && k.murf then AllOperational else SomeLimited)
  }

  /** The all-clear message is never paired with a degraded status, and a
      degraded service always reports limited functionality. */
  lemma MessageAgreesWithStatus(k: KeyStatus)
    ensures HealthCheck(k).message == AllOperational ==> HealthCheck(k).status == Healthy
    ensures HealthCheck(k).status == Degraded ==> HealthCheck(k).message == SomeLimited
  {
  }
}
