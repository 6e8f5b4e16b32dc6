/** The length rule applied to every LLM reply before it is sent to Murf,
    whose text-to-speech endpoint takes at most 3000 characters. */
module Replies {

  /** Replies longer than this are cut. */
  const MaxSpokenChars: nat := 3000
  /** How much of a cut reply is kept. */
  const KeptChars: nat := 2900
  /** What a cut reply ends with instead. */
  const Continuation: string := "... I have more to share, but let me pause here."

  /** A reply of at most 3000 characters is returned as it is; a longer one
      becomes its first 2900 characters followed by the continuation, 2948
      characters in all, so the result never exceeds the limit. */
  function TruncateForSpeech(text: string): (r: string)
    ensures |Continuation| == 48
    ensures |r| <= MaxSpokenChars
    ensures r == text <==> |text| <= MaxSpokenChars
    ensures |text| > MaxSpokenChars ==>
      && |r| == KeptChars + |Continuation|
      && r[..KeptChars] == text[..KeptChars]
      && r[KeptChars..] == Continuation
  {
    if |text| > MaxSpokenChars then text[..KeptChars] + Continuation else text
  }

  /** Cutting a cut reply changes nothing. */
  lemma TruncateIdempotent(text: string)
    ensures TruncateForSpeech(TruncateForSpeech(text)) == TruncateForSpeech(text)
  {
  }
}
