/** The `/agent/chat/{session_id}` handler of the error-handling version.
    It never raises: a failed transcription answers with a spoken-style
    fallback and stores nothing; once the user was heard, both messages are
    always stored (a canned text stands in for a reply Gemini could not
    give), and a failed speech step still answers with the texts and a
    `partial_success` status. */
module ResilientChat {
  import opened Wrappers
  import opened Text
  import opened Services
  import opened Replies
  import opened ChatStore
  import opened Prompt
  import opened Conversation
  import TextToSpeech

  const SttError: string :=
    "I'm sorry, I'm having trouble understanding your audio right now. Please try speaking again or check your microphone."
  const LlmError: string := "I'm having trouble connecting to my AI brain right now. Please try again in a moment."
  const NoSpeech: string := "I didn't hear anything. Could you please speak louder or closer to your microphone?"
  const SlowAudio: string := "Your audio is taking too long to process. Please try with a shorter recording."
  const SlowThinking: string := "I'm taking a bit longer to think. Let me give you a quick response for now."

  const AudioUnavailable: string := "Conversation processed but audio generation unavailable"
  const AudioRejected: string := "Conversation processed but audio generation failed"
  const AudioTimedOut: string := "Audio generation timed out"
  const AudioFailed: string := "Audio generation failed"
  const AudioTemporarilyUnavailable: string := "Audio generation temporarily unavailable"
  const AudioTooSlow: string := "Audio generation taking too long"

  /** What the handler answers. `Fallback` is what `generate_fallback_audio`
      returns: transcription "System Error", the message as response and as
      fallback text, message count 0, status "fallback". `Spoken` is the
      "success" answer; `Partial` the "partial_success" one, without audio. */
  datatype ChatResponse =
    | Fallback(message: string)
    | Spoken(transcription: string, llmResponse: string, audioUrl: Option<string>,
             sessionId: string, messageCount: nat)
    | Partial(transcription: string, llmResponse: string, sessionId: string, messageCount: nat,
              message: string, fallbackText: string)

  function Status(r: ChatResponse): string {
    match r
    case Fallback(_) => "fallback"
    case Spoken(_, _, _, _, _) => "success"
    case Partial(_, _, _, _, _, _) => "partial_success"
  }

  /** What one turn does: the messages it appends, and its answer. */
  datatype Turn = Turn(appended: seq<Message>, response: ChatResponse)

  /** Step 1: the AssemblyAI key is checked first; then a timeout, an error
      status or an exception, and a missing or blank text each have their
      own fallback message. */
  function Hearing(assemblyaiEnv: Option<string>, transcript: Timed<Transcript>): (r: Result<string, string>)
    ensures r.Success? <==>
      && Present(assemblyaiEnv) && transcript.Completed? && transcript.value.Transcribed?
      && !IsBlank(transcript.value.text)
    ensures r.Success? ==> r.value == transcript.value.text.value && !All(r.value, Whitespace)
    ensures !Present(assemblyaiEnv) ==> r == Failure(TextToSpeech.ApiKeyMissingFallback)
    ensures Present(assemblyaiEnv) && transcript.TimedOut? ==> r == Failure(SlowAudio)
    ensures (Present(assemblyaiEnv) && transcript.Completed? && transcript.value.Transcribed?
             && IsBlank(transcript.value.text)) ==> r == Failure(NoSpeech)
    ensures Present(assemblyaiEnv) && transcript.Completed? && !transcript.value.Transcribed? ==> r == Failure(SttError)
  {
    if !Present(assemblyaiEnv) then Failure(TextToSpeech.ApiKeyMissingFallback)
    else
      match transcript
      case TimedOut => Failure(SlowAudio)
      case Completed(TranscriptError(_)) => Failure(SttError)
      case Completed(TranscribeFailed(_)) => Failure(SttError)
      case Completed(Transcribed(text)) => if IsBlank(text) then Failure(NoSpeech) else Success(text.value)
  }

  /** The text kept as Gemini's answer: a timeout, an exception or an empty
      reply each give a canned text; a reply is stripped and cut to Murf's
      limit. Whatever happens, it fits that limit. */
  function ReplyText(reply: Timed<Reply>): (t: string)
    ensures |t| <= MaxSpokenChars
    ensures reply.TimedOut? ==> t == SlowThinking
    ensures reply.Completed? && reply.value.Generated? && reply.value.text != [] ==>
      t == TruncateForSpeech(Strip(reply.value.text))
    ensures reply.Completed? && (reply.value.LlmFailed? || reply.value.text == []) ==> t == LlmError
  {
    match reply
    case TimedOut => SlowThinking
    case Completed(LlmFailed(_)) => LlmError
    case Completed(Generated(text)) => if text == [] then LlmError else TruncateForSpeech(Strip(text))
  }

  /** Step 3: without a Gemini key the canned error text, without asking;
      otherwise Gemini's answer to the prompt built from the history read. */
  function AssistantText(geminiEnv: Option<string>, llm: string -> Timed<Reply>,
                         chatHistory: seq<Message>, transcribed: string): (t: string)
    ensures |t| <= MaxSpokenChars
    ensures !Present(geminiEnv) ==> t == LlmError
    ensures Present(geminiEnv) ==>
      t == ReplyText(llm(ConversationContext(ContextWindow(chatHistory), transcribed)))
  {
    if !Present(geminiEnv) then LlmError
    else ReplyText(llm(ConversationContext(ContextWindow(chatHistory), transcribed)))
  }

  /** The text read out when there is no audio. */
  function FallbackText(transcribed: string, llmText: string, note: string): (r: string)
    ensures |r| == 15 + |transcribed| + 17 + |llmText| + 3 + |note| + 1
    ensures r[..15] == "Your message: '" && r[15..15 + |transcribed|] == transcribed
    ensures r[15 + |transcribed| + 17..15 + |transcribed| + 17 + |llmText|] == llmText
    ensures r[|r| - |note| - 1..|r| - 1] == note && r[|r| - 1] == ')'
  {
    "Your message: '" + transcribed + "'. My response: '" + llmText + "' (" + note + ")"
  }

  /** Step 4: speak the stored reply. Only a 200 from Murf gives audio; a
      missing key, another status, a timeout or another error each give a
      partial answer that still carries both texts and the count. */
  function SpeechStep(sid: string, messageCount: nat, transcribed: string, llmText: string,
                      murfEnv: Option<string>, murf: MurfRequest -> MurfOutcome): (r: ChatResponse)
    ensures !r.Fallback?
    ensures r.transcription == transcribed && r.llmResponse == llmText
    ensures r.sessionId == sid && r.messageCount == messageCount
    ensures r.Spoken? <==>
      && Present(murfEnv)
      && murf(MurfRequest(StripQuotes(murfEnv.value), llmText, DefaultVoice)).MurfResponse?
      && murf(MurfRequest(StripQuotes(murfEnv.value), llmText, DefaultVoice)).statusCode == 200
    ensures r.Spoken? ==> r.audioUrl == murf(MurfRequest(StripQuotes(murfEnv.value), llmText, DefaultVoice)).audioFile
    ensures !Present(murfEnv) ==>
      r.message == AudioUnavailable && r.fallbackText == FallbackText(transcribed, llmText, AudioTemporarilyUnavailable)
  {
    if !Present(murfEnv) then
      Partial(transcribed, llmText, sid, messageCount, AudioUnavailable,
              FallbackText(transcribed, llmText, AudioTemporarilyUnavailable))
    else
      match murf(MurfRequest(StripQuotes(murfEnv.value), llmText, DefaultVoice))
      case MurfResponse(code, _, audioFile) =>
        if code == 200 then Spoken(transcribed, llmText, audioFile, sid, messageCount)
        else Partial(transcribed, llmText, sid, messageCount, AudioRejected,
                     FallbackText(transcribed, llmText, AudioFailed))
      case MurfTimeout(_) =>
        Partial(transcribed, llmText, sid, messageCount, AudioTimedOut,
                FallbackText(transcribed, llmText, AudioTooSlow))
      case MurfRequestError(_) =>
        Partial(transcribed, llmText, sid, messageCount, AudioFailed,
                FallbackText(transcribed, llmText, AudioTemporarilyUnavailable))
  }

  /** One turn of this version's `agent_chat_with_history`, on the session's
      list before it (`prior`). */
  function ChatTurn(sid: string, prior: Option<seq<Message>>, assemblyaiEnv: Option<string>,
                    transcript: Timed<Transcript>, geminiEnv: Option<string>, llm: string -> Timed<Reply>,
                    murfEnv: Option<string>, murf: MurfRequest -> MurfOutcome,
                    userTime: Timestamp, replyTime: Timestamp): (t: Turn)
    // a turn that was not heard stores nothing and answers with a fallback
    ensures Hearing(assemblyaiEnv, transcript).Failure? ==>
      t == Turn([], Fallback(Hearing(assemblyaiEnv, transcript).error))
    // a turn that was heard stores both messages, whatever the services do
    ensures Hearing(assemblyaiEnv, transcript).Success? ==>
      var text := Hearing(assemblyaiEnv, transcript).value;
      && |t.appended| == 2
      && t.appended[0] == Message(UserRole, text, userTime)
      && t.appended[1].role == AssistantRole && t.appended[1].timestamp == replyTime
      && |t.appended[1].content| <= MaxSpokenChars
      && !t.response.Fallback?
      && t.response.transcription == text
      && t.response.llmResponse == t.appended[1].content
      && t.response.messageCount == |prior.GetOr([])| + 2
      && t.response.sessionId == sid
  {
    match Hearing(assemblyaiEnv, transcript)
    case Failure(message) => Turn([], Fallback(message))
    case Success(text) =>
      var user := Message(UserRole, text, userTime);
      var llmText := AssistantText(geminiEnv, llm, HistorySeen(prior, user), text);
      Turn([user, Message(AssistantRole, llmText, replyTime)],
           SpeechStep(sid, |prior.GetOr([])| + 2, text, llmText, murfEnv, murf))
  }

  /** Step 3 as the handler runs it: the prompt is built, by the loop, only
      when there is a Gemini key. */
  method ComposeReply(geminiEnv: Option<string>, llm: string -> Timed<Reply>,
                      chatHistory: seq<Message>, transcribed: string) returns (llmText: string)
    ensures llmText == AssistantText(geminiEnv, llm, chatHistory, transcribed)
  {
    if !Present(geminiEnv) {
      llmText := LlmError;
    } else {
      var conversationContext := BuildConversationContext(chatHistory, transcribed);
      llmText := ReplyText(llm(conversationContext));
    }
  }

  /** A heard turn is the user's message, then the reply text, then speech. */
  lemma ChatTurnAfterHearing(sid: string, prior: Option<seq<Message>>, assemblyaiEnv: Option<string>,
                             transcript: Timed<Transcript>, geminiEnv: Option<string>, llm: string -> Timed<Reply>,
                             murfEnv: Option<string>, murf: MurfRequest -> MurfOutcome,
                             userTime: Timestamp, replyTime: Timestamp)
    requires Hearing(assemblyaiEnv, transcript).Success?
    ensures
      var text := Hearing(assemblyaiEnv, transcript).value;
      var user := Message(UserRole, text, userTime);
      var llmText := AssistantText(geminiEnv, llm, HistorySeen(prior, user), text);
      ChatTurn(sid, prior, assemblyaiEnv, transcript, geminiEnv, llm, murfEnv, murf, userTime, replyTime)
        == Turn([user, Message(AssistantRole, llmText, replyTime)],
                SpeechStep(sid, |prior.GetOr([])| + 2, text, llmText, murfEnv, murf))
  {
  }

  /** `agent_chat_with_history(session_id, file)` of this version, on the
      shared store: the answer is the turn's, and the session's list gains
      exactly the turn's messages, in order; no other session changes. */
  method AgentChatWithHistory(store: ChatHistoryStore, sid: string, assemblyaiEnv: Option<string>,
                              transcript: Timed<Transcript>, geminiEnv: Option<string>, llm: string -> Timed<Reply>,
                              murfEnv: Option<string>, murf: MurfRequest -> MurfOutcome,
                              userTime: Timestamp, replyTime: Timestamp)
    returns (response: ChatResponse)
    modifies store
    ensures
      var t := ChatTurn(sid, if sid in old(store.sessions) then Some(old(store.sessions)[sid]) else None,
                        assemblyaiEnv, transcript, geminiEnv, llm, murfEnv, murf, userTime, replyTime);
      && response == t.response
      && store.sessions == Record(old(store.sessions), sid, t.appended)
      && store.order == RecordOrder(old(store.order), old(store.sessions), sid, t.appended)
  {
    ghost var prior := if sid in store.sessions then Some(store.sessions[sid]) else None;
    var heard := Hearing(assemblyaiEnv, transcript);
    if heard.Failure? {
      return Fallback(heard.error);
    }
    ChatTurnAfterHearing(sid, prior, assemblyaiEnv, transcript, geminiEnv, llm, murfEnv, murf, userTime, replyTime);
    response := HeardTurn(store, sid, heard.value, geminiEnv, llm, murfEnv, murf, userTime, replyTime);
  }

  /** The handler once the user was heard: both messages are stored, the
      reply built from the history read in between, then spoken. */
  method HeardTurn(store: ChatHistoryStore, sid: string, transcribed: string,
                   geminiEnv: Option<string>, llm: string -> Timed<Reply>,
                   murfEnv: Option<string>, murf: MurfRequest -> MurfOutcome,
                   userTime: Timestamp, replyTime: Timestamp)
    returns (response: ChatResponse)
    modifies store
    ensures
      var prior := if sid in old(store.sessions) then Some(old(store.sessions)[sid]) else None;
      var user := Message(UserRole, transcribed, userTime);
      var llmText := AssistantText(geminiEnv, llm, HistorySeen(prior, user), transcribed);
      var appended := [user, Message(AssistantRole, llmText, replyTime)];
      && response == SpeechStep(sid, |prior.GetOr([])| + 2, transcribed, llmText, murfEnv, murf)
      && store.sessions == Record(old(store.sessions), sid, appended)
      && store.order == RecordOrder(old(store.order), old(store.sessions), sid, appended)
  {
    var llmText := StoreExchange(store, sid, transcribed, geminiEnv, llm, userTime, replyTime);
    var messageCount := store.GetSessionMessageCount(sid);
    response := SpeechStep(sid, messageCount, transcribed, llmText, murfEnv, murf);
  }

  /** Steps 2 and 3: read the history, store the user's message, compose the
      reply from the history read, and store the reply. */
  method StoreExchange(store: ChatHistoryStore, sid: string, transcribed: string,
                       geminiEnv: Option<string>, llm: string -> Timed<Reply>,
                       userTime: Timestamp, replyTime: Timestamp)
    returns (llmText: string)
    modifies store
    ensures
      var prior := if sid in old(store.sessions) then Some(old(store.sessions)[sid]) else None;
      var user := Message(UserRole, transcribed, userTime);
      && llmText == AssistantText(geminiEnv, llm, HistorySeen(prior, user), transcribed)
      && store.sessions == Record(old(store.sessions), sid, [user, Message(AssistantRole, llmText, replyTime)])
      && store.order == RecordOrder(old(store.order), old(store.sessions), sid, [user, Message(AssistantRole, llmText, replyTime)])
  {
    ghost var sessions, order := store.sessions, store.order;
    var user := Message(UserRole, transcribed, userTime);
    var chatHistory := ReadAndRecord(store, sid, transcribed, userTime);
    llmText := ComposeReply(geminiEnv, llm, chatHistory, transcribed);
    store.AddMessage(sid, AssistantRole, llmText, replyTime);
    RecordTwice(order, sessions, sid, [user], [Message(AssistantRole, llmText, replyTime)]);
    assert [user] + [Message(AssistantRole, llmText, replyTime)] == [user, Message(AssistantRole, llmText, replyTime)];
  }

  /** Unlike the version before it, this one stores the reply as spoken: the
      stored text and the returned text are the same, and fit Murf's limit. */
  lemma StoredReplyIsSpoken(sid: string, prior: Option<seq<Message>>, assemblyaiEnv: Option<string>,
                            transcript: Timed<Transcript>, geminiEnv: Option<string>, llm: string -> Timed<Reply>,
                            murfEnv: Option<string>, murf: MurfRequest -> MurfOutcome,
                            userTime: Timestamp, replyTime: Timestamp)
    requires Hearing(assemblyaiEnv, transcript).Success? && Present(geminiEnv)
    requires
      var reply := llm(ChatPrompt(prior, Hearing(assemblyaiEnv, transcript).value, userTime));
      reply.Completed? && reply.value.Generated? && reply.value.text != []
    ensures
      var text := Hearing(assemblyaiEnv, transcript).value;
      var spoken := TruncateForSpeech(Strip(llm(ChatPrompt(prior, text, userTime)).value.text));
      var t := ChatTurn(sid, prior, assemblyaiEnv, transcript, geminiEnv, llm, murfEnv, murf, userTime, replyTime);
      && t.appended == [Message(UserRole, text, userTime), Message(AssistantRole, spoken, replyTime)]
      && t.response.llmResponse == spoken
  {
    ChatTurnAfterHearing(sid, prior, assemblyaiEnv, transcript, geminiEnv, llm, murfEnv, murf, userTime, replyTime);
  }

  /** Murf refusing the request still answers with both texts, the count
      after both messages, and the failure note; nothing is raised. */
  lemma MurfRefusalIsPartial(sid: string, prior: Option<seq<Message>>, assemblyaiEnv: Option<string>,
                             transcript: Timed<Transcript>, geminiEnv: Option<string>, llm: string -> Timed<Reply>,
                             murfEnv: Option<string>, murf: MurfRequest -> MurfOutcome,
                             userTime: Timestamp, replyTime: Timestamp)
    requires Hearing(assemblyaiEnv, transcript).Success? && Present(murfEnv)
    requires
      var t := ChatTurn(sid, prior, assemblyaiEnv, transcript, geminiEnv, llm, murfEnv, murf, userTime, replyTime);
      var sent := murf(MurfRequest(StripQuotes(murfEnv.value), t.appended[1].content, DefaultVoice));
      sent.MurfResponse? && sent.statusCode != 200
    ensures
      var t := ChatTurn(sid, prior, assemblyaiEnv, transcript, geminiEnv, llm, murfEnv, murf, userTime, replyTime);
      var text := Hearing(assemblyaiEnv, transcript).value;
      && t.response.Partial?
      && Status(t.response) == "partial_success"
      && t.response.message == AudioRejected
      && t.response.fallbackText == FallbackText(text, t.appended[1].content, AudioFailed)
      && t.response.messageCount == |prior.GetOr([])| + 2
  {
  }
}
