/** The `/agent/chat/{session_id}` handler of the version with in-memory
    history, and its `DELETE /agent/history/{session_id}` endpoint. A turn
    transcribes the audio, stores the user's message, asks Gemini with the
    recent history as context, stores the full reply, and speaks a version of
    it cut to Murf's limit. Every failure raises an `HTTPException`, but what
    was stored before it stays stored. */
module HistoryChat {
  import opened Wrappers
  import opened Text
  import opened Services
  import opened Replies
  import opened ChatStore
  import opened Prompt
  import opened LlmQuery
  import opened Conversation

  /** The prefix of the handler's catch-all 500 detail. */
  const ChatFailed: string := "Chat agent failed: "

  /** The JSON body of a successful turn. */
  datatype ChatReply = ChatReply(
    audioUrl: string, transcription: string, llmResponse: string,
    sessionId: string, messageCount: nat, status: string)

  /** What one turn does: the messages it appends to the session's list, in
      order, and what it answers. */
  datatype Turn = Turn(appended: seq<Message>, result: Result<ChatReply, HttpError>)

  /** One turn of `agent_chat_with_history`, on the session's list before it
      (`prior`), with the transcriber's outcome, Gemini (`llm`) and Murf
      (`murf`) as inputs and the two moments the messages are stamped with. */
  function ChatTurn(sid: string, prior: Option<seq<Message>>, transcript: Transcript,
                    geminiEnv: Option<string>, llm: string -> Reply,
                    murfEnv: Option<string>, murf: MurfRequest -> MurfOutcome,
                    userTime: Timestamp, replyTime: Timestamp): (t: Turn)
    // a rejected transcription stores nothing
    ensures TranscriptGate(transcript, ChatFailed).Failure? ==>
      t == Turn([], Failure(TranscriptGate(transcript, ChatFailed).error))
    // otherwise the user's message is stored first, whatever happens next
    ensures TranscriptGate(transcript, ChatFailed).Success? ==>
      1 <= |t.appended| <= 2 && t.appended[0] == Message(UserRole, transcript.text.value, userTime)
    // the reply is stored exactly when Gemini produced one, before any speech step
    ensures |t.appended| == 2 <==>
      && TranscriptGate(transcript, ChatFailed).Success? && Present(geminiEnv)
      && ReplyGate(llm(ChatPrompt(prior, transcript.text.value, userTime)), ChatFailed).Success?
    ensures |t.appended| == 2 ==>
      t.appended[1] == Message(AssistantRole,
        Strip(llm(ChatPrompt(prior, transcript.text.value, userTime)).text), replyTime)
    // a success reports both messages and speaks the stored reply cut to Murf's limit
    ensures t.result.Success? ==>
      && |t.appended| == 2
      && t.result.value.transcription == transcript.text.value
      && t.result.value.llmResponse == TruncateForSpeech(t.appended[1].content)
      && t.result.value.messageCount == |prior.GetOr([])| + 2
      && t.result.value.sessionId == sid
      && t.result.value.status == "success"
  {
    var heard := TranscriptGate(transcript, ChatFailed);
    if heard.Failure? then Turn([], Failure(heard.error))
    else
      HeardChatTurn(sid, |prior.GetOr([])|, heard.value, ChatPrompt(prior, heard.value, userTime),
                    geminiEnv, llm, murfEnv, murf, userTime, replyTime)
  }

  /** A turn whose transcription passed with `text`, on a list of
      `priorCount` messages, `prompt` being the prompt built for it: the
      user's message is stored, then the steps from the Gemini key check on
      run. */
  function HeardChatTurn(sid: string, priorCount: nat, text: string, prompt: string,
                         geminiEnv: Option<string>, llm: string -> Reply,
                         murfEnv: Option<string>, murf: MurfRequest -> MurfOutcome,
                         userTime: Timestamp, replyTime: Timestamp): (t: Turn)
    ensures 1 <= |t.appended| <= 2 && t.appended[0] == Message(UserRole, text, userTime)
    ensures |t.appended| == 2 <==> Present(geminiEnv) && ReplyGate(llm(prompt), ChatFailed).Success?
    ensures |t.appended| == 2 ==> t.appended[1] == Message(AssistantRole, Strip(llm(prompt).text), replyTime)
    ensures t.result.Success? ==>
      && |t.appended| == 2
      && t.result.value.transcription == text
      && t.result.value.llmResponse == TruncateForSpeech(t.appended[1].content)
      && t.result.value.messageCount == priorCount + 2
      && t.result.value.sessionId == sid
      && t.result.value.status == "success"
  {
    var answer := AnswerStep(sid, priorCount + 1, text, prompt, geminiEnv, llm, murfEnv, murf, replyTime);
    Turn([Message(UserRole, text, userTime)] + answer.appended, answer.result)
  }

  /** The steps after the user's message is stored, `storedCount` messages
      in all: the Gemini key check, the reply (stored whole, stripped), then
      the speech steps. */
  function AnswerStep(sid: string, storedCount: nat, transcribed: string, prompt: string,
                      geminiEnv: Option<string>, llm: string -> Reply,
                      murfEnv: Option<string>, murf: MurfRequest -> MurfOutcome, replyTime: Timestamp): (a: Turn)
    ensures |a.appended| <= 1
    ensures |a.appended| == 1 <==> Present(geminiEnv) && ReplyGate(llm(prompt), ChatFailed).Success?
    ensures |a.appended| == 1 ==> a.appended[0] == Message(AssistantRole, Strip(llm(prompt).text), replyTime)
    ensures !Present(geminiEnv) ==> a.result == Failure(HttpError(500, Plain(GeminiKeyMissing)))
    ensures a.result.Success? ==>
      && |a.appended| == 1
      && a.result.value.transcription == transcribed
      && a.result.value.llmResponse == TruncateForSpeech(a.appended[0].content)
      && a.result.value.messageCount == storedCount + 1
      && a.result.value.sessionId == sid
      && a.result.value.status == "success"
    // a reply Gemini could not give fails with the reply check's error
    ensures Present(geminiEnv) && ReplyGate(llm(prompt), ChatFailed).Failure? ==>
      a.result == Failure(ReplyGate(llm(prompt), ChatFailed).error)
    // once the reply is stored, the speech steps decide the answer
    ensures |a.appended| == 1 ==>
      a.result == SpeakReplyStep(sid, storedCount + 1, transcribed, a.appended[0].content, murfEnv, murf)
  {
    if !Present(geminiEnv) then Turn([], Failure(HttpError(500, Plain(GeminiKeyMissing))))
    else
      var reply := ReplyGate(llm(prompt), ChatFailed);
      if reply.Failure? then Turn([], Failure(reply.error))
      else
        Turn([Message(AssistantRole, reply.value, replyTime)],
             SpeakReplyStep(sid, storedCount + 1, transcribed, reply.value, murfEnv, murf))
  }

  /** The steps after the reply is stored: cut it to Murf's limit, send it
      with the stripped key, and answer with Murf's audio URL, or raise the
      missing key, Murf's own status, or the catch-all 500. */
  function SpeakReplyStep(sid: string, messageCount: nat, transcribed: string, llmText: string,
                          murfEnv: Option<string>, murf: MurfRequest -> MurfOutcome): (r: Result<ChatReply, HttpError>)
    ensures r.Success? <==>
      && Present(murfEnv)
      && murf(MurfRequest(StripQuotes(murfEnv.value), TruncateForSpeech(llmText), DefaultVoice)).MurfResponse?
      && murf(MurfRequest(StripQuotes(murfEnv.value), TruncateForSpeech(llmText), DefaultVoice)).statusCode == 200
    ensures r.Success? ==>
      r.value == ChatReply(
        murf(MurfRequest(StripQuotes(murfEnv.value), TruncateForSpeech(llmText), DefaultVoice)).audioFile.GetOr(""),
        transcribed, TruncateForSpeech(llmText), sid, messageCount, "success")
    ensures !Present(murfEnv) ==> r == Failure(HttpError(500, Plain(MurfKeyMissing)))
    // Murf's refusal keeps Murf's status; a timeout or request error is the catch-all 500
    ensures Present(murfEnv) ==>
      var sent := murf(MurfRequest(StripQuotes(murfEnv.value), TruncateForSpeech(llmText), DefaultVoice));
      && (sent.MurfResponse? && sent.statusCode != 200 ==> r.Failure? && r.error.status == sent.statusCode)
      && (!sent.MurfResponse? ==> r == Failure(HttpError(500, Plain(ChatFailed + sent.message))))
  {
    var spoken := TruncateForSpeech(llmText);
    var request := SpeechRequest(murfEnv, spoken);
    if request.Failure? then Failure(request.error)
    else
      var audio := SpeechGate(murf(request.value), ChatFailed);
      if audio.Failure? then Failure(audio.error)
      else Success(ChatReply(audio.value, transcribed, spoken, sid, messageCount, "success"))
  }

  /** Steps 2 to 4 of the handler: read the session's history, store the
      user's message, and build the prompt from the history read. The list
      read is the stored one when the session exists, so the prompt sees the
      message just stored. */
  method RecordUtterance(store: ChatHistoryStore, sid: string, transcribed: string, userTime: Timestamp)
    returns (conversationContext: string)
    modifies store
    ensures conversationContext
      == ChatPrompt(if sid in old(store.sessions) then Some(old(store.sessions)[sid]) else None, transcribed, userTime)
    ensures store.sessions == Record(old(store.sessions), sid, [Message(UserRole, transcribed, userTime)])
    ensures store.order == RecordOrder(old(store.order), old(store.sessions), sid, [Message(UserRole, transcribed, userTime)])
  {
    var chatHistory := ReadAndRecord(store, sid, transcribed, userTime);
    conversationContext := BuildConversationContext(chatHistory, transcribed);
  }

  /** The handler from the Gemini key check on, once the user's message is
      stored and the prompt built. */
  method AnswerUtterance(store: ChatHistoryStore, sid: string, transcribed: string, prompt: string,
                         geminiEnv: Option<string>, llm: string -> Reply,
                         murfEnv: Option<string>, murf: MurfRequest -> MurfOutcome, replyTime: Timestamp)
    returns (r: Result<ChatReply, HttpError>)
    modifies store
    ensures
      var a := AnswerStep(sid, |old(store.History(sid))|, transcribed, prompt, geminiEnv, llm, murfEnv, murf, replyTime);
      && r == a.result
      && store.sessions == Record(old(store.sessions), sid, a.appended)
      && store.order == RecordOrder(old(store.order), old(store.sessions), sid, a.appended)
  {
    if !Present(geminiEnv) {
      return Failure(HttpError(500, Plain(GeminiKeyMissing)));
    }
    var reply := ReplyGate(llm(prompt), ChatFailed);
    if reply.Failure? {
      return Failure(reply.error);
    }
    r := StoreAndSpeak(store, sid, transcribed, reply.value, murfEnv, murf, replyTime);
  }

  /** The reply is stored whole, then spoken; the count reported is the
      session's list length once it is stored. */
  method StoreAndSpeak(store: ChatHistoryStore, sid: string, transcribed: string, llmText: string,
                       murfEnv: Option<string>, murf: MurfRequest -> MurfOutcome, replyTime: Timestamp)
    returns (r: Result<ChatReply, HttpError>)
    modifies store
    ensures r == SpeakReplyStep(sid, |old(store.History(sid))| + 1, transcribed, llmText, murfEnv, murf)
    ensures store.sessions == Record(old(store.sessions), sid, [Message(AssistantRole, llmText, replyTime)])
    ensures store.order == RecordOrder(old(store.order), old(store.sessions), sid, [Message(AssistantRole, llmText, replyTime)])
  {
    ghost var before := |store.History(sid)|;
    store.AddMessage(sid, AssistantRole, llmText, replyTime);
    var messageCount := store.GetSessionMessageCount(sid);
    assert messageCount == before + 1;
    r := SpeakReplyStep(sid, messageCount, transcribed, llmText, murfEnv, murf);
  }

  /** `agent_chat_with_history(session_id, file)` on the shared store: the
      answer is the turn's, and the session's list gains exactly the turn's
      messages, in order; no other session changes. */
  method AgentChatWithHistory(store: ChatHistoryStore, sid: string, transcript: Transcript,
                              geminiEnv: Option<string>, llm: string -> Reply,
                              murfEnv: Option<string>, murf: MurfRequest -> MurfOutcome,
                              userTime: Timestamp, replyTime: Timestamp)
    returns (r: Result<ChatReply, HttpError>)
    modifies store
    ensures
      var t := ChatTurn(sid, if sid in old(store.sessions) then Some(old(store.sessions)[sid]) else None,
                        transcript, geminiEnv, llm, murfEnv, murf, userTime, replyTime);
      && r == t.result
      && store.sessions == Record(old(store.sessions), sid, t.appended)
      && store.order == RecordOrder(old(store.order), old(store.sessions), sid, t.appended)
  {
    ghost var prior := if sid in store.sessions then Some(store.sessions[sid]) else None;
    var heard := TranscriptGate(transcript, ChatFailed);
    if heard.Failure? {
      return Failure(heard.error);
    }
    ChatTurnAfterHearing(sid, prior, transcript, geminiEnv, llm, murfEnv, murf, userTime, replyTime);
    r := HeardTurn(store, sid, heard.value, geminiEnv, llm, murfEnv, murf, userTime, replyTime);
  }

  /** The handler once the transcription passed: the user's message is
      stored, the prompt built from the history read, then the reply steps
      run. */
  method HeardTurn(store: ChatHistoryStore, sid: string, transcribed: string,
                   geminiEnv: Option<string>, llm: string -> Reply,
                   murfEnv: Option<string>, murf: MurfRequest -> MurfOutcome,
                   userTime: Timestamp, replyTime: Timestamp)
    returns (r: Result<ChatReply, HttpError>)
    modifies store
    ensures
      var prior := if sid in old(store.sessions) then Some(old(store.sessions)[sid]) else None;
      var a := AnswerStep(sid, |prior.GetOr([])| + 1, transcribed, ChatPrompt(prior, transcribed, userTime),
                          geminiEnv, llm, murfEnv, murf, replyTime);
      var appended := [Message(UserRole, transcribed, userTime)] + a.appended;
      && r == a.result
      && store.sessions == Record(old(store.sessions), sid, appended)
      && store.order == RecordOrder(old(store.order), old(store.sessions), sid, appended)
  {
    ghost var prior := if sid in store.sessions then Some(store.sessions[sid]) else None;
    ghost var sessions, order := store.sessions, store.order;
    var conversationContext := RecordUtterance(store, sid, transcribed, userTime);
    assert |store.History(sid)| == |prior.GetOr([])| + 1;
    ghost var a := AnswerStep(sid, |prior.GetOr([])| + 1, transcribed, conversationContext,
                              geminiEnv, llm, murfEnv, murf, replyTime);
    r := AnswerUtterance(store, sid, transcribed, conversationContext, geminiEnv, llm, murfEnv, murf, replyTime);
    RecordTwice(order, sessions, sid, [Message(UserRole, transcribed, userTime)], a.appended);
  }

  /** A turn whose transcription passes stores the user's message, then
      does what the remaining steps do. */
  lemma ChatTurnAfterHearing(sid: string, prior: Option<seq<Message>>, transcript: Transcript,
                             geminiEnv: Option<string>, llm: string -> Reply,
                             murfEnv: Option<string>, murf: MurfRequest -> MurfOutcome,
                             userTime: Timestamp, replyTime: Timestamp)
    requires TranscriptGate(transcript, ChatFailed).Success?
    ensures
      var text := TranscriptGate(transcript, ChatFailed).value;
      var a := AnswerStep(sid, |prior.GetOr([])| + 1, text, ChatPrompt(prior, text, userTime),
                          geminiEnv, llm, murfEnv, murf, replyTime);
      ChatTurn(sid, prior, transcript, geminiEnv, llm, murfEnv, murf, userTime, replyTime)
        == Turn([Message(UserRole, text, userTime)] + a.appended, a.result)
  {
  }

  /** How a heard turn is answered: a missing Gemini key and a reply Gemini
      could not give fail with their own errors; once both messages are
      stored the speech steps decide, so the turn succeeds exactly when every
      service does. */
  lemma ChatTurnOutcome(sid: string, prior: Option<seq<Message>>, transcript: Transcript,
                        geminiEnv: Option<string>, llm: string -> Reply,
                        murfEnv: Option<string>, murf: MurfRequest -> MurfOutcome,
                        userTime: Timestamp, replyTime: Timestamp)
    requires TranscriptGate(transcript, ChatFailed).Success?
    ensures
      var t := ChatTurn(sid, prior, transcript, geminiEnv, llm, murfEnv, murf, userTime, replyTime);
      !Present(geminiEnv) ==> t.result == Failure(HttpError(500, Plain(GeminiKeyMissing)))
    ensures
      var t := ChatTurn(sid, prior, transcript, geminiEnv, llm, murfEnv, murf, userTime, replyTime);
      var reply := ReplyGate(llm(ChatPrompt(prior, transcript.text.value, userTime)), ChatFailed);
      Present(geminiEnv) && reply.Failure? ==> t.result == Failure(reply.error)
    ensures
      var t := ChatTurn(sid, prior, transcript, geminiEnv, llm, murfEnv, murf, userTime, replyTime);
      |t.appended| == 2 ==>
        t.result == SpeakReplyStep(sid, |prior.GetOr([])| + 2, transcript.text.value, t.appended[1].content, murfEnv, murf)
    ensures
      var t := ChatTurn(sid, prior, transcript, geminiEnv, llm, murfEnv, murf, userTime, replyTime);
      var reply := ReplyGate(llm(ChatPrompt(prior, transcript.text.value, userTime)), ChatFailed);
      t.result.Success? <==>
        && Present(geminiEnv) && reply.Success? && Present(murfEnv)
        && var sent := murf(MurfRequest(StripQuotes(murfEnv.value), TruncateForSpeech(reply.value), DefaultVoice));
        && sent.MurfResponse? && sent.statusCode == 200
  {
    ChatTurnAfterHearing(sid, prior, transcript, geminiEnv, llm, murfEnv, murf, userTime, replyTime);
  }

  /** A reply longer than Murf's limit is stored whole; only the text spoken
      and returned is cut. */
  lemma LongReplyStoredWhole(sid: string, prior: Option<seq<Message>>, transcript: Transcript,
                             geminiEnv: Option<string>, llm: string -> Reply,
                             murfEnv: Option<string>, murf: MurfRequest -> MurfOutcome,
                             userTime: Timestamp, replyTime: Timestamp)
    requires
      var t := ChatTurn(sid, prior, transcript, geminiEnv, llm, murfEnv, murf, userTime, replyTime);
      t.result.Success? && |t.appended[1].content| > MaxSpokenChars
    ensures
      var t := ChatTurn(sid, prior, transcript, geminiEnv, llm, murfEnv, murf, userTime, replyTime);
      && t.result.value.llmResponse != t.appended[1].content
      && |t.result.value.llmResponse| == KeptChars + |Continuation|
      && t.result.value.llmResponse[..KeptChars] == t.appended[1].content[..KeptChars]
  {
  }

  /** Murf answering with any status other than 200 fails the turn with that
      status, after both messages were stored. */
  lemma MurfStatusPropagates(sid: string, prior: Option<seq<Message>>, transcript: Transcript,
                             geminiEnv: Option<string>, llm: string -> Reply,
                             murfEnv: Option<string>, murf: MurfRequest -> MurfOutcome,
                             userTime: Timestamp, replyTime: Timestamp)
    requires TranscriptGate(transcript, ChatFailed).Success? && Present(geminiEnv) && Present(murfEnv)
    requires ReplyGate(llm(ChatPrompt(prior, transcript.text.value, userTime)), ChatFailed).Success?
    requires
      var reply := Strip(llm(ChatPrompt(prior, transcript.text.value, userTime)).text);
      var sent := murf(MurfRequest(StripQuotes(murfEnv.value), TruncateForSpeech(reply), DefaultVoice));
      sent.MurfResponse? && sent.statusCode != 200
    ensures
      var reply := Strip(llm(ChatPrompt(prior, transcript.text.value, userTime)).text);
      var sent := murf(MurfRequest(StripQuotes(murfEnv.value), TruncateForSpeech(reply), DefaultVoice));
      var t := ChatTurn(sid, prior, transcript, geminiEnv, llm, murfEnv, murf, userTime, replyTime);
      && |t.appended| == 2
      && t.result == Failure(HttpError(sent.statusCode, Plain("Murf API error: " + sent.body)))
  {
  }

  const ClearedMessage: string := "Chat history cleared successfully"
  const NothingToClear: string := "No history found or already cleared"

  /** The body of the clear endpoint's answer. */
  datatype ClearReply = ClearReply(sessionId: string, message: string, status: string)

  /** The answer for a session that did or did not have history: the status
      is "success" either way, and only the message tells them apart. */
  function ClearAnswer(sid: string, existed: bool): (reply: ClearReply)
    ensures reply.status == "success" && reply.sessionId == sid
    ensures reply.message == ClearedMessage <==> existed
    ensures reply.message == NothingToClear <==> !existed
  {
    ClearReply(sid, if existed then ClearedMessage else NothingToClear, "success")
  }

  /** `clear_chat_history_endpoint(session_id)`. */
  method ClearHistoryEndpoint(store: ChatHistoryStore, sid: string) returns (reply: ClearReply)
    modifies store
    ensures reply == ClearAnswer(sid, sid in old(store.sessions))
    ensures store.sessions == old(store.sessions) - {sid}
    ensures store.order == if sid in old(store.sessions) then Without(old(store.order), sid) else old(store.order)
  {
    var success := store.ClearChatHistory(sid);
    reply := ClearAnswer(sid, success);
  }
}
