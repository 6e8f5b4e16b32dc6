/** What both chat versions do with the store before asking Gemini: read
    the session's history, store the user's message, and build the prompt
    from the history read. */
module Conversation {
  import opened Wrappers
  import opened Services
  import opened ChatStore
  import opened Prompt

  /** The list the handler reads as history once the user's message is
      stored. `get_chat_history` hands out the stored list itself when the
      session exists, so the append shows through it; for a new session it
      hands out a fresh empty list that the store never sees. */
  function HistorySeen(prior: Option<seq<Message>>, user: Message): (h: seq<Message>)
    ensures prior.None? ==> h == []
    ensures prior.Some? ==> |h| == |prior.value| + 1 && h[..|prior.value|] == prior.value && h[|h| - 1] == user
  {
    match prior
    case None => []
    case Some(messages) =>
      assert (messages + [user])[..|messages|] == messages;
      messages + [user]
  }

  /** The prompt sent to Gemini for `text`, said at `userTime`, given the
      session's list before the turn (`None` for a new session). */
  function ChatPrompt(prior: Option<seq<Message>>, text: string, userTime: Timestamp): string {
    ConversationContext(ContextWindow(HistorySeen(prior, Message(UserRole, text, userTime))), text)
  }

  /** `chat_history = get_chat_history(session_id)` followed by
      `add_message_to_history(session_id, "user", transcribed_text)`: the
      list handed back is what the handler reads afterwards, aliasing
      included. */
  method ReadAndRecord(store: ChatHistoryStore, sid: string, transcribed: string, userTime: Timestamp)
    returns (chatHistory: seq<Message>)
    modifies store
    ensures chatHistory == HistorySeen(if sid in old(store.sessions) then Some(old(store.sessions)[sid]) else None,
                                       Message(UserRole, transcribed, userTime))
    ensures store.sessions == Record(old(store.sessions), sid, [Message(UserRole, transcribed, userTime)])
    ensures store.order == RecordOrder(old(store.order), old(store.sessions), sid, [Message(UserRole, transcribed, userTime)])
  {
    var existed := sid in store.sessions;
    chatHistory := store.GetChatHistory(sid);
    store.AddMessage(sid, UserRole, transcribed, userTime);
    if existed {
      // the list `get_chat_history` returned is the stored one, just appended to
      chatHistory := store.History(sid);
    }
  }

  /** For a session with history, the prompt quotes the new utterance twice
      in a row; for a new session it quotes it once, with no history. */
  lemma PromptQuotesUtterance(prior: Option<seq<Message>>, text: string, userTime: Timestamp)
    ensures prior.None? ==> ChatPrompt(prior, text, userTime) == Preamble + UserLine(text) + Closing
    ensures prior.Some? ==>
      var w := ContextWindow(prior.value + [Message(UserRole, text, userTime)]);
      ChatPrompt(prior, text, userTime)
        == Preamble + RenderHistory(w[..|w| - 1]) + UserLine(text) + UserLine(text) + Closing
  {
    var user := Message(UserRole, text, userTime);
    if prior.None? {
      FreshSessionPrompt(text);
    } else {
      UtteranceQuotedTwice(prior.value, user);
    }
  }

}
