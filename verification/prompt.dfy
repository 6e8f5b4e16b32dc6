/** The prompt the history-aware chat sends to Gemini: a fixed preamble, the
    last ten messages of the history it was given, one line each, the
    current utterance, and a closing request. */
module Prompt {
  import opened ChatStore

  /** How many past messages the prompt quotes at most. */
  const WindowSize: nat := 10

  const Preamble: string :=
    "You are a helpful AI assistant. Please respond in a conversational and concise manner (keep it under 2500 characters to fit TTS limits).\n\nConversation history:\n"
  const Closing: string := "\nPlease respond to the user's latest message."

  const UserLabel: string := "User: "
  const AssistantLabel: string := "Assistant: "

  /** `chat_history[-10:]` when the history is longer than ten, else the
      whole history: the latest messages, in their order. */
  function ContextWindow(h: seq<Message>): (w: seq<Message>)
    ensures |w| == if |h| > WindowSize then WindowSize else |h|
    ensures w == h[|h| - |w|..]
  {
    if |h| > WindowSize then h[|h| - WindowSize..] else h
  }

  /** The line for one message: a user message is labelled `User:`, any
      other role `Assistant:`. */
  function RenderLine(m: Message): string {
    (if m.role == UserRole then UserLabel else AssistantLabel) + m.content + "\n"
  }

  /** The line for the utterance being answered. */
  function UserLine(utterance: string): string {
    UserLabel + utterance + "\n"
  }

  /** The lines of `ms`, in order. */
  function RenderHistory(ms: seq<Message>): string {
    if ms == [] then "" else RenderHistory(ms[..|ms| - 1]) + RenderLine(ms[|ms| - 1])
  }

  /** The whole prompt for a window of history and the current utterance. */
  function ConversationContext(window: seq<Message>, utterance: string): string {
    Preamble + RenderHistory(window) + UserLine(utterance) + Closing
  }

  /** Every prompt opens with the preamble and ends with the utterance's
      line followed by the closing request, whatever the history. */
  lemma ContextFrame(window: seq<Message>, utterance: string)
    ensures
      var ctx := ConversationContext(window, utterance);
      && |ctx| >= |Preamble| + |UserLine(utterance)| + |Closing|
      && ctx[..|Preamble|] == Preamble
      && ctx[|ctx| - |Closing|..] == Closing
      && ctx[|ctx| - |Closing| - |UserLine(utterance)|..|ctx| - |Closing|] == UserLine(utterance)
  {
  }

  /** Rendering a concatenation renders each part in turn. */
  lemma {:induction false} RenderHistoryAppend(a: seq<Message>, b: seq<Message>)
    ensures RenderHistory(a + b) == RenderHistory(a) + RenderHistory(b)
  {
    if b == [] {
      assert a + b == a;
    } else {
      var init, last := b[..|b| - 1], b[|b| - 1];
      RenderHistoryAppend(a, init);
      assert (a + b)[..|a + b| - 1] == a + init;
      assert (a + b)[|a + b| - 1] == last;
      var line := RenderLine(last);
      calc {
        RenderHistory(a + b);
        RenderHistory(a + init) + line;
        RenderHistory(a) + RenderHistory(init) + line;
        RenderHistory(a) + (RenderHistory(init) + line);
      }
    }
  }

  /** The loop of the chat handler that builds the prompt from the history it
      read: the preamble, one line per message of the window, the utterance,
      the closing request. */
  method BuildConversationContext(chatHistory: seq<Message>, transcribed: string) returns (ctx: string)
    ensures ctx == ConversationContext(ContextWindow(chatHistory), transcribed)
  {
    ctx := Preamble;
    var recent := ContextWindow(chatHistory);
    var i := 0;
    while i < |recent|
      invariant 0 <= i <= |recent|
      invariant ctx == Preamble + RenderHistory(recent[..i])
    {
      ctx := ctx + RenderLine(recent[i]);
      assert recent[..i + 1][..i] == recent[..i];
      i := i + 1;
    }
    assert recent[..i] == recent;
    ctx := ctx + UserLine(transcribed);
    ctx := ctx + Closing;
  }

  /** When the window already ends with the user's message (the history was
      read from the very list the message was appended to), the prompt
      quotes that message twice in a row just before the closing request. */
  lemma UtteranceQuotedTwice(h: seq<Message>, m: Message)
    requires m.role == UserRole
    ensures
      var w := ContextWindow(h + [m]);
      && w != [] && w[|w| - 1] == m
      && ConversationContext(w, m.content)
         == Preamble + RenderHistory(w[..|w| - 1]) + UserLine(m.content) + UserLine(m.content) + Closing
  {
    var w := ContextWindow(h + [m]);
    assert w[|w| - 1] == (h + [m])[|h + [m]| - 1] == m;
    var line := UserLine(m.content);
    assert RenderLine(m) == line;
  }

  /** A history read for a session that did not exist is empty: the prompt
      quotes the utterance once and nothing else. */
  lemma FreshSessionPrompt(utterance: string)
    ensures ConversationContext(ContextWindow([]), utterance) == Preamble + UserLine(utterance) + Closing
  {
    assert RenderHistory([]) == "";
  }

  /** Only the ten latest messages reach the prompt: once ten or more
      messages follow them, older ones are not quoted, whatever they say. */
  lemma WindowIgnoresOlderMessages(older: seq<Message>, recent: seq<Message>)
    requires |recent| >= WindowSize
    ensures ContextWindow(older + recent) == ContextWindow(recent)
    ensures |recent| == WindowSize ==> ContextWindow(older + recent) == recent
  {
    var h := older + recent;
    assert h[|h| - WindowSize..] == recent[|recent| - WindowSize..];
  }
}
