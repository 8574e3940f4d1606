/**
 * The presentation side the session logic talks to: the callbacks of
 * `DOMHandler` that the WebSocket handler invokes, and the chat list those
 * callbacks change (public/dom-handler.js:376-475). The chat list is the
 * sequence of children of the chat container, in document order.
 */
module ChatView {

  /** The presentation callbacks, with their arguments. */
  datatype UiCall =
    | OnSessionConnected
    | OnSessionDisconnected
    | OnSessionError(message: string)
    | ShowTypingIndicator
    | RemoveTypingIndicator
    | AddUserTranscription(text: string)
    | AddAssistantTranscription(text: string)

  datatype Role = User | Assistant

  /** A child of the chat container: a message, a system note, or the typing indicator. */
  datatype ChatItem = Entry(role: Role, text: string) | SystemNote(text: string) | TypingIndicator

  const SessionStartedNote := "Session started. You can now speak and see the conversation here."

  /** The number of typing indicators in the list. */
  function IndicatorCount(items: seq<ChatItem>): nat {
    if items == [] then 0
    else (if items[0] == TypingIndicator then 1 else 0) + IndicatorCount(items[1..])
  }

  /** The list without its typing indicators: what the user reads as the conversation. */
  function Messages(items: seq<ChatItem>): seq<ChatItem> {
    if items == [] then []
    else (if items[0] == TypingIndicator then [] else [items[0]]) + Messages(items[1..])
  }

  /**
   * `removeTypingIndicator()`: `getElementById` finds the first element with the
   * indicator's id, which is removed if there is one.
   */
  function RemoveIndicator(items: seq<ChatItem>): seq<ChatItem> {
    if items == [] then []
    else if items[0] == TypingIndicator then items[1..]
    else [items[0]] + RemoveIndicator(items[1..])
  }

  /** `showTypingIndicator()`: remove the existing indicator, then append a new one. */
  function ShowIndicator(items: seq<ChatItem>): seq<ChatItem> {
    RemoveIndicator(items) + [TypingIndicator]
  }

  /** Removing the indicator takes away exactly one indicator when there is one, and nothing else. */
  lemma {:induction false} RemoveIndicatorEffect(items: seq<ChatItem>)
    ensures IndicatorCount(RemoveIndicator(items)) == if IndicatorCount(items) > 0 then IndicatorCount(items) - 1 else 0
    ensures Messages(RemoveIndicator(items)) == Messages(items)
    ensures IndicatorCount(items) == 0 ==> RemoveIndicator(items) == items
  {
    if items != [] {
      RemoveIndicatorEffect(items[1..]);
      if items[0] != TypingIndicator {
        var r := RemoveIndicator(items);
        assert r[0] == items[0] && r[1..] == RemoveIndicator(items[1..]);
      }
    }
  }

  lemma {:induction false} MessagesAppend(a: seq<ChatItem>, b: seq<ChatItem>)
    ensures Messages(a + b) == Messages(a) + Messages(b)
    ensures IndicatorCount(a + b) == IndicatorCount(a) + IndicatorCount(b)
  {
    if a != [] {
      assert (a + b)[1..] == a[1..] + b;
      MessagesAppend(a[1..], b);
    } else {
      assert a + b == b;
    }
  }

  /**
   * Showing the indicator keeps the conversation as it was and leaves one indicator,
   * at the end, whenever there was at most one before.
   */
  lemma ShowIndicatorEffect(items: seq<ChatItem>)
    requires IndicatorCount(items) <= 1
    ensures IndicatorCount(ShowIndicator(items)) == 1
    ensures Messages(ShowIndicator(items)) == Messages(items)
    ensures ShowIndicator(items)[|ShowIndicator(items)| - 1] == TypingIndicator
  {
    RemoveIndicatorEffect(items);
    MessagesAppend(RemoveIndicator(items), [TypingIndicator]);
    assert Messages([TypingIndicator]) == [];
  }

  /** The presentation state the callbacks change: the chat list and the status text. */
  datatype View = View(chat: seq<ChatItem>, status: string)

  /** The effect of one callback on the view. */
  function AfterCall(v: View, c: UiCall): View {
    match c
    case OnSessionConnected => View(v.chat + [SystemNote(SessionStartedNote)], "Connected")
    case OnSessionDisconnected => View([], "Disconnected")
    case OnSessionError(_) => v.(status := "Error")
    case ShowTypingIndicator => v.(chat := ShowIndicator(v.chat))
    case RemoveTypingIndicator => v.(chat := RemoveIndicator(v.chat))
    case AddUserTranscription(t) => v.(chat := v.chat + [Entry(User, t)])
    case AddAssistantTranscription(t) => v.(chat := v.chat + [Entry(Assistant, t)])
  }

  /** The effect of callbacks made one after another. */
  function AfterCalls(v: View, calls: seq<UiCall>): View
    decreases |calls|
  {
    if calls == [] then v else AfterCalls(AfterCall(v, calls[0]), calls[1..])
  }

  /** No callback puts a second typing indicator into the chat list. */
  lemma AfterCallKeepsOneIndicator(v: View, c: UiCall)
    requires IndicatorCount(v.chat) <= 1
    ensures IndicatorCount(AfterCall(v, c).chat) <= 1
  {
    match c
    case OnSessionConnected =>
      MessagesAppend(v.chat, [SystemNote(SessionStartedNote)]);
    case ShowTypingIndicator =>
      ShowIndicatorEffect(v.chat);
    case RemoveTypingIndicator =>
      RemoveIndicatorEffect(v.chat);
    case AddUserTranscription(t) =>
      MessagesAppend(v.chat, [Entry(User, t)]);
    case AddAssistantTranscription(t) =>
      MessagesAppend(v.chat, [Entry(Assistant, t)]);
    case _ =>
  }

  /** Whatever sequence of callbacks is made, the chat list holds at most one typing indicator. */
  lemma {:induction false} AfterCallsKeepsOneIndicator(v: View, calls: seq<UiCall>)
    requires IndicatorCount(v.chat) <= 1
    ensures IndicatorCount(AfterCalls(v, calls).chat) <= 1
    decreases |calls|
  {
    if calls != [] {
      AfterCallKeepsOneIndicator(v, calls[0]);
      AfterCallsKeepsOneIndicator(AfterCall(v, calls[0]), calls[1..]);
    }
  }
}
