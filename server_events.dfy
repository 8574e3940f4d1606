/**
 * `WebSocketHandler.handleServerMessage` (public/websocket-handler.js:234-367):
 * classify an inbound data-channel message by its `type` tag and make the
 * presentation callbacks that type calls for. Logging is not modelled.
 */
module ServerEvents {
  import opened Wrappers
  import opened ChatView

  /** The `item` object of a `conversation.item.created` event. */
  datatype Item = Item(itemType: Option<string>, role: Option<string>)

  /** The `error` object of an `error` event. */
  datatype ServerError = ServerError(message: Option<string>)

  /**
   * A parsed message: the properties the handler reads, each None when the
   * property is missing or null. String-valued properties hold strings.
   */
  datatype Message = Message(
    msgType: Option<string>, item: Option<Item>, transcript: Option<string>, error: Option<ServerError>)

  /**
   * What `JSON.parse` made of the data: a syntax error, the literal `null`
   * (reading `.type` of it throws), or a value whose properties are read as a Message.
   */
  datatype Inbound = Unparsable | JsonNull | Parsed(message: Message)

  /** JavaScript truthiness of an optional string: present and not empty. */
  predicate Truthy(s: Option<string>) {
    s.Some? && s.value != ""
  }

  const ConversationItemCreated := "conversation.item.created"
  const SpeechStarted := "input_audio_buffer.speech_started"
  const UserTranscriptCompleted := "conversation.item.input_audio_transcription.completed"
  const AssistantTranscriptDone := "response.audio_transcript.done"
  const ResponseDone := "response.done"
  const ErrorEvent := "error"
  const UnknownServerError := "Unknown server error"

  /**
   * The callbacks one inbound message causes, in order. A parse failure, `null`,
   * a falsy `type`, an unknown type and a handler that throws (an `error` event
   * without an `error` object throws before its first callback) cause none.
   */
  function HandleServerMessage(data: Inbound): seq<UiCall> {
    match data
    case Unparsable => []
    case JsonNull => []
    case Parsed(m) =>
      if !Truthy(m.msgType) then []
      else
        var t := m.msgType.value;
        if t == ConversationItemCreated then
          if m.item.Some? && m.item.value.itemType == Some("message") && m.item.value.role == Some("user")
          then [ShowTypingIndicator] else []
        else if t == SpeechStarted then [ShowTypingIndicator]
        else if t == UserTranscriptCompleted then
          if Truthy(m.transcript) then [AddUserTranscription(m.transcript.value)] else []
        else if t == AssistantTranscriptDone then
          if Truthy(m.transcript) then [AddAssistantTranscription(m.transcript.value)] else []
        else if t == ResponseDone then [RemoveTypingIndicator]
        else if t == ErrorEvent then
          if m.error.None? then []
          else
            var text := if Truthy(m.error.value.message) then m.error.value.message.value else UnknownServerError;
            [OnSessionError(text), RemoveTypingIndicator]
        else []
  }

  // ---------------------------------------------------------------------------
  // Reference definition: a dispatch table from type tag to handler
  // ---------------------------------------------------------------------------

  /** What a handler in the dispatch table does. */
  datatype Handler =
    | LogOnly
    | ShowIfUserMessage
    | ShowAlways
    | AppendUserTranscript
    | AppendAssistantTranscript
    | RemoveAlways
    | RaiseError

  /** Every type the handler recognises, mapped to its handler; the others are only logged. */
  const HandlerTable: map<string, Handler> := map[
    "session.created" := LogOnly,
    "session.updated" := LogOnly,
    ConversationItemCreated := ShowIfUserMessage,
    SpeechStarted := ShowAlways,
    "input_audio_buffer.speech_stopped" := LogOnly,
    UserTranscriptCompleted := AppendUserTranscript,
    "response.audio.transcript.delta" := LogOnly,
    AssistantTranscriptDone := AppendAssistantTranscript,
    ResponseDone := RemoveAlways,
    ErrorEvent := RaiseError]

  /** A message from the user: an item of type 'message' with role 'user'. */
  predicate IsUserMessage(item: Option<Item>) {
    match item
    case None => false
    case Some(i) => i.itemType == Some("message") && i.role == Some("user")
  }

  function RunHandler(h: Handler, m: Message): seq<UiCall> {
    match h
    case LogOnly => []
    case ShowIfUserMessage => if IsUserMessage(m.item) then [ShowTypingIndicator] else []
    case ShowAlways => [ShowTypingIndicator]
    case AppendUserTranscript =>
      if Truthy(m.transcript) then [AddUserTranscription(m.transcript.value)] else []
    case AppendAssistantTranscript =>
      if Truthy(m.transcript) then [AddAssistantTranscription(m.transcript.value)] else []
    case RemoveAlways => [RemoveTypingIndicator]
    case RaiseError =>
      match m.error
      case None => []
      case Some(e) =>
        [OnSessionError(if Truthy(e.message) then e.message.value else UnknownServerError), RemoveTypingIndicator]
  }

  function DispatchByTable(data: Inbound): seq<UiCall> {
    if !data.Parsed? || !Truthy(data.message.msgType) then []
    else if data.message.msgType.value in HandlerTable then RunHandler(HandlerTable[data.message.msgType.value], data.message)
    else []
  }

  /** The handler's chain of cases and the dispatch table agree on every input. */
  lemma HandleAgreesWithTable(data: Inbound)
    ensures HandleServerMessage(data) == DispatchByTable(data)
  {
    if data.Parsed? && Truthy(data.message.msgType) {
      var m := data.message;
      var t := m.msgType.value;
      if t in HandlerTable {
        assert t == "session.created" || t == "session.updated" || t == ConversationItemCreated ||
               t == SpeechStarted || t == "input_audio_buffer.speech_stopped" ||
               t == UserTranscriptCompleted || t == "response.audio.transcript.delta" ||
               t == AssistantTranscriptDone || t == ResponseDone || t == ErrorEvent;
      } else {
        assert t != ConversationItemCreated && t != SpeechStarted && t != UserTranscriptCompleted &&
               t != AssistantTranscriptDone && t != ResponseDone && t != ErrorEvent;
      }
    }
  }

  // ---------------------------------------------------------------------------
  // Properties of the dispatcher
  // ---------------------------------------------------------------------------

  /** Malformed input, a falsy type and types without a handler cause no callback at all. */
  lemma MalformedInputIsSwallowed(data: Inbound)
    requires !data.Parsed? || !Truthy(data.message.msgType) || data.message.msgType.value !in HandlerTable
    ensures HandleServerMessage(data) == []
  {
    HandleAgreesWithTable(data);
  }

  /**
   * The dispatcher never reports the connection going up or down, makes at most
   * two callbacks, adds at most one transcript entry, and adds one only with
   * non-empty text taken from the message's `transcript`.
   */
  lemma HandleServerMessageShape(data: Inbound)
    ensures |HandleServerMessage(data)| <= 2
    ensures forall c :: c in HandleServerMessage(data) ==> !c.OnSessionConnected? && !c.OnSessionDisconnected?
    ensures forall c :: c in HandleServerMessage(data) && (c.AddUserTranscription? || c.AddAssistantTranscription?) ==>
      HandleServerMessage(data) == [c] && c.text != "" && data.Parsed? && data.message.transcript == Some(c.text)
  {
  }

  /**
   * A user entry is added exactly for a transcription-completed event with a
   * non-empty transcript, and an assistant entry exactly for a transcript-done
   * event with a non-empty transcript.
   */
  lemma TranscriptEntries(data: Inbound, text: string)
    ensures HandleServerMessage(data) == [AddUserTranscription(text)] <==>
      data.Parsed? && data.message.msgType == Some(UserTranscriptCompleted) &&
      data.message.transcript == Some(text) && text != ""
    ensures HandleServerMessage(data) == [AddAssistantTranscription(text)] <==>
      data.Parsed? && data.message.msgType == Some(AssistantTranscriptDone) &&
      data.message.transcript == Some(text) && text != ""
  {
  }

  /**
   * The typing indicator is shown exactly for speech-started events and for items
   * that are user messages, and removed exactly for response.done and for error
   * events that carry an error object, which first report the server's message
   * (or the generic one when it has none).
   */
  lemma IndicatorAndErrorEvents(data: Inbound)
    ensures HandleServerMessage(data) == [ShowTypingIndicator] <==>
      data.Parsed? &&
      (data.message.msgType == Some(SpeechStarted) ||
       (data.message.msgType == Some(ConversationItemCreated) && IsUserMessage(data.message.item)))
    ensures RemoveTypingIndicator in HandleServerMessage(data) <==>
      data.Parsed? &&
      (data.message.msgType == Some(ResponseDone) ||
       (data.message.msgType == Some(ErrorEvent) && data.message.error.Some?))
    ensures data.Parsed? && data.message.msgType == Some(ErrorEvent) && data.message.error.Some? ==>
      HandleServerMessage(data) ==
        [OnSessionError(if Truthy(data.message.error.value.message) then data.message.error.value.message.value
                        else UnknownServerError),
         RemoveTypingIndicator]
    ensures data.Parsed? && data.message.msgType == Some(ErrorEvent) && data.message.error.None? ==>
      HandleServerMessage(data) == []
  {
  }

  /** Handling any message keeps the chat list's single-indicator invariant. */
  lemma HandlingKeepsOneIndicator(v: View, data: Inbound)
    requires IndicatorCount(v.chat) <= 1
    ensures IndicatorCount(AfterCalls(v, HandleServerMessage(data)).chat) <= 1
  {
    AfterCallsKeepsOneIndicator(v, HandleServerMessage(data));
  }
}
