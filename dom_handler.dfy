/**
 * `DOMHandler` (public/dom-handler.js): the session timer's fields, the chat
 * list and the status text, the presentation callbacks the WebSocket handler
 * asks for, and the buttons that start, stop and extend a session. Element
 * lookup, CSS classes, styles, logging and the progress bar are not modelled.
 */
module Dom {
  import opened Wrappers
  import opened Configuration
  import opened ChatView
  import opened SessionTimer
  import opened WebSocket
  import ServerEvents

  const ResetTimerText := "02:00"

  class DomHandler {
    /** `window.websocketHandler`. */
    const ws: WebSocketHandler

    var sessionStartTime: Option<int>
    var sessionDuration: int
    var isSessionActive: bool
    /** Whether `sessionTimerInterval` holds a running interval. */
    var timerIntervalSet: bool

    var timerText: string
    var severity: Severity
    var extendButtonVisible: bool
    /** The remaining time the timer text and colour were last computed from. */
    ghost var shownRemaining: nat

    var chat: seq<ChatItem>
    var statusText: string

    function TimerState(): Timer
      reads this
    {
      Timer(sessionStartTime, sessionDuration, isSessionActive)
    }

    function ViewState(): View
      reads this
    {
      View(chat, statusText)
    }

    /**
     * The duration is two minutes plus whole extensions; the extend button is
     * visible only while the timer is active; the text and colour show one
     * remaining time; the chat list holds at most one typing indicator.
     */
    ghost predicate DisplayValid()
      reads this
    {
      sessionDuration >= DefaultDurationMs && sessionDuration % ExtensionMs == 0 &&
      (extendButtonVisible ==> isSessionActive) &&
      timerText == TimerText(shownRemaining) && severity == SeverityOf(shownRemaining) &&
      IndicatorCount(chat) <= 1
    }

    /** In addition, an interval runs exactly while the timer is active. */
    ghost predicate Valid()
      reads this
    {
      DisplayValid() && timerIntervalSet == isSessionActive
    }

    /** The page starts with the reset timer display and an empty chat list. */
    constructor (ws: WebSocketHandler)
      ensures Valid() && this.ws == ws
      ensures TimerState() == InitialTimer && !timerIntervalSet
      ensures timerText == ResetTimerText && severity == Normal && !extendButtonVisible
      ensures ViewState() == View([], "")
    {
      this.ws := ws;
      sessionStartTime, sessionDuration, isSessionActive := None, DefaultDurationMs, false;
      timerIntervalSet := false;
      timerText, severity, extendButtonVisible := ResetTimerText, Normal, false;
      shownRemaining := DefaultDurationMs;
      chat, statusText := [], "";
      TimerTextExamples();
    }

    // -------------------------------------------------------------------------
    // Presentation callbacks
    // -------------------------------------------------------------------------

    method ShowTypingIndicator()
      modifies this`chat
      ensures chat == ShowIndicator(old(chat))
    {
      chat := RemoveIndicator(chat) + [TypingIndicator];
    }

    method RemoveTypingIndicator()
      modifies this`chat
      ensures chat == RemoveIndicator(old(chat))
    {
      chat := RemoveIndicator(chat);
    }

    method AddUserTranscription(text: string)
      modifies this`chat
      ensures chat == old(chat) + [Entry(User, text)]
    {
      chat := chat + [Entry(User, text)];
    }

    method AddAssistantTranscription(text: string)
      modifies this`chat
      ensures chat == old(chat) + [Entry(Assistant, text)]
    {
      chat := chat + [Entry(Assistant, text)];
    }

    method ClearChatMessages()
      modifies this`chat
      ensures chat == []
    {
      chat := [];
    }

    /** `onSessionConnected()`: status, then the chat interface with its opening note. */
    method OnSessionConnected()
      modifies this`chat, this`statusText
      ensures ViewState() == AfterCall(old(ViewState()), UiCall.OnSessionConnected)
    {
      statusText := "Connected";
      chat := chat + [SystemNote(SessionStartedNote)];
    }

    /** `onSessionDisconnected()`: status, then `hideChatInterface()`, which clears the chat. */
    method OnSessionDisconnected()
      modifies this`chat, this`statusText
      ensures ViewState() == AfterCall(old(ViewState()), UiCall.OnSessionDisconnected)
    {
      statusText := "Disconnected";
      ClearChatMessages();
    }

    method OnSessionError(message: string)
      modifies this`statusText
      ensures ViewState() == AfterCall(old(ViewState()), UiCall.OnSessionError(message))
    {
      statusText := "Error";
    }

    /** Make one callback. */
    method Invoke(c: UiCall)
      modifies this`chat, this`statusText
      ensures ViewState() == AfterCall(old(ViewState()), c)
    {
      match c {
        case OnSessionConnected => OnSessionConnected();
        case OnSessionDisconnected => OnSessionDisconnected();
        case OnSessionError(m) => OnSessionError(m);
        case ShowTypingIndicator => ShowTypingIndicator();
        case RemoveTypingIndicator => RemoveTypingIndicator();
        case AddUserTranscription(t) => AddUserTranscription(t);
        case AddAssistantTranscription(t) => AddAssistantTranscription(t);
      }
    }

    /** Make the callbacks in order. */
    method InvokeAll(calls: seq<UiCall>)
      modifies this`chat, this`statusText
      ensures ViewState() == AfterCalls(old(ViewState()), calls)
      decreases |calls|
    {
      if calls != [] {
        Invoke(calls[0]);
        InvokeAll(calls[1..]);
      }
    }

    // -------------------------------------------------------------------------
    // The session timer
    // -------------------------------------------------------------------------

    method ResetTimerDisplay()
      modifies this`timerText, this`severity, this`extendButtonVisible, this`shownRemaining
      ensures timerText == ResetTimerText && severity == Normal && !extendButtonVisible
      ensures shownRemaining == DefaultDurationMs
    {
      timerText := ResetTimerText;
      severity := Normal;
      extendButtonVisible := false;
      shownRemaining := DefaultDurationMs;
    }

    method StopSessionTimer()
      modifies this`timerIntervalSet, this`isSessionActive,
               this`timerText, this`severity, this`extendButtonVisible, this`shownRemaining
      ensures !timerIntervalSet && TimerState() == Stop(old(TimerState()))
      ensures timerText == ResetTimerText && severity == Normal && !extendButtonVisible
      ensures shownRemaining == DefaultDurationMs
    {
      timerIntervalSet := false;
      isSessionActive := false;
      ResetTimerDisplay();
    }

    /** The state every stop leaves: timer stopped and reset, chat cleared, the handler's session cleared. */
    twostate predicate StoppedFrom(wsBefore: HandlerState)
      reads this, ws
    {
      TimerState() == Stop(old(TimerState())) && !timerIntervalSet &&
      timerText == ResetTimerText && severity == Normal && !extendButtonVisible &&
      ViewState() == View([], "Disconnected") &&
      ws.State() == StopSpec(wsBefore).0
    }

    /**
     * `stopSession()`: reset the buttons and the timer, then stop the handler,
     * whose disconnection callback clears the chat.
     */
    method StopSession()
      requires DisplayValid()
      modifies this, ws
      ensures Valid() && StoppedFrom(old(ws.State()))
    {
      extendButtonVisible := false;
      statusText := "Disconnected";
      StopSessionTimer();
      var calls := ws.StopSession();
      InvokeAll(calls);
      TimerTextExamples();
    }

    /**
     * The state after a tick at `now` of the timer `before`, from a display showing
     * `text` in `colour`, an interval flag, a view and a handler state: an idle
     * timer changes none of them; a running one shows the time left and changes
     * nothing else of them; an expiring one stops the session.
     */
    ghost predicate TickedFrom(before: Timer, text: string, colour: Severity, interval: bool,
                               view: View, wsBefore: HandlerState, now: int, expired: bool)
      reads this, ws
    {
      expired == ExpiresAt(before, now) &&
      TimerState() == Tick(before, now) &&
      (!Ticking(before) ==>
        timerText == text && severity == colour && timerIntervalSet == interval &&
        ViewState() == view && ws.State() == wsBefore) &&
      (Ticking(before) && !expired ==>
        var left := TickRemaining(before, now);
        shownRemaining == left && timerText == TimerText(left) && severity == SeverityOf(left) &&
        timerIntervalSet == interval && ViewState() == view && ws.State() == wsBefore) &&
      (expired ==>
        Valid() && !timerIntervalSet &&
        timerText == ResetTimerText && severity == Normal && !extendButtonVisible &&
        ViewState() == View([], "Disconnected") && ws.State() == StopSpec(wsBefore).0)
    }

    /**
     * `updateTimerDisplay()` on a tick at `now`. An inactive timer, or one whose
     * start time is falsy, ignores the tick. Otherwise the text and colour show
     * the time left, the extend button appears in the last thirty seconds, and
     * at zero the session is stopped.
     */
    method UpdateTimerDisplay(now: int) returns (expired: bool)
      requires DisplayValid()
      modifies this, ws
      ensures DisplayValid()
      ensures expired == ExpiresAt(old(TimerState()), now)
      ensures TimerState() == Tick(old(TimerState()), now)
      ensures !Ticking(old(TimerState())) ==> unchanged(this) && unchanged(ws)
      ensures Ticking(old(TimerState())) && !expired ==>
        var left := TickRemaining(old(TimerState()), now);
        shownRemaining == left && timerText == TimerText(left) && severity == SeverityOf(left) &&
        extendButtonVisible == (old(extendButtonVisible) || OffersExtension(left)) &&
        timerIntervalSet == old(timerIntervalSet) &&
        ViewState() == old(ViewState()) && unchanged(ws)
      ensures expired ==> Valid() && StoppedFrom(old(ws.State()))
      ensures TickedFrom(old(TimerState()), old(timerText), old(severity), old(timerIntervalSet),
                         old(ViewState()), old(ws.State()), now, expired)
    {
      if !isSessionActive || sessionStartTime.None? || sessionStartTime.value == 0 {
        return false;
      }
      var remaining := Remaining(sessionStartTime.value, sessionDuration, now);
      assert remaining == TickRemaining(old(TimerState()), now);
      ShowRemaining(remaining);
      expired := remaining <= 0;
      if expired {
        ghost var wsState := ws.State();
        StopSession();
        assert ws.State() == StopSpec(wsState).0;
      } else {
        assert TimerState() == old(TimerState()) && ViewState() == old(ViewState());
      }
    }

    /** The display part of a tick: text, colour, and the extend button in the last thirty seconds. */
    method ShowRemaining(remaining: nat)
      requires DisplayValid() && isSessionActive
      modifies this`timerText, this`severity, this`shownRemaining, this`extendButtonVisible
      ensures DisplayValid()
      ensures timerText == TimerText(remaining) && severity == SeverityOf(remaining) && shownRemaining == remaining
      ensures extendButtonVisible == (old(extendButtonVisible) || OffersExtension(remaining))
    {
      timerText := TimerText(remaining);
      severity := SeverityOf(remaining);
      shownRemaining := remaining;
      if remaining <= CriticalMs && remaining > 0 {
        extendButtonVisible := true;
      }
    }

    /**
     * `startSessionTimer()`: record the start, hide the extend button, show the
     * full time and start the interval. The duration is left as it was.
     */
    method StartSessionTimer(now: int)
      requires DisplayValid()
      modifies this`sessionStartTime, this`isSessionActive, this`timerIntervalSet,
               this`timerText, this`severity, this`extendButtonVisible, this`shownRemaining
      ensures Valid()
      ensures TimerState() == Start(old(TimerState()), now) && timerIntervalSet
      ensures now != 0 ==> shownRemaining == sessionDuration
      ensures now == 0 ==> timerText == old(timerText) && severity == old(severity)
      ensures !extendButtonVisible
    {
      sessionStartTime := Some(now);
      isSessionActive := true;
      extendButtonVisible := false;
      timerIntervalSet := true;
      if now != 0 {
        ShowFullDuration(now);
      }
    }

    /** The tick `startSessionTimer` makes at once: the whole duration is left, so it never expires. */
    method ShowFullDuration(now: int)
      requires DisplayValid() && isSessionActive && !extendButtonVisible
      requires sessionStartTime == Some(now) && now != 0
      modifies this`timerText, this`severity, this`shownRemaining, this`extendButtonVisible
      ensures DisplayValid() && !extendButtonVisible
      ensures TickRemaining(TimerState(), now) == sessionDuration == shownRemaining
    {
      var remaining := Remaining(now, sessionDuration, now);
      ShowRemaining(remaining);
    }

    /**
     * `extendSession()`: two more minutes, hide the button, tick at once. The tick
     * sees the extended timer: an idle timer leaves the display as it was, a
     * running one shows the new time left, and one with no time left even after
     * the extension stops the session.
     */
    method ExtendSession(now: int) returns (expired: bool)
      requires DisplayValid()
      modifies this, ws
      ensures DisplayValid()
      ensures TimerState() == Extend(old(TimerState()), now)
      ensures sessionDuration == old(sessionDuration) + ExtensionMs && sessionStartTime == old(sessionStartTime)
      ensures expired == ExpiresAt(old(TimerState()).(duration := old(sessionDuration) + ExtensionMs), now)
      ensures !expired ==> extendButtonVisible == (Ticking(old(TimerState())) &&
                           OffersExtension(TickRemaining(old(TimerState()).(duration := old(sessionDuration) + ExtensionMs), now)))
      ensures TickedFrom(old(TimerState()).(duration := old(sessionDuration) + ExtensionMs),
                         old(timerText), old(severity), old(timerIntervalSet), old(ViewState()), old(ws.State()),
                         now, expired)
    {
      AddExtension();
      ghost var extended, view, wsState := TimerState(), ViewState(), ws.State();
      ghost var text, colour, interval := timerText, severity, timerIntervalSet;
      expired := UpdateTimerDisplay(now);
      assert TickedFrom(extended, text, colour, interval, view, wsState, now, expired);
    }

    /** The first part of `extendSession()`: two more minutes, and the extend button hidden. */
    method AddExtension()
      requires DisplayValid()
      modifies this`sessionDuration, this`extendButtonVisible
      ensures DisplayValid() && !extendButtonVisible
      ensures TimerState() == old(TimerState()).(duration := old(sessionDuration) + ExtensionMs)
    {
      sessionDuration := sessionDuration + ExtensionMs;
      extendButtonVisible := false;
    }

    // -------------------------------------------------------------------------
    // Starting a session, and the events the handler forwards
    // -------------------------------------------------------------------------

    /**
     * `startSession()`: capture the configuration, show the connecting status,
     * start the timer, then run the handler's start and make the callback it asks for.
     */
    method StartSession(form: FormValues, now: int, env: Environment)
      requires Valid()
      modifies this, ws
      ensures Valid()
      ensures ws.State() == StartSpec(old(ws.State()), Capture(form), env).0
      ensures ViewState() == AfterCalls(View(old(chat), "Connecting..."), StartSpec(old(ws.State()), Capture(form), env).1)
      ensures TimerState() == Start(old(TimerState()), now) && timerIntervalSet
      ensures !extendButtonVisible
      ensures now != 0 ==> timerText == TimerText(sessionDuration) && severity == SeverityOf(sessionDuration)
      ensures now == 0 ==> timerText == old(timerText) && severity == old(severity)
    {
      var config := Capture(form);
      statusText := "Connecting...";
      StartSessionTimer(now);
      var calls := ws.StartSession(config, env);
      InvokeAll(calls);
      AfterCallsKeepsOneIndicator(View(old(chat), "Connecting..."), calls);
    }

    /** The peer connection reports a state; the handler's callback, if any, is made. */
    method OnConnectionStateChange(state: string)
      requires Valid()
      modifies this`chat, this`statusText, ws
      ensures Valid()
      ensures old(ws.peerConnection).None? ==> ws.State() == old(ws.State())
      ensures old(ws.peerConnection).Some? ==>
        ws.State() == old(ws.State()).(peer := Some(old(ws.peerConnection).value.(connectionState := state)))
      ensures old(ws.peerConnection).Some? ==>
        ViewState() == AfterCalls(old(ViewState()), ConnectionStateCallbacks(state))
      ensures old(ws.peerConnection).None? ==> ViewState() == old(ViewState())
      ensures TimerState() == old(TimerState())
    {
      var calls := ws.ConnectionStateChanged(state);
      InvokeAll(calls);
      AfterCallsKeepsOneIndicator(old(ViewState()), calls);
    }

    /** A data-channel message arrives and is handled. */
    method OnServerMessage(data: ServerEvents.Inbound)
      requires Valid()
      modifies this`chat, this`statusText
      ensures Valid()
      ensures ViewState() == AfterCalls(old(ViewState()), ServerEvents.HandleServerMessage(data))
    {
      InvokeAll(ServerEvents.HandleServerMessage(data));
      ServerEvents.HandlingKeepsOneIndicator(old(ViewState()), data);
    }
  }
}
