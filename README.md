# OpenAI Realtime playground client, modelled in Dafny

The playground is a browser page for voice sessions with a realtime model. The
page reads its settings form into a configuration object. It asks a session
endpoint for an ephemeral key, with a request body built from that
configuration. It then opens a WebRTC peer connection with a data channel,
posts an SDP offer and applies the answer. Server events that arrive on the
data channel become chat entries, a typing indicator and error reports. A
two-minute countdown, which can be extended, ends the session when it runs
out.

This project models the deterministic core of the two client classes:

- `DOMHandler` (`public/dom-handler.js`):
  - configuration capture;
  - the session timer;
  - the chat list with its typing indicator;
  - the presentation callbacks;
  - the start and stop buttons.
- `WebSocketHandler` (`public/websocket-handler.js`):
  - the session-creation payload;
  - the four start steps and their error funnel;
  - the send guard;
  - the connection-state callbacks;
  - the server-event dispatcher;
  - the teardown.

Every outside effect is a parameter. The clock is a `now: int` argument. Each
`fetch`, `RTCPeerConnection`, `getUserMedia` and SDP step is an input that
either yields a value or throws with a message. The requests, sends and closes
the handler makes are appended to an `ops` log.

Files and modules:

| file | module | what it holds |
|---|---|---|
| `wrappers.dfy` | `Wrappers` | `Option`; `Outcome`, a success or a failure with a message |
| `js_builtins.dfy` | `JsBuiltins` | `toString`, `padStart(2, '0')`, `parseInt`, `split`/`join` and `Math.ceil`, for the inputs the client gives them |
| `configuration.dfy` | `Configuration` | the form values, the configuration record, `getCurrentConfiguration` as `Capture` |
| `session_payload.dfy` | `SessionPayload` | the request body of the credential exchange and the JSON keys it is written with |
| `chat_view.dfy` | `ChatView` | the presentation callbacks, the chat list and its single typing indicator |
| `server_events.dfy` | `ServerEvents` | `handleServerMessage` as a function from a parsed message to callbacks, beside a dispatch-table reference |
| `session_timer.dfy` | `SessionTimer` | remaining time, the `mm:ss` text, severity thresholds, and timer transitions as values |
| `websocket_handler.dfy` | `WebSocket` | the `WebSocketHandler` class, proved against pure specification functions (`StartSpec`, `StopSpec`, `SendSpec`) |
| `dom_handler.dfy` | `Dom` | the `DOMHandler` class: timer fields, chat list and status text, and the buttons and events that drive them |

Facts about the code that the model keeps and the lemmas show:

- A second `startSession` while a session is open is not refused. `SuccessfulStart` holds from any state.
- A failed start is not rolled back. `MicrophoneFailureKeepsPeer` shows the peer connection left in place.
- The timer is critical from 30 seconds left. 90 s into a two-minute session 30 s are left, which the code counts as critical; 119 s in, the text reads `00:01`, also critical. See `DefaultSessionTimeline`.
- The first tick at zero (120 s into a two-minute session) stops the session.
- A start whose steps are still running is not guarded against a stop or a later start. An `onSessionError` from a failed start leaves the timer running.

## Model

| member | source | states |
|---|---|---|
| `JsBuiltins.DecimalString` | public/dom-handler.js:602-607 | `n.toString()` is a non-empty string of decimal digits with no leading zero; it has one digit exactly when n < 10 and at most two exactly when n < 100 |
| `JsBuiltins.DecimalStringValue` | public/dom-handler.js:602-607 | reading the decimal numeral of n back as digits gives n |
| `JsBuiltins.PadStart2` | public/dom-handler.js:607 | `padStart(2, '0')` leaves strings of length two or more alone and left-fills shorter ones with '0' to length two, keeping the original as the suffix |
| `JsBuiltins.PaddedDecimal` | public/dom-handler.js:602-607 | a padded minutes or seconds field is all digits, reads back as its number, and is exactly two characters when the number is below 100 |
| `JsBuiltins.TrimStart` | public/dom-handler.js:323 | the white-space skip of `parseInt` returns a suffix of the text; everything it skipped is white space, and what is left does not start with white space |
| `JsBuiltins.ParseInt` | public/dom-handler.js:323 | `parseInt(text)` without a radix: skip white space, take one optional sign, then after a '0x' or '0X' prefix read the longest run of hexadecimal digits, otherwise the longest run of decimal digits, NaN when the run is empty; its meaning is stated by `ParseIntOfNumeral` and `ParseIntOfDecimalString` |
| `JsBuiltins.DigitPrefixLength` | public/dom-handler.js:323 | the digit run `parseInt` reads is the longest prefix of digits of the radix |
| `JsBuiltins.ParseIntOfNumeral` | public/dom-handler.js:323 | `parseInt` of an unsigned decimal numeral is its value |
| `JsBuiltins.ParseIntOfDecimalString` | public/dom-handler.js:323 | `parseInt(String(n)) === n` for every non-negative integer |
| `JsBuiltins.JoinSplit` | public/dom-handler.js:324 | joining the pieces of `split(',')` with ',' gives back the original text |
| `JsBuiltins.Split` | public/dom-handler.js:324 | `split(',')`: the pieces between separators, including empty ones; `JoinSplit` and `SplitPieces` state its meaning |
| `JsBuiltins.SplitPieces` | public/dom-handler.js:324 | `split` gives one more piece than there are separators, and no piece contains the separator |
| `JsBuiltins.CeilDiv` | public/dom-handler.js:600 | `Math.ceil(a / b)` is the least q with q * b >= a |
| `Configuration.NonEmpty` | public/dom-handler.js:335-336 | an empty field becomes undefined (absent) and any other text is kept as it is |
| `Configuration.Capture` | public/dom-handler.js:307-354 | `getCurrentConfiguration()`: the configuration object read from the form; `CaptureCopiesFields`, `CaptureTurnFields`, `CommonFieldsIgnoreTurnType`, `CaptureOtherFields` and `CaptureMaxTokensNumber` state what it holds |
| `Configuration.CaptureCopiesFields` | public/dom-handler.js:309-337 | the URLs, key, model, instructions, voice and both audio formats are the form's texts, the temperature is `parseFloat` of its text, noise reduction carries the form's type, and transcription carries the form's model and any non-empty language and prompt |
| `Configuration.CaptureTurnFields` | public/dom-handler.js:340-351 | server_vad adds the five server-VAD fields from the form and no eagerness; semantic_vad adds eagerness and both response flags and no server-VAD field; any other type adds neither group |
| `Configuration.CommonFieldsIgnoreTurnType` | public/dom-handler.js:323-337 | capturing the same form with only the turn-detection type changed gives the same max tokens, modalities, noise reduction and transcription |
| `Configuration.CaptureOtherFields` | public/dom-handler.js:323-337 | max tokens is 'inf' exactly when the text is 'inf'; modalities join back to the text and hold no comma; noise reduction and transcription are null exactly when unchecked; an empty language or prompt is undefined |
| `Configuration.CaptureMaxTokensNumber` | public/dom-handler.js:323 | a max-tokens field holding the numeral of n is captured as the integer n |
| `SessionPayload.PayloadFields` | public/websocket-handler.js:46-88 | the eight base fields are copied unchanged and always written; noise reduction and transcription are written exactly when present, unchanged; turn_detection is written exactly for server_vad and semantic_vad, tagged with that type, and holds the configuration's threshold, padding, silence, eagerness and response flags for its variant |
| `SessionPayload.BuildPayload` | public/websocket-handler.js:46-88 | the request body of the credential exchange built from the configuration; `PayloadFields`, `CapturedTurnDetectionValues` and `CapturedPayloadKeys` state what it holds |
| `SessionPayload.CapturedTurnDetectionValues` | public/websocket-handler.js:60-78 | from the form to the body: a server_vad object holds the parsed threshold, prefix padding and silence duration and the two server-VAD checkboxes; a semantic_vad object holds the eagerness and the two semantic checkboxes |
| `SessionPayload.PayloadKeys` | public/websocket-handler.js:46-88 | the top-level JSON keys the body is written with: a key is absent when its value is undefined; `CapturedPayloadKeys` gives the set for every form |
| `SessionPayload.WellFormedTurnDetectionKeys` | public/websocket-handler.js:60-78 | for a configuration whose fields match its type, the turn-detection object has exactly the six server-VAD keys or the four semantic-VAD keys, and other types have none |
| `SessionPayload.CapturedTurnDetectionKeys` | public/websocket-handler.js:60-78 | the same key sets hold for every configuration captured from the form |
| `SessionPayload.CapturedPayloadKeys` | public/websocket-handler.js:46-88 | the complete set of top-level keys of the request body, as a function of the form |
| `ChatView.RemoveIndicatorEffect` | public/dom-handler.js:466-471 | removing the indicator takes away exactly one indicator if there is one, keeps every message in order, and changes nothing when there is none |
| `ChatView.RemoveIndicator` | public/dom-handler.js:466-471 | `removeTypingIndicator()`: the first typing indicator leaves the chat list; `RemoveIndicatorEffect` states its effect |
| `ChatView.ShowIndicator` | public/dom-handler.js:448-464 | `showTypingIndicator()`: any indicator is removed and a new one appended; `ShowIndicatorEffect` states its effect |
| `ChatView.AfterCall` | public/dom-handler.js:376-475 | the chat list and status after one presentation callback; `AfterCallKeepsOneIndicator` states the invariant it keeps |
| `ChatView.MessagesAppend` | public/dom-handler.js:409-436 | appending to the chat list appends to its messages and adds the indicators appended |
| `ChatView.ShowIndicatorEffect` | public/dom-handler.js:448-464 | showing the indicator keeps the messages and leaves exactly one indicator, as the last child |
| `ChatView.AfterCallKeepsOneIndicator` | public/dom-handler.js:376-475 | no presentation callback puts a second typing indicator into the chat list |
| `ChatView.AfterCallsKeepsOneIndicator` | public/dom-handler.js:376-475 | any sequence of callbacks keeps the chat list at one typing indicator at most |
| `ServerEvents.HandleAgreesWithTable` | public/websocket-handler.js:234-367 | the chain of type cases and a dispatch table from type tag to handler give the same callbacks for every input |
| `ServerEvents.HandleServerMessage` | public/websocket-handler.js:234-367 | `handleServerMessage(data)` as the callbacks it makes; `HandleAgreesWithTable`, `MalformedInputIsSwallowed`, `HandleServerMessageShape`, `TranscriptEntries` and `IndicatorAndErrorEvents` state them |
| `ServerEvents.MalformedInputIsSwallowed` | public/websocket-handler.js:235-245 | a parse failure, `null`, a falsy type and a type without a handler cause no callback |
| `ServerEvents.HandleServerMessageShape` | public/websocket-handler.js:247-362 | at most two callbacks, never a connected or disconnected report, and at most one transcript entry, which is non-empty text taken from the message |
| `ServerEvents.TranscriptEntries` | public/websocket-handler.js:277-343 | a user entry is added exactly for a completed transcription with a truthy transcript, and an assistant entry exactly for a done transcript with a truthy transcript |
| `ServerEvents.IndicatorAndErrorEvents` | public/websocket-handler.js:256-358 | the indicator is shown exactly for speech-started events and user-message items, and removed exactly for response.done and error events with an error object; such an error event reports its message or 'Unknown server error'; one without an error object throws and makes no callback |
| `ServerEvents.HandlingKeepsOneIndicator` | public/websocket-handler.js:234-367 | handling any inbound message keeps the single-indicator invariant of the chat list |
| `SessionTimer.Remaining` | public/dom-handler.js:598-599 | the time left is max(0, duration - elapsed): never negative and never more than the duration once the clock has passed the start |
| `SessionTimer.TimerTextReadsBack` | public/dom-handler.js:600-607 | the `mm:ss` text has a colon before a two-digit seconds field that reads below 60, a minutes field with no leading zero beyond two digits, reads back as the remaining time in seconds rounded up, and that number is the least whole number of seconds covering the time left |
| `SessionTimer.TimerText` | public/dom-handler.js:600-607 | the `mm:ss` text of a remaining time; `TimerTextReadsBack` and `TimerTextExamples` state its meaning |
| `SessionTimer.PaddedFields` | public/dom-handler.js:602-607 | the minutes and seconds fields are digit strings, the seconds field has two digits and reads below 60, the minutes field has no leading zero beyond two digits, and together they read back as the total seconds |
| `SessionTimer.TimerTextExamples` | public/dom-handler.js:600-607 | 1000 ms and 999 ms read 00:01, 120000 ms reads 02:00 (the text the reset writes), and 0 ms reads 00:00 |
| `SessionTimer.SeverityMatchesText` | public/dom-handler.js:613-623 | critical exactly when the text reads 00:30 or less, warning exactly from 00:31 to 01:00, neither above; never two at once |
| `SessionTimer.SeverityOf` | public/dom-handler.js:613-623 | the colour class for a remaining time, critical at 30 s or less and warning at 60 s or less; `SeverityMatchesText` ties it to the text |
| `SessionTimer.ShownSecondsAtMost` | public/dom-handler.js:600 | the shown seconds are at most k exactly when at most k thousand milliseconds are left |
| `SessionTimer.ExtensionOnlyWhenCritical` | public/dom-handler.js:617-628 | a tick offers the extension exactly in a critical state with time still left |
| `SessionTimer.IdleTicksDoNothing` | public/dom-handler.js:596 | ticks of a stopped timer, or one whose start time is falsy, never stop the session |
| `SessionTimer.ExpiresAtMostOnce` | public/dom-handler.js:585-634 | however the clock moves, ticks stop the session at most once per start |
| `SessionTimer.Start` | public/dom-handler.js:571-573 | `startSessionTimer()` on the timer's fields: start recorded, active, duration kept; `ExtensionCarriesOver` states the kept duration |
| `SessionTimer.Stop` | public/dom-handler.js:585-593 | `stopSessionTimer()` on the timer's fields: inactive, start and duration kept |
| `SessionTimer.Tick` | public/dom-handler.js:595-634 | one tick on the timer's fields: an expiring tick stops the session; `IdleTicksDoNothing` and `ExpiresAtMostOnce` state its effect over any run of ticks |
| `SessionTimer.Extend` | public/dom-handler.js:645-653 | `extendSession()` on the timer's fields: two more minutes, then a tick; `ExtendAddsTwoMinutes` states its effect |
| `SessionTimer.ExtendAddsTwoMinutes` | public/dom-handler.js:645-653 | an extension adds exactly 120000 ms to the duration, keeps the start time, and adds exactly two minutes to the time left |
| `SessionTimer.ExtensionCarriesOver` | public/dom-handler.js:571-573 | the duration is never reset: after any extension (with time left, after the deadline before the next tick, or on an idle timer), a stop and a new start, the new session runs for the extended duration |
| `SessionTimer.DefaultSessionTimeline` | public/dom-handler.js:595-634 | a two-minute session is critical 90 s in, reads 00:01 and runs on at 119 s, stops at 120 s, and has 145 s left after an extension at 95 s |
| `WebSocket.WebRtcStep` | public/websocket-handler.js:113-148 | the step continues exactly when the peer connection can be created, and then holds a new connection with the STUN server |
| `WebSocket.KeyStep` | public/websocket-handler.js:42-111 | the credential step always posts the session request first and leaves the configuration as it was |
| `WebSocket.ChannelStep` | public/websocket-handler.js:150-190 | the channel step continues exactly when the microphone is granted, and the peer connection stays in place |
| `WebSocket.OfferStep` | public/websocket-handler.js:192-216 | the offer step only appends to the request log and leaves the configuration as it was |
| `WebSocket.ConnectionStateCallbacks` | public/websocket-handler.js:133-146 | 'connected' gives exactly onSessionConnected; 'disconnected', 'failed' and 'closed' give exactly onSessionDisconnected; any other state gives no callback |
| `WebSocket.StartSpec` | public/websocket-handler.js:17-39 | `startSession(config)` on the handler's state: the four steps in order, stopping at the first that throws; `StartReportsFirstFailure`, `FailedStartLeavesNoTrace` and `SuccessfulStart` state its result |
| `WebSocket.FirstFailure` | public/websocket-handler.js:42-216 | the message of the first step that throws, read off the step outcomes in the order the steps run, as the reference `StartReportsFirstFailure` compares the start with |
| `WebSocket.StopSpec` | public/websocket-handler.js:439-470 | `stopSession()` on the handler's state; `StopClearsSession` states its result |
| `WebSocket.SendSpec` | public/websocket-handler.js:225-232 | `sendMessage(message)` on the handler's state; `SendOnlyWhenOpen` states its result |
| `WebSocket.StartReportsFailureOnce` | public/websocket-handler.js:17-39 | a start makes no callback exactly when every step succeeds and otherwise exactly one onSessionError; it always records the configuration and posts the session request first |
| `WebSocket.StartReportsFirstFailure` | public/websocket-handler.js:17-39 | a start's callbacks are exactly one onSessionError with the message of the first step that threw (as `FirstFailure` reads it off the step outcomes), or none when every step succeeds |
| `WebSocket.FailedStartLeavesNoTrace` | public/websocket-handler.js:17-39 | steps after a failing one leave no trace: the offer is posted only when key, peer connection, microphone and offer succeed, the data channel is created only when the first three do, a failed key exchange leaves connection, channel, id and key as they were |
| `WebSocket.SdpFailureReported` | public/websocket-handler.js:206-209 | an SDP response with status 500 after the offer was posted is the first failure, reported as 'SDP request failed with status: 500' |
| `WebSocket.CredentialFailureStopsStart` | public/websocket-handler.js:100-103 | a non-2xx credential response reports the status and body text, and no later step runs |
| `WebSocket.Unauthorized` | public/websocket-handler.js:100-103 | with status 401 the error reads "API request failed with status: 401. " followed by the body |
| `WebSocket.MicrophoneFailureKeepsPeer` | public/websocket-handler.js:150-169 | a refused microphone reports 'Failed to access microphone: ' plus the reason and leaves the new peer connection and the credentials in place |
| `WebSocket.SuccessfulStart` | public/websocket-handler.js:17-216 | when every step succeeds, from any prior state: id and key come from the body, the new connection carries the mic track and both descriptions, the channel is connecting, and the offer was posted with the key |
| `WebSocket.StopClearsSession` | public/websocket-handler.js:439-470 | a stop clears every session field, closes exactly the channel and connection that were open, always reports one disconnection, and a second stop closes nothing more |
| `WebSocket.SendOnlyWhenOpen` | public/websocket-handler.js:225-232 | a message is transmitted exactly when the channel exists and is open; otherwise the state is unchanged and nothing is queued |
| `WebSocket.WebSocketHandler.constructor` | public/websocket-handler.js:2-15 | every session field starts null and the transcript empty |
| `WebSocket.WebSocketHandler.StartSession` | public/websocket-handler.js:17-40 | the new state and the callbacks are those of `StartSpec` |
| `WebSocket.WebSocketHandler.GetEphemeralKey` | public/websocket-handler.js:42-111 | the new state and the thrown message are those of `KeyStep` |
| `WebSocket.WebSocketHandler.InitializeWebRtc` | public/websocket-handler.js:113-148 | the new state and the thrown message are those of `WebRtcStep` |
| `WebSocket.WebSocketHandler.SetupAudioAndDataChannels` | public/websocket-handler.js:150-190 | the new state and the thrown message are those of `ChannelStep` |
| `WebSocket.WebSocketHandler.CreateAndSendOffer` | public/websocket-handler.js:192-216 | the new state and the thrown message are those of `OfferStep` |
| `WebSocket.WebSocketHandler.SendMessage` | public/websocket-handler.js:225-232 | the new state is that of `SendSpec` |
| `WebSocket.WebSocketHandler.DataChannelStateChanged` | public/websocket-handler.js:172-189 | only an existing channel's ready state changes |
| `WebSocket.WebSocketHandler.ConnectionStateChanged` | public/websocket-handler.js:130-147 | with a peer connection, its state is recorded and the callbacks are `ConnectionStateCallbacks`; without one, nothing changes and no callback is made |
| `WebSocket.WebSocketHandler.StopSession` | public/websocket-handler.js:439-470 | the new state and the callbacks are those of `StopSpec` |
| `Dom.DomHandler.constructor` | public/dom-handler.js:93-97 | a two-minute timer that has never started, no interval, the reset display and an empty chat list |
| `Dom.DomHandler.ShowTypingIndicator` | public/dom-handler.js:448-464 | the chat list becomes `ShowIndicator` of the old one |
| `Dom.DomHandler.RemoveTypingIndicator` | public/dom-handler.js:466-471 | the chat list becomes `RemoveIndicator` of the old one |
| `Dom.DomHandler.AddUserTranscription` | public/dom-handler.js:438-441 | a user entry with the text is appended |
| `Dom.DomHandler.AddAssistantTranscription` | public/dom-handler.js:443-446 | an assistant entry with the text is appended |
| `Dom.DomHandler.ClearChatMessages` | public/dom-handler.js:473-475 | the chat list is emptied |
| `Dom.DomHandler.OnSessionConnected` | public/dom-handler.js:376-381 | status 'Connected' and the session-started note appended |
| `Dom.DomHandler.OnSessionDisconnected` | public/dom-handler.js:383-388 | status 'Disconnected' and the chat list cleared |
| `Dom.DomHandler.OnSessionError` | public/dom-handler.js:390-394 | status 'Error', chat list unchanged |
| `Dom.DomHandler.Invoke` | public/dom-handler.js:376-475 | one callback changes the view as `AfterCall` says |
| `Dom.DomHandler.InvokeAll` | public/dom-handler.js:376-475 | callbacks in order change the view as `AfterCalls` says |
| `Dom.DomHandler.ResetTimerDisplay` | public/dom-handler.js:637-643 | text 02:00, no severity class, extend button hidden |
| `Dom.DomHandler.StopSessionTimer` | public/dom-handler.js:585-593 | the interval is cleared, the timer deactivated, the display reset; start time and duration are kept |
| `Dom.DomHandler.StopSession` | public/dom-handler.js:287-305 | timer stopped and reset, extend button hidden, chat cleared, status 'Disconnected', and the handler's state that of `StopSpec` |
| `Dom.DomHandler.UpdateTimerDisplay` | public/dom-handler.js:595-635 | an idle or falsy-start timer changes nothing; otherwise text and colour show the time left, the extend button appears in the last 30 s, and a tick at zero stops the session; the outcome is also stated as `TickedFrom` the old timer and display |
| `Dom.DomHandler.ShowRemaining` | public/dom-handler.js:605-628 | text and colour show the given time; the extend button is shown if it was, or if the time is in the last 30 s before zero |
| `Dom.DomHandler.ShowFullDuration` | public/dom-handler.js:575 | the tick made at the start finds the whole duration left and shows it, without offering an extension |
| `Dom.DomHandler.StartSessionTimer` | public/dom-handler.js:571-583 | the start time is recorded, the duration kept, the extend button hidden, the full duration shown, and the interval started |
| `Dom.DomHandler.ExtendSession` | public/dom-handler.js:645-653 | two more minutes with the same start and the button hidden, then the state is `TickedFrom` the extended timer and the old display: an idle timer keeps its display; a running one shows the new time left as text and colour, with the chat, status and handler unchanged; one with no time left even so is stopped, its display reset, the chat cleared and the handler's session cleared |
| `Dom.DomHandler.AddExtension` | public/dom-handler.js:647-648 | the duration grows by exactly two minutes, start and activity are kept, the extend button is hidden, and the display invariant still holds |
| `Dom.DomHandler.StartSession` | public/dom-handler.js:264-285 | the configuration is captured, the status reads 'Connecting...', the timer starts with the extend button hidden and the full duration shown as text and colour (a falsy start time leaves the display), and the handler's start and its callbacks follow `StartSpec` |
| `Dom.DomHandler.OnConnectionStateChange` | public/websocket-handler.js:130-147 | only the chat, the status and the handler change: with a peer connection its state is recorded and the view changes by `ConnectionStateCallbacks`; with none, nothing changes; the timer is untouched |
| `Dom.DomHandler.OnServerMessage` | public/websocket-handler.js:179-181 | the view changes by the callbacks of `HandleServerMessage`, keeping at most one typing indicator |

## Left out

- Floating point. `parseFloat` of the temperature and threshold sliders is kept as the text it was read from (`FloatText`). The progress-bar percentage (public/dom-handler.js:609-611) is not modelled.
- `parseInt` is exact on unbounded integers. JavaScript numbers lose precision above 2^53.
- JSON text. The request body is a record whose key set is computed. Inbound messages arrive already parsed, as `Inbound`. String-valued properties are assumed to hold strings. Outbound client events are not serialised.
- I/O and the browser. `fetch`, `RTCPeerConnection`, `getUserMedia`, `createOffer`/`setLocalDescription`/`setRemoteDescription` and the data channel's transport are inputs (`Environment`), and their requests are entries of the `ops` log. Element lookup, CSS classes, styles, scrolling, timestamps and all logging (`log`, `logMessage`) are not modelled.
- Asynchrony. `setInterval` and the `await` points are not modelled. Each tick, event and callback is one sequential call with the clock passed in. A continuation of a start that was stopped mid-flight is not modelled.
- The `ontrack` handler and the data channel's `open`, `close` and `error` listeners only log or attach the audio stream. The `open` handler's `updateSessionConfiguration` only logs.
- `window.domHandler` and `window.websocketHandler` are assumed present. Without them the source skips the callbacks, and the model does not cover that case.
- The dead delta-rendering helpers `updateAssistantTranscript` and `finalizeAssistantTranscript`. They are never called, and the second one calls a method the class does not have.
- `disableConfigurationFields`, `enableConfigurationFields` and `testTranscripts`. They only change which form fields are enabled, or inject test text.
- The form's event wiring, sliders, panel toggles and microphone-permission helpers (public/dom-handler.js:100-258, 356-373). They are view glue.
- server.js, a static file server, is not part of this model.
- `Dom.DomHandler.constructor`: the markup's initial timer text and status text are taken to be '02:00' and '', as the reset display writes.
- `WebSocket.WebSocketHandler.ConnectionStateChanged`: the event of an earlier, replaced peer connection is modelled as coming from the current one, as the source reads `this.peerConnection`.
