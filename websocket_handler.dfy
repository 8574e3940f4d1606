/**
 * `WebSocketHandler` (public/websocket-handler.js): the session's transport
 * state and the steps that build and tear it down. Every external call (fetch,
 * `RTCPeerConnection`, `getUserMedia`, the offer and answer) is an input that
 * either succeeds with a value or throws with a message. The presentation
 * callbacks a method makes are returned, in order, instead of being made on
 * `window.domHandler`.
 */
module WebSocket {
  import opened Wrappers
  import opened JsBuiltins
  import opened Configuration
  import opened SessionPayload
  import opened ChatView

  const StunServer := "stun:stun.l.google.com:19302"
  const ChannelLabel := "realtime-channel"

  /** A data channel's `readyState`. */
  datatype ReadyState = Connecting | Open | Closing | Closed

  datatype DataChannel = DataChannel(channelName: string, readyState: ReadyState)

  /** The peer connection, as far as this client configures and reads it. */
  datatype PeerConnection = PeerConnection(
    iceServer: string, connectionState: string, micTrackAdded: bool,
    localDescription: Option<string>, remoteDescription: Option<string>)

  /** An outbound client event; its JSON text is not modelled. */
  datatype ClientEvent = ClientEvent(eventType: string, body: string)

  /** What the handler asks of the outside world, in order. */
  datatype TransportOp =
    | PostSession(url: string, authorization: string, payload: Payload)
    | PostOffer(url: string, authorization: string, sdp: string)
    | Send(event: ClientEvent)
    | CloseChannel
    | ClosePeer
    | DetachAudio

  /** The body of a 2xx credential response: `data.id` and `data.client_secret?.value`. */
  datatype SessionBody = BodyUnreadable(reason: string) | SessionBody(id: Option<string>, secret: Option<string>)

  /** The credential request: fetch rejects, or a response arrives with a status and a body. */
  datatype KeyFetch = KeyFetchRejected(reason: string) | KeyResponse(status: nat, text: string, json: SessionBody)

  /** The SDP request: fetch rejects, or a response arrives; applying the answer may fail. */
  datatype SdpFetch = SdpRejected(reason: string) | SdpResponse(status: nat, answer: string, applied: Outcome)

  /** `createOffer`/`setLocalDescription` fail, or give the offer's SDP text. */
  datatype OfferResult = OfferFailed(reason: string) | Offer(sdp: string, exchange: SdpFetch)

  /** The outcomes of every external step of one session start. */
  datatype Environment = Environment(
    key: KeyFetch, peer: Outcome, audioElementFound: bool, mic: Outcome, offer: OfferResult)

  /** The handler's fields. `currentTranscript` is reset but never filled by live code. */
  datatype HandlerState = HandlerState(
    peer: Option<PeerConnection>, channel: Option<DataChannel>, audioElement: bool,
    sessionId: Option<string>, ephemeralKey: Option<string>, config: Option<Config>,
    currentTranscript: string, ops: seq<TransportOp>)

  predicate IsOk(status: nat) {
    200 <= status <= 299
  }

  /** A template literal's text for a value that may be `undefined`. */
  function Interpolate(v: Option<string>): string {
    if v.Some? then v.value else "undefined"
  }

  // ---------------------------------------------------------------------------
  // The four steps of startSession, as functions of the state
  // ---------------------------------------------------------------------------

  /** A step either completes with a new state or throws with a message, having changed the state so far. */
  datatype StepResult = Continue(state: HandlerState) | Abort(state: HandlerState, message: string)

  /** `getEphemeralKey()`. */
  function KeyStep(s: HandlerState, cfg: Config, fetch: KeyFetch): (r: StepResult)
    ensures r.state.ops == s.ops + [PostSession(cfg.sessionUrl, "Bearer " + cfg.apiKey, BuildPayload(cfg))]
    ensures r.state.config == s.config
  {
    var s1 := s.(ops := s.ops + [PostSession(cfg.sessionUrl, "Bearer " + cfg.apiKey, BuildPayload(cfg))]);
    match fetch
    case KeyFetchRejected(reason) => Abort(s1, reason)
    case KeyResponse(status, text, json) =>
      if !IsOk(status) then
        Abort(s1, "API request failed with status: " + DecimalString(status) + ". " + text)
      else
        match json
        case BodyUnreadable(reason) => Abort(s1, reason)
        case SessionBody(id, secret) => Continue(s1.(sessionId := id, ephemeralKey := secret))
  }

  const FreshPeer := PeerConnection(StunServer, "new", false, None, None)

  /** `initializeWebRTC()`. */
  function WebRtcStep(s: HandlerState, peer: Outcome, audioElementFound: bool): (r: StepResult)
    ensures r.Continue? <==> peer.Pass?
    ensures r.Continue? ==> r.state.peer == Some(FreshPeer)
    ensures r.state.ops == s.ops && r.state.config == s.config
  {
    match peer
    case Fail(reason) => Abort(s, reason)
    case Pass => Continue(s.(peer := Some(FreshPeer), audioElement := audioElementFound))
  }

  /** `setupAudioAndDataChannels()`. */
  function ChannelStep(s: HandlerState, mic: Outcome): (r: StepResult)
    requires s.peer.Some?
    ensures r.state.peer.Some?
    ensures r.Continue? <==> mic.Pass?
    ensures r.state.ops == s.ops && r.state.config == s.config
  {
    match mic
    case Fail(reason) => Abort(s, "Failed to access microphone: " + reason)
    case Pass =>
      Continue(s.(peer := Some(s.peer.value.(micTrackAdded := true)),
                  channel := Some(DataChannel(ChannelLabel, Connecting))))
  }

  /** `createAndSendOffer()`. */
  function OfferStep(s: HandlerState, cfg: Config, offer: OfferResult): (r: StepResult)
    requires s.peer.Some?
    ensures |r.state.ops| >= |s.ops| && r.state.ops[..|s.ops|] == s.ops
    ensures r.state.config == s.config
  {
    match offer
    case OfferFailed(reason) => Abort(s, reason)
    case Offer(sdp, exchange) =>
      var s1 := s.(peer := Some(s.peer.value.(localDescription := Some(sdp))),
                   ops := s.ops + [PostOffer(cfg.webrtcUrl + "?model=" + cfg.model,
                                             "Bearer " + Interpolate(s.ephemeralKey), sdp)]);
      match exchange
      case SdpRejected(reason) => Abort(s1, reason)
      case SdpResponse(status, answer, applied) =>
        if !IsOk(status) then Abort(s1, "SDP request failed with status: " + DecimalString(status))
        else if applied.Fail? then Abort(s1, applied.message)
        else Continue(s1.(peer := Some(s1.peer.value.(remoteDescription := Some(answer)))))
  }

  /** `startSession(config)`: the four steps in order; the first that throws ends the start with one error callback. */
  function StartSpec(s: HandlerState, cfg: Config, env: Environment): (HandlerState, seq<UiCall>) {
    var s0 := s.(config := Some(cfg));
    match KeyStep(s0, cfg, env.key)
    case Abort(s1, m) => (s1, [OnSessionError(m)])
    case Continue(s1) =>
      match WebRtcStep(s1, env.peer, env.audioElementFound)
      case Abort(s2, m) => (s2, [OnSessionError(m)])
      case Continue(s2) =>
        match ChannelStep(s2, env.mic)
        case Abort(s3, m) => (s3, [OnSessionError(m)])
        case Continue(s3) =>
          match OfferStep(s3, cfg, env.offer)
          case Abort(s4, m) => (s4, [OnSessionError(m)])
          case Continue(s4) => (s4, [])
  }

  /** `stopSession()`: close what is open, clear every session field, report the disconnection. */
  function StopSpec(s: HandlerState): (HandlerState, seq<UiCall>) {
    var closing := (if s.channel.Some? then [CloseChannel] else []) +
                   (if s.peer.Some? then [ClosePeer] else []) +
                   (if s.audioElement then [DetachAudio] else []);
    (HandlerState(None, None, s.audioElement, None, None, None, "", s.ops + closing), [OnSessionDisconnected])
  }

  /** `sendMessage(message)`: transmit only on an open channel; otherwise drop it. */
  function SendSpec(s: HandlerState, event: ClientEvent): HandlerState {
    if s.channel.Some? && s.channel.value.readyState == Open then s.(ops := s.ops + [Send(event)]) else s
  }

  /** The callback for a connection state the peer connection reports. */
  function ConnectionStateCallbacks(state: string): (calls: seq<UiCall>)
    ensures |calls| <= 1
    ensures calls == [OnSessionConnected] <==> state == "connected"
    ensures calls == [OnSessionDisconnected] <==> state in {"disconnected", "failed", "closed"}
    ensures calls == [] <==> state !in {"connected", "disconnected", "failed", "closed"}
  {
    if state == "connected" then [OnSessionConnected]
    else if state == "disconnected" || state == "failed" || state == "closed" then [OnSessionDisconnected]
    else []
  }

  // ---------------------------------------------------------------------------
  // Properties of the lifecycle
  // ---------------------------------------------------------------------------

  /** Every external step succeeds. */
  predicate AllStepsSucceed(env: Environment) {
    env.key.KeyResponse? && IsOk(env.key.status) && env.key.json.SessionBody? &&
    env.peer.Pass? && env.mic.Pass? &&
    env.offer.Offer? && env.offer.exchange.SdpResponse? && IsOk(env.offer.exchange.status) &&
    env.offer.exchange.applied.Pass?
  }

  /**
   * A start makes no callback when every step succeeds and exactly one,
   * `onSessionError`, otherwise; it always records the configuration and always
   * posts the session request first.
   */
  lemma StartReportsFailureOnce(s: HandlerState, cfg: Config, env: Environment)
    ensures var (s', calls) := StartSpec(s, cfg, env);
      (calls == [] <==> AllStepsSucceed(env)) &&
      (calls != [] ==> |calls| == 1 && calls[0].OnSessionError?) &&
      s'.config == Some(cfg) &&
      |s'.ops| > |s.ops| && s'.ops[..|s.ops|] == s.ops &&
      s'.ops[|s.ops|] == PostSession(cfg.sessionUrl, "Bearer " + cfg.apiKey, BuildPayload(cfg))
  {
    var s0 := s.(config := Some(cfg));
    var op := PostSession(cfg.sessionUrl, "Bearer " + cfg.apiKey, BuildPayload(cfg));
    var r1 := KeyStep(s0, cfg, env.key);
    if r1.Continue? {
      var r2 := WebRtcStep(r1.state, env.peer, env.audioElementFound);
      if r2.Continue? {
        var r3 := ChannelStep(r2.state, env.mic);
        if r3.Continue? {
          var r4 := OfferStep(r3.state, cfg, env.offer);
          assert r4.state.ops[..|s.ops| + 1] == r4.state.ops[..|r3.state.ops|] == s.ops + [op];
        }
      }
    }
  }

  /** The credential response is 2xx with a readable body. */
  predicate KeyObtained(env: Environment) {
    env.key.KeyResponse? && IsOk(env.key.status) && env.key.json.SessionBody?
  }

  /** The start reaches the data channel: the key, the peer connection and the microphone all succeed. */
  predicate ChannelOpened(env: Environment) {
    KeyObtained(env) && env.peer.Pass? && env.mic.Pass?
  }

  /** The start reaches the SDP request: in addition, the offer is created. */
  predicate OfferPosted(env: Environment) {
    ChannelOpened(env) && env.offer.Offer?
  }

  /**
   * The message of the first step that throws, read off the environment in the
   * order the steps run; None when every step succeeds.
   */
  function FirstFailure(env: Environment): Option<string> {
    if env.key.KeyFetchRejected? then Some(env.key.reason)
    else if !IsOk(env.key.status) then
      Some("API request failed with status: " + DecimalString(env.key.status) + ". " + env.key.text)
    else if env.key.json.BodyUnreadable? then Some(env.key.json.reason)
    else if env.peer.Fail? then Some(env.peer.message)
    else if env.mic.Fail? then Some("Failed to access microphone: " + env.mic.message)
    else if env.offer.OfferFailed? then Some(env.offer.reason)
    else if env.offer.exchange.SdpRejected? then Some(env.offer.exchange.reason)
    else if !IsOk(env.offer.exchange.status) then
      Some("SDP request failed with status: " + DecimalString(env.offer.exchange.status))
    else if env.offer.exchange.applied.Fail? then Some(env.offer.exchange.applied.message)
    else None
  }

  /**
   * The callbacks of a start: none when every step succeeds, and otherwise one
   * `onSessionError` carrying the message of the first step that threw.
   */
  lemma StartReportsFirstFailure(s: HandlerState, cfg: Config, env: Environment)
    ensures StartSpec(s, cfg, env).1 ==
      if FirstFailure(env).Some? then [OnSessionError(FirstFailure(env).value)] else []
    ensures FirstFailure(env).None? <==> AllStepsSucceed(env)
  {
  }

  /**
   * The steps after a failing one leave no trace: the offer is posted only when
   * the key, the peer connection, the microphone and the offer succeed; the data
   * channel is created only when the first three do; a failed credential
   * exchange leaves the connection, the channel, the session id and the key as
   * they were, and a failed peer connection leaves the earlier connection.
   */
  lemma FailedStartLeavesNoTrace(s: HandlerState, cfg: Config, env: Environment)
    ensures var s' := StartSpec(s, cfg, env).0;
      s'.ops == s.ops + [PostSession(cfg.sessionUrl, "Bearer " + cfg.apiKey, BuildPayload(cfg))] +
        (if OfferPosted(env)
         then [PostOffer(cfg.webrtcUrl + "?model=" + cfg.model, "Bearer " + Interpolate(env.key.json.secret), env.offer.sdp)]
         else [])
    ensures var s' := StartSpec(s, cfg, env).0;
      s'.channel == if ChannelOpened(env) then Some(DataChannel(ChannelLabel, Connecting)) else s.channel
    ensures var s' := StartSpec(s, cfg, env).0;
      !KeyObtained(env) ==>
        s'.peer == s.peer && s'.sessionId == s.sessionId && s'.ephemeralKey == s.ephemeralKey
    ensures var s' := StartSpec(s, cfg, env).0;
      KeyObtained(env) && env.peer.Fail? ==> s'.peer == s.peer
  {
    var s0 := s.(config := Some(cfg));
    var r1 := KeyStep(s0, cfg, env.key);
    if r1.Continue? {
      var r2 := WebRtcStep(r1.state, env.peer, env.audioElementFound);
      if r2.Continue? {
        var r3 := ChannelStep(r2.state, env.mic);
        if r3.Continue? {
          assert r3.state.ephemeralKey == env.key.json.secret;
        }
      }
    }
  }

  /**
   * An SDP response with status 500 is the first failure when the offer was
   * posted, and is reported with its status in the text.
   */
  lemma SdpFailureReported(env: Environment)
    requires OfferPosted(env) && env.offer.exchange.SdpResponse? && env.offer.exchange.status == 500
    ensures FirstFailure(env) == Some("SDP request failed with status: 500")
  {
    assert FirstFailure(env) == Some("SDP request failed with status: " + DecimalString(500));
    assert DecimalString(500) == "500" by {
      assert DecimalString(5) == [DigitChar(5)] == "5";
      assert DecimalString(50) == DecimalString(5) + [DigitChar(0)] == "50";
      assert DecimalString(500) == DecimalString(50) + [DigitChar(0)];
    }
    assert "SDP request failed with status: " + "500" == "SDP request failed with status: 500";
  }

  /**
   * A credential response that is not 2xx ends the start with the status and the
   * body text in the error, and no later step runs: no peer connection, data
   * channel or session id is created and no offer is posted.
   */
  lemma CredentialFailureStopsStart(s: HandlerState, cfg: Config, env: Environment)
    requires env.key.KeyResponse? && !IsOk(env.key.status)
    ensures var (s', calls) := StartSpec(s, cfg, env);
      calls == [OnSessionError("API request failed with status: " + DecimalString(env.key.status) + ". " + env.key.text)] &&
      s'.peer == s.peer && s'.channel == s.channel && s'.sessionId == s.sessionId &&
      s'.ephemeralKey == s.ephemeralKey &&
      s'.ops == s.ops + [PostSession(cfg.sessionUrl, "Bearer " + cfg.apiKey, BuildPayload(cfg))]
  {
  }

  /** With status 401 the error text reads "API request failed with status: 401. " and the body. */
  lemma Unauthorized(s: HandlerState, cfg: Config, body: string, json: SessionBody, rest: Environment)
    ensures StartSpec(s, cfg, rest.(key := KeyResponse(401, body, json))).1 ==
      [OnSessionError("API request failed with status: 401. " + body)]
  {
    var env := rest.(key := KeyResponse(401, body, json));
    CredentialFailureStopsStart(s, cfg, env);
    assert DecimalString(4) == "4" && DecimalString(40) == "40" && DecimalString(401) == "401";
    assert "API request failed with status: " + "401" + ". " + body == "API request failed with status: 401. " + body;
  }

  /** A microphone failure happens after the peer connection exists and leaves it, with no data channel created. */
  lemma MicrophoneFailureKeepsPeer(s: HandlerState, cfg: Config, env: Environment)
    requires env.key.KeyResponse? && IsOk(env.key.status) && env.key.json.SessionBody?
    requires env.peer.Pass? && env.mic.Fail?
    ensures var (s', calls) := StartSpec(s, cfg, env);
      calls == [OnSessionError("Failed to access microphone: " + env.mic.message)] &&
      s'.peer == Some(FreshPeer) && s'.channel == s.channel &&
      s'.sessionId == env.key.json.id && s'.ephemeralKey == env.key.json.secret
  {
  }

  /**
   * A start where every step succeeds, from any state (there is no guard against a
   * session already being open): the session id and key come from the response
   * body, a new peer connection carries the microphone track and both
   * descriptions, a new data channel is connecting, the offer is posted with the
   * ephemeral key, and nothing that was open before is closed.
   */
  lemma SuccessfulStart(s: HandlerState, cfg: Config, env: Environment)
    requires AllStepsSucceed(env)
    ensures var (s', calls) := StartSpec(s, cfg, env);
      calls == [] &&
      s'.sessionId == env.key.json.id && s'.ephemeralKey == env.key.json.secret &&
      s'.config == Some(cfg) &&
      s'.peer == Some(PeerConnection(StunServer, "new", true, Some(env.offer.sdp), Some(env.offer.exchange.answer))) &&
      s'.channel == Some(DataChannel(ChannelLabel, Connecting)) &&
      s'.audioElement == env.audioElementFound &&
      s'.ops == s.ops + [PostSession(cfg.sessionUrl, "Bearer " + cfg.apiKey, BuildPayload(cfg)),
                         PostOffer(cfg.webrtcUrl + "?model=" + cfg.model,
                                   "Bearer " + Interpolate(env.key.json.secret), env.offer.sdp)]
  {
  }

  /** Nothing is left of the session after a stop, and it always reports the disconnection. */
  predicate Cleared(s: HandlerState) {
    s.peer.None? && s.channel.None? && s.sessionId.None? && s.ephemeralKey.None? &&
    s.config.None? && s.currentTranscript == ""
  }

  /**
   * A stop clears every session field, closes the channel and the connection
   * that were open (channel first), and reports one disconnection; a second stop
   * closes nothing more.
   */
  lemma StopClearsSession(s: HandlerState)
    ensures Cleared(StopSpec(s).0) && StopSpec(s).1 == [OnSessionDisconnected]
    ensures CloseChannel in StopSpec(s).0.ops[|s.ops|..] <==> s.channel.Some?
    ensures ClosePeer in StopSpec(s).0.ops[|s.ops|..] <==> s.peer.Some?
    ensures var t := StopSpec(s).0;
      StopSpec(t).0 == t.(ops := t.ops + (if t.audioElement then [DetachAudio] else []))
  {
    var t := StopSpec(s).0;
    var closing := t.ops[|s.ops|..];
    assert closing == (if s.channel.Some? then [CloseChannel] else []) +
                      (if s.peer.Some? then [ClosePeer] else []) +
                      (if s.audioElement then [DetachAudio] else []);
  }

  /** A message is transmitted exactly when the channel exists and is open; otherwise nothing changes and nothing is queued. */
  lemma SendOnlyWhenOpen(s: HandlerState, event: ClientEvent)
    ensures SendSpec(s, event).ops == s.ops + [Send(event)] <==> s.channel.Some? && s.channel.value.readyState == Open
    ensures SendSpec(s, event) == s <==> !(s.channel.Some? && s.channel.value.readyState == Open)
  {
    if SendSpec(s, event).ops == s.ops + [Send(event)] {
      assert |SendSpec(s, event).ops| != |s.ops|;
    }
  }

  // ---------------------------------------------------------------------------
  // The handler object
  // ---------------------------------------------------------------------------

  class WebSocketHandler {
    var peerConnection: Option<PeerConnection>
    var dataChannel: Option<DataChannel>
    var audioElement: bool
    var sessionId: Option<string>
    var ephemeralKey: Option<string>
    var currentConfig: Option<Config>
    var currentTranscript: string
    var ops: seq<TransportOp>

    function State(): HandlerState
      reads this
    {
      HandlerState(peerConnection, dataChannel, audioElement, sessionId, ephemeralKey,
                   currentConfig, currentTranscript, ops)
    }

    constructor ()
      ensures State() == HandlerState(None, None, false, None, None, None, "", [])
    {
      peerConnection, dataChannel, audioElement := None, None, false;
      sessionId, ephemeralKey, currentConfig := None, None, None;
      currentTranscript, ops := "", [];
    }

    method StartSession(config: Config, env: Environment) returns (calls: seq<UiCall>)
      modifies this
      ensures (State(), calls) == StartSpec(old(State()), config, env)
    {
      currentConfig := Some(config);
      var error := GetEphemeralKey(env.key);
      if error.None? {
        error := InitializeWebRtc(env.peer, env.audioElementFound);
      }
      if error.None? {
        error := SetupAudioAndDataChannels(env.mic);
      }
      if error.None? {
        error := CreateAndSendOffer(env.offer);
      }
      calls := if error.Some? then [OnSessionError(error.value)] else [];
    }

    method GetEphemeralKey(fetch: KeyFetch) returns (error: Option<string>)
      requires currentConfig.Some?
      modifies this
      ensures var r := KeyStep(old(State()), old(currentConfig.value), fetch);
        State() == r.state && (error.Some? <==> r.Abort?) && (r.Abort? ==> error.value == r.message)
    {
      var cfg := currentConfig.value;
      ops := ops + [PostSession(cfg.sessionUrl, "Bearer " + cfg.apiKey, BuildPayload(cfg))];
      match fetch {
        case KeyFetchRejected(reason) =>
          error := Some(reason);
        case KeyResponse(status, text, json) =>
          if !IsOk(status) {
            error := Some("API request failed with status: " + DecimalString(status) + ". " + text);
          } else {
            match json {
              case BodyUnreadable(reason) =>
                error := Some(reason);
              case SessionBody(id, secret) =>
                sessionId := id;
                ephemeralKey := secret;
                error := None;
            }
          }
      }
    }

    method InitializeWebRtc(peer: Outcome, audioElementFound: bool) returns (error: Option<string>)
      modifies this
      ensures var r := WebRtcStep(old(State()), peer, audioElementFound);
        State() == r.state && (error.Some? <==> r.Abort?) && (r.Abort? ==> error.value == r.message)
      ensures error.None? ==> peerConnection.Some?
    {
      if peer.Fail? {
        error := Some(peer.message);
      } else {
        peerConnection := Some(FreshPeer);
        audioElement := audioElementFound;
        error := None;
      }
    }

    method SetupAudioAndDataChannels(mic: Outcome) returns (error: Option<string>)
      requires peerConnection.Some?
      modifies this
      ensures var r := ChannelStep(old(State()), mic);
        State() == r.state && (error.Some? <==> r.Abort?) && (r.Abort? ==> error.value == r.message)
      ensures peerConnection.Some?
    {
      if mic.Fail? {
        error := Some("Failed to access microphone: " + mic.message);
      } else {
        peerConnection := Some(peerConnection.value.(micTrackAdded := true));
        dataChannel := Some(DataChannel(ChannelLabel, Connecting));
        error := None;
      }
    }

    method CreateAndSendOffer(offer: OfferResult) returns (error: Option<string>)
      requires peerConnection.Some? && currentConfig.Some?
      modifies this
      ensures var r := OfferStep(old(State()), old(currentConfig.value), offer);
        State() == r.state && (error.Some? <==> r.Abort?) && (r.Abort? ==> error.value == r.message)
    {
      match offer {
        case OfferFailed(reason) =>
          error := Some(reason);
        case Offer(sdp, exchange) =>
          var cfg := currentConfig.value;
          peerConnection := Some(peerConnection.value.(localDescription := Some(sdp)));
          ops := ops + [PostOffer(cfg.webrtcUrl + "?model=" + cfg.model, "Bearer " + Interpolate(ephemeralKey), sdp)];
          match exchange {
            case SdpRejected(reason) =>
              error := Some(reason);
            case SdpResponse(status, answer, applied) =>
              if !IsOk(status) {
                error := Some("SDP request failed with status: " + DecimalString(status));
              } else if applied.Fail? {
                error := Some(applied.message);
              } else {
                peerConnection := Some(peerConnection.value.(remoteDescription := Some(answer)));
                error := None;
              }
          }
      }
    }

    method SendMessage(event: ClientEvent)
      modifies this
      ensures State() == SendSpec(old(State()), event)
    {
      if dataChannel.Some? && dataChannel.value.readyState == Open {
        ops := ops + [Send(event)];
      }
    }

    /** The data channel's ready state changes (its `open`, `close` and `error` events only log). */
    method DataChannelStateChanged(state: ReadyState)
      modifies this
      ensures dataChannel == if old(dataChannel).Some? then Some(old(dataChannel).value.(readyState := state)) else None
      ensures State() == old(State()).(channel := dataChannel)
    {
      if dataChannel.Some? {
        dataChannel := Some(dataChannel.value.(readyState := state));
      }
    }

    /**
     * The current peer connection reports a new connection state. With no peer
     * connection (after a stop) the handler's read of `this.peerConnection`
     * throws and no callback is made.
     */
    method ConnectionStateChanged(state: string) returns (calls: seq<UiCall>)
      modifies this
      ensures old(peerConnection).None? ==> calls == [] && State() == old(State())
      ensures old(peerConnection).Some? ==>
        calls == ConnectionStateCallbacks(state) &&
        State() == old(State()).(peer := Some(old(peerConnection).value.(connectionState := state)))
    {
      if peerConnection.None? {
        calls := [];
      } else {
        peerConnection := Some(peerConnection.value.(connectionState := state));
        calls := ConnectionStateCallbacks(state);
      }
    }

    method StopSession() returns (calls: seq<UiCall>)
      modifies this
      ensures (State(), calls) == StopSpec(old(State()))
    {
      if dataChannel.Some? {
        ops := ops + [CloseChannel];
        dataChannel := None;
      }
      if peerConnection.Some? {
        ops := ops + [ClosePeer];
        peerConnection := None;
      }
      if audioElement {
        ops := ops + [DetachAudio];
      }
      sessionId := None;
      ephemeralKey := None;
      currentConfig := None;
      currentTranscript := "";
      calls := [OnSessionDisconnected];
      assert ops == old(ops) + ((if old(dataChannel).Some? then [CloseChannel] else []) +
                                (if old(peerConnection).Some? then [ClosePeer] else []) +
                                (if audioElement then [DetachAudio] else []));
    }
  }
}
