/**
 * The session-creation request body that `WebSocketHandler.getEphemeralKey`
 * builds from the configuration (public/websocket-handler.js:46-88), and the set
 * of JSON keys `JSON.stringify` writes for it.
 */
module SessionPayload {
  import opened Wrappers
  import opened JsBuiltins
  import opened Configuration

  /**
   * The `turn_detection` object. Its properties are copied from the configuration,
   * so a property the configuration lacks is `undefined` here (None) and is left
   * out of the JSON text.
   */
  datatype TurnDetection =
    | ServerVadObject(threshold: Option<FloatText>, prefixPaddingMs: Option<ParsedInt>,
                      silenceDurationMs: Option<ParsedInt>,
                      createResponse: Option<bool>, interruptResponse: Option<bool>)
    | SemanticVadObject(eagerness: Option<string>,
                        createResponse: Option<bool>, interruptResponse: Option<bool>)

  datatype Payload = Payload(
    model: string, voice: string, instructions: string,
    inputAudioFormat: string, outputAudioFormat: string,
    temperature: FloatText, maxTokens: MaxTokens, modalities: seq<string>,
    turnDetection: Option<TurnDetection>,
    noiseReduction: Option<NoiseReduction>,
    transcription: Option<Transcription>)

  /** The payload built for a configuration. */
  function BuildPayload(c: Config): Payload {
    var turn :=
      if c.turnDetectionType != "" && c.turnDetectionType != "none" then
        if c.turnDetectionType == ServerVad then
          Some(ServerVadObject(c.threshold, c.prefixPaddingMs, c.silenceDurationMs,
                               c.createResponse, c.interruptResponse))
        else if c.turnDetectionType == SemanticVad then
          Some(SemanticVadObject(c.eagerness, c.createResponse, c.interruptResponse))
        else None
      else None;
    Payload(c.model, c.voice, c.instructions, c.inputAudioFormat, c.outputAudioFormat,
            c.temperature, c.maxTokens, c.modalities, turn,
            c.noiseReduction, c.transcription)
  }

  /** The keys `JSON.stringify` writes for an optional property: none for `undefined`. */
  function KeyIf<T>(name: string, v: Option<T>): set<string> {
    if v.Some? then {name} else {}
  }

  const BaseKeys: set<string> := {
    "model", "voice", "instructions", "input_audio_format", "output_audio_format",
    "temperature", "max_response_output_tokens", "modalities"}

  const ServerVadKeys: set<string> := {
    "type", "threshold", "prefix_padding_ms", "silence_duration_ms", "create_response", "interrupt_response"}

  const SemanticVadKeys: set<string> := {"type", "eagerness", "create_response", "interrupt_response"}

  function TurnDetectionKeys(t: TurnDetection): set<string> {
    match t
    case ServerVadObject(th, pp, sd, cr, ir) =>
      {"type"} + KeyIf("threshold", th) + KeyIf("prefix_padding_ms", pp) +
      KeyIf("silence_duration_ms", sd) + KeyIf("create_response", cr) + KeyIf("interrupt_response", ir)
    case SemanticVadObject(e, cr, ir) =>
      {"type"} + KeyIf("eagerness", e) + KeyIf("create_response", cr) + KeyIf("interrupt_response", ir)
  }

  /** The `type` property of the turn-detection object. */
  function TurnDetectionType(t: TurnDetection): string {
    if t.ServerVadObject? then ServerVad else SemanticVad
  }

  /** The top-level keys of the JSON request body. */
  function PayloadKeys(p: Payload): set<string> {
    BaseKeys + KeyIf("turn_detection", p.turnDetection) +
    KeyIf("input_audio_noise_reduction", p.noiseReduction) +
    KeyIf("input_audio_transcription", p.transcription)
  }

  /**
   * For every configuration: the eight base fields are copied unchanged and always
   * written; noise reduction and transcription are written exactly when the
   * configuration has them (a non-null object is truthy), unchanged; a
   * turn-detection object is written exactly for the types server_vad and
   * semantic_vad, tagged with that type and holding the configuration's values.
   */
  lemma PayloadFields(c: Config)
    ensures var p := BuildPayload(c);
      p.model == c.model && p.voice == c.voice && p.instructions == c.instructions &&
      p.inputAudioFormat == c.inputAudioFormat && p.outputAudioFormat == c.outputAudioFormat &&
      p.temperature == c.temperature && p.maxTokens == c.maxTokens && p.modalities == c.modalities
    ensures BaseKeys <= PayloadKeys(BuildPayload(c))
    ensures "input_audio_noise_reduction" in PayloadKeys(BuildPayload(c)) <==> c.noiseReduction.Some?
    ensures "input_audio_transcription" in PayloadKeys(BuildPayload(c)) <==> c.transcription.Some?
    ensures BuildPayload(c).noiseReduction == c.noiseReduction
    ensures BuildPayload(c).transcription == c.transcription
    ensures "turn_detection" in PayloadKeys(BuildPayload(c)) <==>
      c.turnDetectionType == ServerVad || c.turnDetectionType == SemanticVad
    ensures BuildPayload(c).turnDetection.Some? ==>
      TurnDetectionType(BuildPayload(c).turnDetection.value) == c.turnDetectionType
    ensures c.turnDetectionType == ServerVad ==>
      BuildPayload(c).turnDetection.Some? &&
      var t := BuildPayload(c).turnDetection.value;
      t.ServerVadObject? && t.threshold == c.threshold && t.prefixPaddingMs == c.prefixPaddingMs &&
      t.silenceDurationMs == c.silenceDurationMs &&
      t.createResponse == c.createResponse && t.interruptResponse == c.interruptResponse
    ensures c.turnDetectionType == SemanticVad ==>
      BuildPayload(c).turnDetection.Some? &&
      var t := BuildPayload(c).turnDetection.value;
      t.SemanticVadObject? && t.eagerness == c.eagerness &&
      t.createResponse == c.createResponse && t.interruptResponse == c.interruptResponse
  {
  }

  /**
   * For a configuration that keeps the turn-detection invariant, the
   * turn-detection object has exactly the keys of its variant.
   */
  lemma {:induction false} WellFormedTurnDetectionKeys(c: Config)
    requires TurnFieldsMatchType(c)
    ensures var p := BuildPayload(c);
      (c.turnDetectionType == ServerVad ==>
         p.turnDetection.Some? && TurnDetectionKeys(p.turnDetection.value) == ServerVadKeys) &&
      (c.turnDetectionType == SemanticVad ==>
         p.turnDetection.Some? && TurnDetectionKeys(p.turnDetection.value) == SemanticVadKeys) &&
      (c.turnDetectionType != ServerVad && c.turnDetectionType != SemanticVad ==> p.turnDetection.None?)
  {
    var p := BuildPayload(c);
    if c.turnDetectionType == ServerVad {
      var t := ServerVadObject(c.threshold, c.prefixPaddingMs, c.silenceDurationMs,
                               c.createResponse, c.interruptResponse);
      assert p.turnDetection == Some(t);
      assert KeyIf("threshold", t.threshold) == {"threshold"};
      assert KeyIf("prefix_padding_ms", t.prefixPaddingMs) == {"prefix_padding_ms"};
      assert KeyIf("silence_duration_ms", t.silenceDurationMs) == {"silence_duration_ms"};
      assert KeyIf("create_response", t.createResponse) == {"create_response"};
      assert KeyIf("interrupt_response", t.interruptResponse) == {"interrupt_response"};
    } else if c.turnDetectionType == SemanticVad {
      var t := SemanticVadObject(c.eagerness, c.createResponse, c.interruptResponse);
      assert p.turnDetection == Some(t);
      assert KeyIf("eagerness", t.eagerness) == {"eagerness"};
      assert KeyIf("create_response", t.createResponse) == {"create_response"};
      assert KeyIf("interrupt_response", t.interruptResponse) == {"interrupt_response"};
    }
  }

  /**
   * For a configuration captured from the form: server_vad gives a turn-detection
   * object with the six server-VAD keys and no eagerness, semantic_vad one with the
   * four semantic keys and none of the server-VAD fields, any other type none at all.
   */
  lemma CapturedTurnDetectionKeys(f: FormValues)
    ensures var p := BuildPayload(Capture(f));
      (f.turnDetectionType == ServerVad ==>
         p.turnDetection.Some? && TurnDetectionKeys(p.turnDetection.value) == ServerVadKeys) &&
      (f.turnDetectionType == SemanticVad ==>
         p.turnDetection.Some? && TurnDetectionKeys(p.turnDetection.value) == SemanticVadKeys) &&
      (f.turnDetectionType != ServerVad && f.turnDetectionType != SemanticVad ==> p.turnDetection.None?)
  {
    CaptureTurnFields(f);
    WellFormedTurnDetectionKeys(Capture(f));
  }

  /**
   * From the form to the request body: the turn-detection object of a server_vad
   * form holds the parsed threshold, padding and silence fields and the two
   * server-VAD checkboxes; that of a semantic_vad form holds the eagerness and the
   * two semantic checkboxes.
   */
  lemma CapturedTurnDetectionValues(f: FormValues)
    ensures f.turnDetectionType == ServerVad ==>
      BuildPayload(Capture(f)).turnDetection.Some? &&
      var t := BuildPayload(Capture(f)).turnDetection.value;
      t.ServerVadObject? &&
      t.threshold == Some(ParseFloat(f.threshold)) &&
      t.prefixPaddingMs == Some(ParseInt(f.prefixPadding)) &&
      t.silenceDurationMs == Some(ParseInt(f.silenceDuration)) &&
      t.createResponse == Some(f.createResponse) && t.interruptResponse == Some(f.interruptResponse)
    ensures f.turnDetectionType == SemanticVad ==>
      BuildPayload(Capture(f)).turnDetection.Some? &&
      var t := BuildPayload(Capture(f)).turnDetection.value;
      t.SemanticVadObject? && t.eagerness == Some(f.semanticEagerness) &&
      t.createResponse == Some(f.semanticCreateResponse) && t.interruptResponse == Some(f.semanticInterruptResponse)
  {
    CaptureTurnFields(f);
    PayloadFields(Capture(f));
  }

  /** The complete key set of the request body built from a form. */
  lemma CapturedPayloadKeys(f: FormValues)
    ensures PayloadKeys(BuildPayload(Capture(f))) ==
      BaseKeys +
      (if f.turnDetectionType == ServerVad || f.turnDetectionType == SemanticVad then {"turn_detection"} else {}) +
      (if f.noiseReductionEnabled then {"input_audio_noise_reduction"} else {}) +
      (if f.transcriptionEnabled then {"input_audio_transcription"} else {})
  {
    CaptureTurnFields(f);
    CaptureOtherFields(f);
    PayloadFields(Capture(f));
  }
}
