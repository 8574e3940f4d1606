/**
 * The configuration record `DOMHandler.getCurrentConfiguration` builds from the
 * form (public/dom-handler.js:307-354). The form itself is a value: the text of
 * each input and the state of each checkbox at the moment a session starts.
 */
module Configuration {
  import opened Wrappers
  import opened JsBuiltins

  /** `parseFloat(text)`: floating point is not modelled, the value is carried as the text it came from. */
  datatype FloatText = ParseFloat(text: string)

  /** `max_response_output_tokens`: the sentinel 'inf', or `parseInt` of the field text. */
  datatype MaxTokens = Inf | Tokens(parsed: ParsedInt)

  datatype NoiseReduction = NoiseReduction(kind: string)

  /** `language` and `prompt` are `undefined` (None) when their field is empty. */
  datatype Transcription = Transcription(model: string, language: Option<string>, prompt: Option<string>)

  /** What the form's elements hold when the session starts. */
  datatype FormValues = FormValues(
    sessionUrl: string, apiKey: string, webrtcUrl: string,
    model: string, instructions: string, voice: string,
    inputAudioFormat: string, outputAudioFormat: string,
    temperature: string, maxTokens: string, modalities: string,
    turnDetectionType: string,
    noiseReductionEnabled: bool, noiseReductionType: string,
    transcriptionEnabled: bool, transcriptionModel: string,
    transcriptionLanguage: string, transcriptionPrompt: string,
    threshold: string, prefixPadding: string, silenceDuration: string,
    createResponse: bool, interruptResponse: bool,
    semanticEagerness: string, semanticCreateResponse: bool, semanticInterruptResponse: bool)

  /**
   * The configuration object. The turn-detection fields are properties that the
   * source adds only for some turn-detection types, so each is an Option: None is
   * a property the object does not have.
   */
  datatype Config = Config(
    sessionUrl: string, apiKey: string, webrtcUrl: string,
    model: string, instructions: string, voice: string,
    inputAudioFormat: string, outputAudioFormat: string,
    temperature: FloatText, maxTokens: MaxTokens, modalities: seq<string>,
    turnDetectionType: string,
    noiseReduction: Option<NoiseReduction>,
    transcription: Option<Transcription>,
    threshold: Option<FloatText>, prefixPaddingMs: Option<ParsedInt>, silenceDurationMs: Option<ParsedInt>,
    createResponse: Option<bool>, interruptResponse: Option<bool>,
    eagerness: Option<string>)

  const ServerVad := "server_vad"
  const SemanticVad := "semantic_vad"

  /** `text || undefined` for a string. */
  function NonEmpty(text: string): (r: Option<string>)
    ensures r.None? <==> text == ""
    ensures r.Some? ==> r.value == text
  {
    if text == "" then None else Some(text)
  }

  /** `getCurrentConfiguration()`. */
  function Capture(f: FormValues): Config {
    var base := Config(
      f.sessionUrl, f.apiKey, f.webrtcUrl, f.model, f.instructions, f.voice,
      f.inputAudioFormat, f.outputAudioFormat,
      ParseFloat(f.temperature),
      if f.maxTokens == "inf" then Inf else Tokens(ParseInt(f.maxTokens)),
      Split(f.modalities, ','),
      f.turnDetectionType,
      if f.noiseReductionEnabled then Some(NoiseReduction(f.noiseReductionType)) else None,
      if f.transcriptionEnabled
      then Some(Transcription(f.transcriptionModel, NonEmpty(f.transcriptionLanguage), NonEmpty(f.transcriptionPrompt)))
      else None,
      None, None, None, None, None, None);
    if f.turnDetectionType == ServerVad then
      base.(threshold := Some(ParseFloat(f.threshold)),
            prefixPaddingMs := Some(ParseInt(f.prefixPadding)),
            silenceDurationMs := Some(ParseInt(f.silenceDuration)),
            createResponse := Some(f.createResponse),
            interruptResponse := Some(f.interruptResponse))
    else if f.turnDetectionType == SemanticVad then
      base.(eagerness := Some(f.semanticEagerness),
            createResponse := Some(f.semanticCreateResponse),
            interruptResponse := Some(f.semanticInterruptResponse))
    else base
  }

  /** The server-VAD field group: threshold, prefix padding, silence duration and both response flags. */
  predicate HasServerVadGroup(c: Config) {
    c.threshold.Some? && c.prefixPaddingMs.Some? && c.silenceDurationMs.Some? &&
    c.createResponse.Some? && c.interruptResponse.Some?
  }

  /** None of the fields that only server VAD has. */
  predicate LacksServerVadOnlyFields(c: Config) {
    c.threshold.None? && c.prefixPaddingMs.None? && c.silenceDurationMs.None?
  }

  /**
   * The turn-detection invariant of a captured configuration: the fields present
   * are exactly the group of the selected type, and any other type has neither group.
   */
  predicate TurnFieldsMatchType(c: Config) {
    if c.turnDetectionType == ServerVad then
      HasServerVadGroup(c) && c.eagerness.None?
    else if c.turnDetectionType == SemanticVad then
      LacksServerVadOnlyFields(c) && c.eagerness.Some? && c.createResponse.Some? && c.interruptResponse.Some?
    else
      LacksServerVadOnlyFields(c) && c.eagerness.None? && c.createResponse.None? && c.interruptResponse.None?
  }

  /** Every configuration the form produces keeps the turn-detection invariant, with the form's own values. */
  lemma CaptureTurnFields(f: FormValues)
    ensures TurnFieldsMatchType(Capture(f))
    ensures Capture(f).turnDetectionType == f.turnDetectionType
    ensures f.turnDetectionType == ServerVad ==>
      Capture(f).threshold == Some(ParseFloat(f.threshold)) &&
      Capture(f).prefixPaddingMs == Some(ParseInt(f.prefixPadding)) &&
      Capture(f).silenceDurationMs == Some(ParseInt(f.silenceDuration)) &&
      Capture(f).createResponse == Some(f.createResponse) &&
      Capture(f).interruptResponse == Some(f.interruptResponse)
    ensures f.turnDetectionType == SemanticVad ==>
      Capture(f).eagerness == Some(f.semanticEagerness) &&
      Capture(f).createResponse == Some(f.semanticCreateResponse) &&
      Capture(f).interruptResponse == Some(f.semanticInterruptResponse)
  {
  }

  /** The fields every turn-detection type shares, as they are read from the form. */
  lemma CaptureCommonFields(f: FormValues)
    ensures Capture(f).maxTokens == (if f.maxTokens == "inf" then Inf else Tokens(ParseInt(f.maxTokens)))
    ensures Capture(f).modalities == Split(f.modalities, ',')
    ensures Capture(f).noiseReduction == (if f.noiseReductionEnabled then Some(NoiseReduction(f.noiseReductionType)) else None)
    ensures Capture(f).transcription ==
      (if f.transcriptionEnabled
       then Some(Transcription(f.transcriptionModel, NonEmpty(f.transcriptionLanguage), NonEmpty(f.transcriptionPrompt)))
       else None)
  {
    if f.turnDetectionType == ServerVad {
    } else if f.turnDetectionType == SemanticVad {
    }
  }

  /**
   * The plain fields are copied from the form as they are, the temperature is
   * `parseFloat` of its text, and the optional objects carry the form's noise
   * reduction type, transcription model, and non-empty language and prompt.
   */
  lemma CaptureCopiesFields(f: FormValues)
    ensures var c := Capture(f);
      c.sessionUrl == f.sessionUrl && c.apiKey == f.apiKey && c.webrtcUrl == f.webrtcUrl &&
      c.model == f.model && c.instructions == f.instructions && c.voice == f.voice &&
      c.inputAudioFormat == f.inputAudioFormat && c.outputAudioFormat == f.outputAudioFormat &&
      c.temperature == ParseFloat(f.temperature)
    ensures Capture(f).noiseReduction.Some? ==> Capture(f).noiseReduction.value.kind == f.noiseReductionType
    ensures Capture(f).transcription.Some? ==>
      var t := Capture(f).transcription.value;
      t.model == f.transcriptionModel &&
      (f.transcriptionLanguage != "" ==> t.language == Some(f.transcriptionLanguage)) &&
      (f.transcriptionPrompt != "" ==> t.prompt == Some(f.transcriptionPrompt))
  {
    CaptureCommonFields(f);
    if f.turnDetectionType == ServerVad {
    } else if f.turnDetectionType == SemanticVad {
    }
  }

  /**
   * The shared fields do not depend on the turn-detection type: capturing the same
   * form with only the type changed gives the same tokens, modalities, noise
   * reduction and transcription.
   */
  lemma CommonFieldsIgnoreTurnType(f: FormValues, t: string)
    ensures Capture(f.(turnDetectionType := t)).maxTokens == Capture(f).maxTokens
    ensures Capture(f.(turnDetectionType := t)).modalities == Capture(f).modalities
    ensures Capture(f.(turnDetectionType := t)).noiseReduction == Capture(f).noiseReduction
    ensures Capture(f.(turnDetectionType := t)).transcription == Capture(f).transcription
  {
    CaptureCommonFields(f);
    CaptureCommonFields(f.(turnDetectionType := t));
  }

  /**
   * The remaining fields: 'inf' is kept as the sentinel exactly when the text is 'inf';
   * the modalities are the comma-separated pieces of the text (joining them gives the
   * text back); the optional objects are null exactly when their checkbox is off, and
   * an empty language or prompt is left undefined.
   */
  lemma CaptureOtherFields(f: FormValues)
    ensures Capture(f).maxTokens == Inf <==> f.maxTokens == "inf"
    ensures f.maxTokens != "inf" ==> Capture(f).maxTokens == Tokens(ParseInt(f.maxTokens))
    ensures Join(Capture(f).modalities, ',') == f.modalities
    ensures forall i :: 0 <= i < |Capture(f).modalities| ==> ',' !in Capture(f).modalities[i]
    ensures Capture(f).noiseReduction.Some? <==> f.noiseReductionEnabled
    ensures Capture(f).transcription.Some? <==> f.transcriptionEnabled
    ensures Capture(f).transcription.Some? ==>
      (Capture(f).transcription.value.language.None? <==> f.transcriptionLanguage == "") &&
      (Capture(f).transcription.value.prompt.None? <==> f.transcriptionPrompt == "")
  {
    CaptureCommonFields(f);
    JoinSplit(f.modalities, ',');
    SplitPieces(f.modalities, ',');
  }

  /** A numeric field holding the text of a non-negative integer is captured as that integer. */
  lemma CaptureMaxTokensNumber(f: FormValues, n: nat)
    requires f.maxTokens == DecimalString(n)
    ensures Capture(f).maxTokens == Tokens(Int(n))
  {
    CaptureCommonFields(f);
    ParseIntOfDecimalString(n);
    assert f.maxTokens != "inf";
  }
}
