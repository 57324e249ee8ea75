/**
 * The analysis invoker: one request to the inference service per technique
 * and image. The service call and `JSON.parse` are opaque and arrive as
 * functions in a `Runtime`; clock readings arrive as parameters.
 */
module GeminiService {
  import opened Wrappers
  import opened Js
  import opened Types
  import Constants

  const ApiKeyMissing := "API Key is missing."
  const NoDataReturned := "No data returned from Gemini"

  /** The MIME type declared for every image, whatever its data URI says. */
  const ImageMimeType := "image/png"
  const UserPrompt := "Analyze this food image according to your system instructions."
  const ResponseMimeType := "application/json"
  const Temperature: real := 0.4

  // ---------------------------------------------------------------------------
  // The response schema sent with every request (never checked locally)
  // ---------------------------------------------------------------------------

  datatype SchemaNode =
    | ObjectSchema(properties: seq<Property>, required: seq<string>)
    | StringSchema(description: string)
    | NumberSchema(description: string)

  datatype Property = Property(name: string, schema: SchemaNode)

  const MacrosSchema := ObjectSchema(
    [ Property(CaloriesKey, NumberSchema("Total calories.")),
      Property(ProteinKey, NumberSchema("Protein in grams.")),
      Property(CarbsKey, NumberSchema("Carbohydrates in grams.")),
      Property(FatKey, NumberSchema("Total fat in grams.")) ],
    [CaloriesKey, ProteinKey, CarbsKey, FatKey])

  /** `analysisSchema`. */
  const AnalysisSchema := ObjectSchema(
    [ Property("foodName", StringSchema("The identified name of the main food item.")),
      Property("portionEstimate", StringSchema("Estimated portion size (e.g., '1 cup', '200g').")),
      Property(MacrosKey, MacrosSchema),
      Property(ConfidenceKey, NumberSchema("Confidence score from 0 to 100.")),
      Property("reasoning", StringSchema("Brief explanation of how the estimate was derived.")) ],
    ["foodName", "portionEstimate", MacrosKey, ConfidenceKey, "reasoning"])

  function PropertyNames(ps: seq<Property>): (names: seq<string>)
    ensures |names| == |ps| && forall i :: 0 <= i < |ps| ==> names[i] == ps[i].name
  {
    seq(|ps|, i requires 0 <= i < |ps| => ps[i].name)
  }

  /** Both object levels of the schema require every property they declare, in declaration order. */
  lemma SchemaRequiresEveryProperty()
    ensures AnalysisSchema.required == PropertyNames(AnalysisSchema.properties)
    ensures AnalysisSchema.properties[2].schema == MacrosSchema
    ensures MacrosSchema.required == PropertyNames(MacrosSchema.properties)
    ensures forall i :: 0 <= i < |MacrosSchema.properties| ==> MacrosSchema.properties[i].schema.NumberSchema?
  {
  }

  // ---------------------------------------------------------------------------
  // Per-technique system instruction
  // ---------------------------------------------------------------------------

  const RapidScanInstruction :=
    "\n        You are a fast food-scanning AI. \n"
    + "        Identify the food in the image immediately and provide a standard nutritional estimate based on common serving sizes.\n"
    + "        Do not overthink ingredients. Focus on the most likely standard dish.\n"
    + "        Return raw estimates.\n      "

  const DeepAnalysisInstruction :=
    "\n        You are an advanced nutritional researcher.\n"
    + "        Perform a deep breakdown of the image. Analyze:\n"
    + "        1. Visible ingredients and their ratios.\n"
    + "        2. Cooking methods (fried, grilled, steamed) and their impact on oil content.\n"
    + "        3. Density and volume estimation relative to standard plate sizes.\n"
    + "        Use a Chain-of-Thought process before outputting the final JSON. \n"
    + "        Be precise and account for hidden fats or sugars.\n      "

  const HealthOptimizedInstruction :=
    "\n        You are a strict clinical dietitian.\n"
    + "        Analyze this food for a patient with dietary restrictions. \n"
    + "        Tend to overestimate calories and fats slightly to be safe (conservative estimate).\n"
    + "        Focus on the nutritional quality.\n"
    + "        Be critical about portion sizes.\n      "

  /** The system instruction chosen for a technique. */
  function Instruction(t: Technique): string
  {
    match t
    case RapidScan => RapidScanInstruction
    case DeepAnalysis => DeepAnalysisInstruction
    case HealthOptimized => HealthOptimizedInstruction
  }

  /** The choice is exhaustive and no two techniques share an instruction. */
  lemma InstructionsDistinct()
    ensures forall t: Technique :: Instruction(t) != ""
    ensures forall t: Technique, u: Technique :: t != u ==> Instruction(t) != Instruction(u)
  {
  }

  // ---------------------------------------------------------------------------
  // Image payload: `base64Image.split(',')[1]`
  // ---------------------------------------------------------------------------

  /** `parts.join(sep)`. */
  function Join(parts: seq<string>, sep: char): string
    requires |parts| >= 1
  {
    if |parts| == 1 then parts[0] else parts[0] + [sep] + Join(parts[1..], sep)
  }

  /** `s.split(sep)`: the separator-free pieces that `Join` reassembles into `s`. */
  function Split(s: string, sep: char): (parts: seq<string>)
    ensures |parts| >= 1
    ensures forall i :: 0 <= i < |parts| ==> sep !in parts[i]
    ensures Join(parts, sep) == s
  {
    if s == [] then [[]]
    else
      var rest := Split(s[1..], sep);
      if s[0] == sep then
        [[]] + rest
      else
        assert s == [s[0]] + s[1..];
        [[s[0]] + rest[0]] + rest[1..]
  }

  /** A piece without the separator splits to itself. */
  lemma {:induction false} SplitSeparatorFree(x: string, sep: char)
    requires sep !in x
    ensures Split(x, sep) == [x]
  {
    if x != [] {
      SplitSeparatorFree(x[1..], sep);
    }
  }

  /** Splitting stops at the first separator. */
  lemma {:induction false} SplitFirst(x: string, sep: char, s: string)
    requires sep !in x
    ensures Split(x + [sep] + s, sep) == [x] + Split(s, sep)
  {
    if x == [] {
      assert x + [sep] + s == [sep] + s;
    } else {
      var whole := x + [sep] + s;
      assert whole[0] == x[0] != sep;
      assert whole[1..] == x[1..] + [sep] + s;
      SplitFirst(x[1..], sep, s);
      assert [x[0]] + x[1..] == x;
    }
  }

  /** Splitting undoes joining separator-free pieces. */
  lemma {:induction false} SplitJoin(parts: seq<string>, sep: char)
    requires |parts| >= 1
    requires forall i :: 0 <= i < |parts| ==> sep !in parts[i]
    ensures Split(Join(parts, sep), sep) == parts
  {
    if |parts| == 1 {
      SplitSeparatorFree(parts[0], sep);
    } else {
      SplitJoin(parts[1..], sep);
      SplitFirst(parts[0], sep, Join(parts[1..], sep));
    }
  }

  /** The data sent for an image: the second comma-separated piece, `undefined` when there is none. */
  function ImageData(base64Image: string): Option<string>
  {
    var parts := Split(base64Image, ',');
    if |parts| > 1 then Some(parts[1]) else None
  }

  /** The data sent is `undefined` exactly when the image string has no comma. */
  lemma ImageDataAbsent(base64Image: string)
    ensures ImageData(base64Image).None? <==> ',' !in base64Image
  {
  }

  /** For `data:<mime>;base64,<payload>` with comma-free parts, exactly the payload is sent. */
  lemma DataUriPayload(mime: string, payload: string)
    requires ',' !in mime && ',' !in payload
    ensures ImageData("data:" + mime + ";base64," + payload) == Some(payload)
  {
    var header := "data:" + mime + ";base64";
    assert "data:" + mime + ";base64," + payload == Join([header, payload], ',');
    SplitJoin([header, payload], ',');
  }

  // ---------------------------------------------------------------------------
  // The request, the clock and the result
  // ---------------------------------------------------------------------------

  /** The arguments of `ai.models.generateContent`. */
  datatype GenerateRequest = GenerateRequest(
    model: string,
    mimeType: string,
    data: Option<string>,
    prompt: string,
    systemInstruction: string,
    responseMimeType: string,
    responseSchema: SchemaNode,
    temperature: real)

  /** What the service answers; `text` may be `undefined`. */
  datatype GenerateResponse = GenerateResponse(text: Option<string>)

  /** What the invoker cannot see: the configured key, the service call and `JSON.parse`. */
  datatype Runtime = Runtime(
    apiKey: string,
    generate: GenerateRequest -> Result<GenerateResponse, Error>,
    parse: string -> Result<JsValue, Error>)

  /** The request built for an image and a technique. */
  function BuildRequest(base64Image: string, technique: Technique): GenerateRequest
  {
    GenerateRequest(Constants.GeminiModel, ImageMimeType, ImageData(base64Image), UserPrompt,
                    Instruction(technique), ResponseMimeType, AnalysisSchema, Temperature)
  }

  /** The request names the catalog's model, the declared MIME type and the technique's own instruction. */
  lemma RequestShape(base64Image: string, technique: Technique)
    ensures BuildRequest(base64Image, technique).mimeType == "image/png"
    ensures BuildRequest(base64Image, technique).model == Constants.Config(technique).model
    ensures BuildRequest(base64Image, technique).systemInstruction == Instruction(technique)
    ensures BuildRequest(base64Image, technique).data == ImageData(base64Image)
  {
    Constants.SameModel();
  }

  /** `Math.round`: the nearest integer, halves rounded up. */
  function Round(x: real): (r: int)
    ensures x - 0.5 < r as real <= x + 0.5
  {
    (x + 0.5).Floor
  }

  /** The measured duration is never negative when the clock did not go backwards. */
  lemma DurationNonNegative(startTime: real, endTime: real)
    requires startTime <= endTime
    ensures Round(endTime - startTime) >= 0
  {
  }

  /** `{...parsed, processingTimeMs}`: the parsed value's own properties with the measured duration written last. */
  function Assemble(parsed: JsValue, processingTimeMs: int): (data: AnalysisData)
    ensures ProcessingTimeKey in data && data[ProcessingTimeKey] == Num(processingTimeMs as real)
    ensures forall k :: k in Spread(parsed) && k != ProcessingTimeKey ==> k in data && data[k] == Spread(parsed)[k]
    ensures forall k :: k in data && k != ProcessingTimeKey ==> k in Spread(parsed)
  {
    Spread(parsed)[ProcessingTimeKey := Num(processingTimeMs as real)]
  }

  /** What one invocation returns or throws. */
  function Invoke(rt: Runtime, base64Image: string, technique: Technique, startTime: real, endTime: real): Result<AnalysisData, Error>
  {
    if rt.apiKey == "" then Failure(Error(ApiKeyMissing))
    else
      match rt.generate(BuildRequest(base64Image, technique))
      case Failure(e) => Failure(e)
      case Success(response) =>
        if response.text == None || response.text == Some("") then Failure(Error(NoDataReturned))
        else
          match rt.parse(response.text.value)
          case Failure(e) => Failure(e)
          case Success(parsed) => Success(Assemble(parsed, Round(endTime - startTime)))
  }

  /**
   * An invocation succeeds exactly when a key is configured, the service
   * answers with non-empty text and that text parses; the data is then the
   * parsed value with the locally measured duration. Otherwise it fails with
   * the missing-key error, the empty-response error, or the service's or the
   * parser's own error, unchanged.
   */
  lemma InvokeOutcomes(rt: Runtime, base64Image: string, technique: Technique, startTime: real, endTime: real)
    ensures rt.apiKey == "" ==> Invoke(rt, base64Image, technique, startTime, endTime) == Failure(Error(ApiKeyMissing))
    ensures rt.apiKey != "" && rt.generate(BuildRequest(base64Image, technique)).Failure? ==>
      Invoke(rt, base64Image, technique, startTime, endTime) == Failure(rt.generate(BuildRequest(base64Image, technique)).error)
    ensures rt.apiKey != "" && rt.generate(BuildRequest(base64Image, technique)).Success? ==>
      var text := rt.generate(BuildRequest(base64Image, technique)).value.text;
      && (text.None? || text == Some("") ==> Invoke(rt, base64Image, technique, startTime, endTime) == Failure(Error(NoDataReturned)))
      && (text.Some? && text != Some("") && rt.parse(text.value).Failure? ==>
            Invoke(rt, base64Image, technique, startTime, endTime) == Failure(rt.parse(text.value).error))
      && (text.Some? && text != Some("") && rt.parse(text.value).Success? ==>
            Invoke(rt, base64Image, technique, startTime, endTime) == Success(Assemble(rt.parse(text.value).value, Round(endTime - startTime))))
  {
  }

  /** Whatever duration the response reports is replaced by the measured one. */
  lemma MeasuredDurationWins(rt: Runtime, base64Image: string, technique: Technique, startTime: real, endTime: real)
    requires Invoke(rt, base64Image, technique, startTime, endTime).Success?
    ensures var data := Invoke(rt, base64Image, technique, startTime, endTime).value;
      ProcessingTimeKey in data && data[ProcessingTimeKey] == Num(Round(endTime - startTime) as real)
    ensures startTime <= endTime ==> Round(endTime - startTime) >= 0
  {
  }

  /**
   * `analyzeImageWithGemini`. Besides the outcome it returns the request it
   * sent, if any, so that the contract can say when no request is built.
   */
  method AnalyzeImage(rt: Runtime, base64Image: string, technique: Technique, startTime: real, endTime: real)
    returns (outcome: Result<AnalysisData, Error>, sent: Option<GenerateRequest>)
    ensures outcome == Invoke(rt, base64Image, technique, startTime, endTime)
    ensures sent.None? <==> rt.apiKey == ""
    ensures rt.apiKey == "" ==> outcome == Failure(Error(ApiKeyMissing))
    ensures sent.Some? ==> sent.value == BuildRequest(base64Image, technique)
    ensures sent.Some? ==> sent.value.systemInstruction == Instruction(technique)
    ensures sent.Some? ==> sent.value.mimeType == ImageMimeType && sent.value.data == ImageData(base64Image)
  {
    if rt.apiKey == "" {
      return Failure(Error(ApiKeyMissing)), None;
    }

    var systemInstruction := "";
    match technique {
      case RapidScan =>
        systemInstruction := RapidScanInstruction;
      case DeepAnalysis =>
        systemInstruction := DeepAnalysisInstruction;
      case HealthOptimized =>
        systemInstruction := HealthOptimizedInstruction;
    }

    var request := GenerateRequest(Constants.GeminiModel, ImageMimeType, ImageData(base64Image), UserPrompt,
                                   systemInstruction, ResponseMimeType, AnalysisSchema, Temperature);
    sent := Some(request);
    var response := rt.generate(request);
    if response.Failure? {
      // Errors from the service are rethrown unchanged; there is no retry.
      return Failure(response.error), sent;
    }

    var processingTimeMs := Round(endTime - startTime);
    var jsonText := response.value.text;
    if jsonText.None? || jsonText.value == "" {
      return Failure(Error(NoDataReturned)), sent;
    }

    var parsed := rt.parse(jsonText.value);
    if parsed.Failure? {
      return Failure(parsed.error), sent;
    }
    outcome := Success(Assemble(parsed.value, processingTimeMs));
  }
}
