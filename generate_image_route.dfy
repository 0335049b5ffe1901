/**
 * `POST /api/generate-image`: an ordered ladder of checks, the choice of prompt and
 * product id by input mode, one call of the polling client with a fixed polling
 * configuration, and the JSON envelope of the answer.
 */
module GenerateImageRoute {
  import opened Base
  import opened Types
  import opened QwenImagePrompts
  import opened QwenImageClient

  /** The parsed request body. */
  datatype ImageRequest = ImageRequest(options: Option<ImageGenerationOptions>, product: Option<Product>)

  /** The answer: a bare `{error}` with a status, `{success:false, error}` (500), or `{success:true, result}` (200). */
  datatype ImageRouteResponse =
    | JsonError(status: int, error: string)
    | FailureEnvelope(error: string)
    | SuccessEnvelope(result: GeneratedImage)
  {
    function Status(): int
    {
      match this
      case JsonError(s, _) => s
      case FailureEnvelope(_) => 500
      case SuccessEnvelope(_) => 200
    }
  }

  /** The route always polls 24 times at 5000 ms, two minutes in all. */
  const ROUTE_POLLING := PollingOptions(Some(24), Some(5000), true)

  /** The route's `maxDuration`, in milliseconds. */
  const MAX_DURATION_MS := 120000

  /**
   * The prompt and product id chosen by input mode, or the early answer: product mode needs
   * a product and a known style, manual mode a prompt that passes validation.
   */
  function ChoosePrompt(options: ImageGenerationOptions, product: Option<Product>)
    : (r: Result<(string, Option<string>), ImageRouteResponse>)
    ensures options.inputMode == "product" && product.None? ==>
              r == Err(JsonError(400, "Product data required for product mode"))
    ensures options.inputMode == "product" && product.Some? && FindImageStyle(options.styleId).None? ==>
              r == Err(FailureEnvelope("Invalid style ID: " + options.styleId))
    ensures options.inputMode != "product" && !Present(options.manualPrompt) ==>
              r == Err(JsonError(400, "Manual prompt required for manual mode"))
    ensures options.inputMode != "product" && Present(options.manualPrompt)
            && !ValidateManualPrompt(options.manualPrompt.value).valid ==>
              r == Err(JsonError(400, ValidateManualPrompt(options.manualPrompt.value).error.value))
    ensures r.Ok? && options.inputMode == "product" ==>
              product.Some? && r.value.1 == Some(product.value.id) && BuildImagePrompt(product.value, options.styleId) == Ok(r.value.0)
    ensures r.Ok? && options.inputMode != "product" ==>
              options.manualPrompt.Some? && r.value == (options.manualPrompt.value, None)
              && ValidateManualPrompt(options.manualPrompt.value).valid
  {
    if options.inputMode == "product" then
      if product.None? then Err(JsonError(400, "Product data required for product mode"))
      else match BuildImagePrompt(product.value, options.styleId)
        case Err(message) => Err(FailureEnvelope(message))
        case Ok(prompt) => Ok((prompt, Some(product.value.id)))
    else if !Present(options.manualPrompt) then Err(JsonError(400, "Manual prompt required for manual mode"))
    else
      var validation := ValidateManualPrompt(options.manualPrompt.value);
      if !validation.valid then Err(JsonError(400, validation.error.value))
      else Ok((options.manualPrompt.value, None))
  }

  /**
   * A prompt is chosen exactly when the mode's conditions hold: in product mode a product
   * and a style the table knows, otherwise a non-empty manual prompt whose trimmed length
   * is between 10 and 1000.
   */
  lemma ChoosePromptOk(options: ImageGenerationOptions, product: Option<Product>)
    ensures ChoosePrompt(options, product).Ok? <==>
              if options.inputMode == "product" then product.Some? && FindImageStyle(options.styleId).Some?
              else Present(options.manualPrompt) && 10 <= |Trim(options.manualPrompt.value)| <= 1000
  {
  }

  /** The body passed the route's first check: it has options with a non-empty style id. */
  predicate StyleGiven(body: Result<ImageRequest, Thrown>)
  {
    body.Ok? && body.value.options.Some? && body.value.options.value.styleId != ""
  }

  /**
   * `POST(request)` with the environment key, the parsed body (or what parsing threw),
   * the upstream responses and the clock; the answer and the polling client's effects.
   */
  function Post(apiKey: Option<string>, body: Result<ImageRequest, Thrown>,
                create: CreateResponse, statusAt: nat -> StatusResponse, now: int)
    : (r: (ImageRouteResponse, seq<Effect>))
    ensures !Present(apiKey) ==> r == (JsonError(500, "QWEN_API_KEY is not configured"), [])
    ensures Present(apiKey) && body.Err? ==>
              r == (FailureEnvelope(MessageOr(body.error, "Image generation failed")), [])
    ensures Present(apiKey) && body.Ok? && !StyleGiven(body) ==> r == (JsonError(400, "Style ID is required"), [])
    ensures Present(apiKey) && StyleGiven(body) && ChoosePrompt(body.value.options.value, body.value.product).Err? ==>
              r == (ChoosePrompt(body.value.options.value, body.value.product).error, [])
    ensures r.0.Status() == 400 ==> r.1 == []
    ensures r.1 != [] ==> StyleGiven(body) && ChoosePrompt(body.value.options.value, body.value.product).Ok?
    ensures Present(apiKey) && StyleGiven(body) && ChoosePrompt(body.value.options.value, body.value.product).Ok? ==>
              var generated := Generation(apiKey, ChoosePrompt(body.value.options.value, body.value.product).value.0,
                                          ROUTE_POLLING, create, statusAt);
              r.1 == generated.1 && r.1 != [] && r.0.Status() != 400
              && (r.0.SuccessEnvelope? <==> generated.0.Ok?)
    ensures r.0.SuccessEnvelope? ==> StyleGiven(body) && ChoosePrompt(body.value.options.value, body.value.product).Ok?
    ensures r.0.SuccessEnvelope? ==>
              var options := body.value.options.value;
              var chosen := ChoosePrompt(options, body.value.product).value;
              var generated := Generation(apiKey, chosen.0, ROUTE_POLLING, create, statusAt);
              generated.0 == Ok(r.0.result.imageUrl) && generated.1 == r.1
              && r.0.result.status == ImageCompleted && r.0.result.styleId == options.styleId
              && r.0.result.prompt == chosen.0 && r.0.result.productId == chosen.1
  {
    if !Present(apiKey) then (JsonError(500, "QWEN_API_KEY is not configured"), [])
    else match body
      case Err(thrown) => (FailureEnvelope(MessageOr(thrown, "Image generation failed")), [])
      case Ok(request) =>
        if request.options.None? || request.options.value.styleId == "" then
          (JsonError(400, "Style ID is required"), [])
        else
          var options := request.options.value;
          match ChoosePrompt(options, request.product)
          case Err(early) => (early, [])
          case Ok((prompt, productId)) =>
            var (outcome, effects) := Generation(apiKey, prompt, ROUTE_POLLING, create, statusAt);
            match outcome
            case Err(e) => (FailureEnvelope(e.Message()), effects)
            case Ok(imageUrl) =>
              (SuccessEnvelope(GeneratedImage("img-" + IntToString(now), productId, options.styleId, prompt,
                                              imageUrl, ImageCompleted, now)), effects)
  }

  /** An accepted manual prompt is sent upstream as typed, untrimmed, and the result has no product id. */
  lemma ManualPromptVerbatim(apiKey: Option<string>, options: ImageGenerationOptions, product: Option<Product>,
                             create: CreateResponse, statusAt: nat -> StatusResponse, now: int)
    requires Present(apiKey) && options.styleId != "" && options.inputMode != "product"
    requires Present(options.manualPrompt) && ValidateManualPrompt(options.manualPrompt.value).valid
    ensures var r := Post(apiKey, Ok(ImageRequest(Some(options), product)), create, statusAt, now);
            r.1[0] == CreateTask(options.manualPrompt.value)
            && (r.0.SuccessEnvelope? ==> r.0.result.prompt == options.manualPrompt.value && r.0.result.productId.None?)
  {
    CreateFirst(apiKey, options.manualPrompt.value, ROUTE_POLLING, create, statusAt);
  }

  /**
   * In manual mode the style id is not checked against the style table: any non-empty
   * id reaches the upstream service and is echoed in the result.
   */
  lemma ManualModeSkipsStyleTable(apiKey: Option<string>, options: ImageGenerationOptions,
                                  create: CreateResponse, statusAt: nat -> StatusResponse, now: int)
    requires Present(apiKey) && options.styleId != "" && FindImageStyle(options.styleId).None?
    requires options.inputMode != "product"
    requires Present(options.manualPrompt) && ValidateManualPrompt(options.manualPrompt.value).valid
    ensures Post(apiKey, Ok(ImageRequest(Some(options), None)), create, statusAt, now).1 != []
  {
    CreateFirst(apiKey, options.manualPrompt.value, ROUTE_POLLING, create, statusAt);
  }

  /** In product mode an unknown style id is thrown by the prompt builder and answered 500, before any upstream call. */
  lemma ProductModeUnknownStyle(apiKey: Option<string>, options: ImageGenerationOptions, product: Product,
                                create: CreateResponse, statusAt: nat -> StatusResponse, now: int)
    requires Present(apiKey) && options.styleId != "" && FindImageStyle(options.styleId).None?
    requires options.inputMode == "product"
    ensures Post(apiKey, Ok(ImageRequest(Some(options), Some(product))), create, statusAt, now)
            == (FailureEnvelope("Invalid style ID: " + options.styleId), [])
  {
  }

  /** Every upstream failure is answered 500 with the client's error message. */
  lemma UpstreamFailureIs500(apiKey: Option<string>, options: ImageGenerationOptions, product: Option<Product>,
                             create: CreateResponse, statusAt: nat -> StatusResponse, now: int)
    requires Present(apiKey) && options.styleId != ""
    requires ChoosePrompt(options, product).Ok?
    requires Generation(apiKey, ChoosePrompt(options, product).value.0, ROUTE_POLLING, create, statusAt).0.Err?
    ensures Post(apiKey, Ok(ImageRequest(Some(options), product)), create, statusAt, now).0
            == FailureEnvelope(Generation(apiKey, ChoosePrompt(options, product).value.0, ROUTE_POLLING, create, statusAt).0.error.Message())
  {
  }

  /**
   * Whatever the upstream does, a request polls at most 24 times and sleeps at most
   * 115 seconds, inside the route's two-minute `maxDuration`.
   */
  lemma RouteBounded(apiKey: Option<string>, body: Result<ImageRequest, Thrown>,
                     create: CreateResponse, statusAt: nat -> StatusResponse, now: int)
    ensures var t := TallyOf(Post(apiKey, body, create, statusAt, now).1);
            t.polls <= 24 && t.sleptMs <= 115000 < MAX_DURATION_MS
  {
    var r := Post(apiKey, body, create, statusAt, now);
    if r.1 != [] {
      var chosen := ChoosePrompt(body.value.options.value, body.value.product).value;
      GenerationBounded(apiKey, chosen.0, ROUTE_POLLING, create, statusAt);
    } else {
      assert TallyOf(r.1) == Tally(0, 0, 0, 0);
    }
  }
}
