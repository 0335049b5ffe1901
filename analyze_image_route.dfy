/**
 * `POST /api/analyze-image`: the key check, three ordered request checks
 * answered 400, one call of the image analysis, and the JSON envelope.
 */
module AnalyzeImageRoute {
  import opened Base
  import opened Types
  import opened QwenPrompts
  import opened ImageAnalysisGenerator

  /** The parsed request body. */
  datatype AnalyzeRequest = AnalyzeRequest(product: Option<Product>, imageIndex: int, base64Image: Option<string>)

  /** The answer: a bare `{error}` with a status, `{success:false, error}` (500), or `{success:true, result}` (200). */
  datatype AnalyzeResponse =
    | JsonError(status: int, error: string)
    | FailureEnvelope(error: string)
    | SuccessEnvelope(result: ImageAnalysisResult)
  {
    function Status(): int
    {
      match this
      case JsonError(s, _) => s
      case FailureEnvelope(_) => 500
      case SuccessEnvelope(_) => 200
    }
  }

  const KEY_MISSING := "Qwen API key is not configured. Please add QWEN_API_KEY to your .env.local file."

  /**
   * `POST(request)` with the environment key, the parsed body (or what reading it threw),
   * the model's answer, `JSON.parse` and the clock; the answer and the analysis's effects.
   */
  function Post(apiKey: Option<string>, body: Result<AnalyzeRequest, Thrown>,
                answer: Result<string, Thrown>, parse: string -> Option<AnalysisParse>, now: int)
    : (r: (AnalyzeResponse, seq<AnalysisEffect>))
    ensures !Present(apiKey) ==> r == (JsonError(500, KEY_MISSING), [])
    ensures Present(apiKey) && body.Err? ==> r == (FailureEnvelope(MessageOr(body.error, "Image analysis failed")), [])
    ensures r.0.Status() == 400 ==> r.1 == [] && body.Ok?
    ensures Present(apiKey) && body.Ok? ==>
              var req := body.value;
              (req.product.None? ==> r.0 == JsonError(400, "No product provided"))
              && (req.product.Some? && !Present(ImageAt(req.product.value.images, req.imageIndex)) ==>
                    r.0 == JsonError(400, MissingImage(req.imageIndex)))
              && ((req.product.Some? && Present(ImageAt(req.product.value.images, req.imageIndex))
                   && !Present(req.base64Image)) ==> r.0 == JsonError(400, "Base64 image data is required"))
    ensures r.1 != [] ==>
              Present(apiKey) && body.Ok? && body.value.product.Some? && Present(body.value.base64Image)
              && r == (var a := AnalyzeProductImage(body.value.product.value, body.value.imageIndex,
                                                    body.value.base64Image.value, false, answer, parse, now);
                       (if a.0.Ok? then SuccessEnvelope(a.0.value) else FailureEnvelope(a.0.error), a.1))
  {
    if !Present(apiKey) then (JsonError(500, KEY_MISSING), [])
    else match body
      case Err(thrown) => (FailureEnvelope(MessageOr(thrown, "Image analysis failed")), [])
      case Ok(req) =>
        if req.product.None? then (JsonError(400, "No product provided"), [])
        else if !Present(ImageAt(req.product.value.images, req.imageIndex)) then
          (JsonError(400, MissingImage(req.imageIndex)), [])
        else if !Present(req.base64Image) then (JsonError(400, "Base64 image data is required"), [])
        else
          var (outcome, effects) := AnalyzeProductImage(req.product.value, req.imageIndex, req.base64Image.value,
                                                        false, answer, parse, now);
          match outcome
          case Ok(result) => (SuccessEnvelope(result), effects)
          case Err(message) => (FailureEnvelope(message), effects)
  }

  /**
   * Once the route's own checks pass, the analysis's pre-checks cannot fail: the model is
   * always asked, with no progress reported since the route passes no callbacks, and every 500 from the analysis carries the "Image analysis failed: " prefix.
   */
  lemma RouteReachesModel(apiKey: Option<string>, req: AnalyzeRequest,
                          answer: Result<string, Thrown>, parse: string -> Option<AnalysisParse>, now: int)
    requires Present(apiKey) && req.product.Some? && Present(ImageAt(req.product.value.images, req.imageIndex))
    requires Present(req.base64Image)
    ensures var r := Post(apiKey, Ok(req), answer, parse, now);
            r.1 == [AnalyzeCall(req.base64Image.value, Some(AsPartial(req.product.value)))]
            && (r.0.FailureEnvelope? ==>
                  answer.Err? && r.0.error == ERROR_PREFIX + MessageOr(answer.error, "Unknown error"))
            && (r.0.SuccessEnvelope? <==> answer.Ok?)
  {
  }

  /** Every answer is 200, 400 or 500, and only a success is 200. */
  lemma StatusCodes(apiKey: Option<string>, body: Result<AnalyzeRequest, Thrown>,
                    answer: Result<string, Thrown>, parse: string -> Option<AnalysisParse>, now: int)
    ensures var r := Post(apiKey, body, answer, parse, now);
            r.0.Status() in {200, 400, 500} && (r.0.Status() == 200 <==> r.0.SuccessEnvelope?)
  {
  }
}
