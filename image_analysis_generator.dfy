/**
 * Analysis of one product image: two checks that throw before the model is
 * asked, three progress messages around the model call when the caller asked for them, and a result record
 * built from the parsed answer; failures of the call are rethrown with a prefix.
 */
module ImageAnalysisGenerator {
  import opened Base
  import opened Types
  import opened QwenPrompts

  /**
   * What the analysis does outside itself, in order: progress messages and the one model
   * call, which sends the image with the prompt `BuildImageAnalysisPrompt(context)`.
   */
  datatype AnalysisEffect = Progress(status: string) | AnalyzeCall(base64Image: string, context: Option<PartialProduct>)
  {
    /** The prompt text a model call sends. */
    function Prompt(): string
      requires AnalyzeCall?
    {
      BuildImageAnalysisPrompt(context)
    }
  }

  const SENDING := "Sending to AI model..."
  const ANALYZING := "Analyzing image..."
  const PARSING := "Parsing results..."
  const ERROR_PREFIX := "Image analysis failed: "

  /** `images[index]`: `undefined` outside the list. */
  function ImageAt(images: seq<string>, index: int): (r: Option<string>)
    ensures r.Some? <==> 0 <= index < |images|
    ensures r.Some? ==> r.value == images[index]
  {
    if 0 <= index < |images| then Some(images[index]) else None
  }

  /** The message of the Error thrown for a missing image. */
  function MissingImage(imageIndex: int): string
  {
    "Image at index " + IntToString(imageIndex) + " not found"
  }

  /** A progress message, reported only when the caller supplied `onProgress`. */
  function Report(withProgress: bool, status: string): seq<AnalysisEffect>
  {
    if withProgress then [Progress(status)] else []
  }

  /**
   * `analyzeProductImage(product, imageIndex, base64Image, callbacks)`: the result or the
   * message of the Error it throws, and its effects. `withProgress` says whether the caller
   * supplied `callbacks.onProgress`; the model's answer (or what the call threw) is `answer`,
   * `JSON.parse` is `parse`, the clock is `now`.
   */
  function AnalyzeProductImage(product: Product, imageIndex: int, base64Image: string, withProgress: bool,
                               answer: Result<string, Thrown>, parse: string -> Option<AnalysisParse>, now: int)
    : (r: (Result<ImageAnalysisResult, string>, seq<AnalysisEffect>))
    ensures !Present(ImageAt(product.images, imageIndex)) ==> r == (Err(MissingImage(imageIndex)), [])
    ensures Present(ImageAt(product.images, imageIndex)) && base64Image == "" ==>
              r == (Err("Base64 image data is required"), [])
    ensures r.1 != [] <==> Present(ImageAt(product.images, imageIndex)) && base64Image != ""
    ensures r.1 != [] && withProgress ==>
              |r.1| >= 3 && r.1[..3] == [Progress(SENDING), Progress(ANALYZING),
                           AnalyzeCall(base64Image, Some(AsPartial(product)))]
              && (answer.Ok? ==> r.1 == r.1[..3] + [Progress(PARSING)])
              && (answer.Err? ==> |r.1| == 3)
    ensures r.1 != [] && !withProgress ==> r.1 == [AnalyzeCall(base64Image, Some(AsPartial(product)))]
    ensures r.1 != [] && answer.Err? ==> r.0 == Err(ERROR_PREFIX + MessageOr(answer.error, "Unknown error"))
    ensures r.1 != [] && answer.Ok? ==> r.0.Ok?
    ensures r.0.Ok? ==>
              var parsed := ParseImageAnalysisResponse(answer.value, parse);
              r.1 != [] && answer.Ok?
              && r.0.value.id == product.id + "-" + IntToString(imageIndex) + "-" + IntToString(now)
              && r.0.value.analyzedAt == Some(now) && r.0.value.error == None
              && r.0.value.productId == product.id && r.0.value.imageIndex == imageIndex
              && r.0.value.imageUrl == product.images[imageIndex] && r.0.value.status == AnalysisCompleted
              && r.0.value.sellingPoints == parsed.sellingPoints && r.0.value.keywords == parsed.keywords
              && r.0.value.visualFeatures == parsed.visualFeatures
  {
    var imageUrl := ImageAt(product.images, imageIndex);
    if !Present(imageUrl) then (Err(MissingImage(imageIndex)), [])
    else if base64Image == "" then (Err("Base64 image data is required"), [])
    else
      var asked := Report(withProgress, SENDING) + Report(withProgress, ANALYZING)
                   + [AnalyzeCall(base64Image, Some(AsPartial(product)))];
      match answer
      case Err(thrown) => (Err(ERROR_PREFIX + MessageOr(thrown, "Unknown error")), asked)
      case Ok(response) =>
        var parsed := ParseImageAnalysisResponse(response, parse);
        (Ok(ImageAnalysisResult(product.id + "-" + IntToString(imageIndex) + "-" + IntToString(now), product.id,
                                imageIndex, imageUrl.value, parsed.sellingPoints, parsed.keywords,
                                parsed.visualFeatures, AnalysisCompleted, None, Some(now))),
         asked + Report(withProgress, PARSING))
  }

  /**
   * The two pre-checks are not wrapped: their messages never carry the prefix of a failed
   * call, which every failure after them does.
   */
  lemma PreChecksUnwrapped(product: Product, imageIndex: int, base64Image: string, withProgress: bool,
                           answer: Result<string, Thrown>, parse: string -> Option<AnalysisParse>, now: int)
    ensures var r := AnalyzeProductImage(product, imageIndex, base64Image, withProgress, answer, parse, now);
            r.0.Err? ==>
              (r.1 == [] <==> !(|ERROR_PREFIX| <= |r.0.error| && r.0.error[..|ERROR_PREFIX|] == ERROR_PREFIX))
  {
    var r := AnalyzeProductImage(product, imageIndex, base64Image, withProgress, answer, parse, now);
    if r.0.Err? && r.1 == [] {
      var missing := MissingImage(imageIndex);
      var base64 := "Base64 image data is required";
      assert missing[7] == 't' && ERROR_PREFIX[7] == 'n';
      assert base64[0] == 'B' && ERROR_PREFIX[0] == 'I';
    }
  }
}
