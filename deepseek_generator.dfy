/**
 * The content generator backed by the chat model: one product's title and
 * selling points from a streamed answer (never rejecting), the batch over many
 * products, and generation from a template, which skips the model whenever the
 * template carries a title or selling points.
 */
module DeepseekGenerator {
  import opened Base
  import opened Types
  import opened DeepseekClient
  import opened DeepseekPrompts
  import opened TemplateFill
  import opened ContentBatch

  const CONTENT_SYSTEM_PROMPT := "你是专业的电商文案创作专家。请根据商品信息生成吸引人的标题和卖点。"

  /** The two messages `generateContent` streams to the model. */
  function ContentMessages(p: Product): (r: seq<ChatMessage>)
    ensures |r| == 2 && r[0].System? && r[1] == User(BuildProductPrompt(p))
  {
    [System(CONTENT_SYSTEM_PROMPT), User(BuildProductPrompt(p))]
  }

  /**
   * `generateContent(product)`, with what `generateStream(ContentMessages(product), ...)`
   * resolved or rejected with given as `answer`, `JSON.parse` as `parse` and the clock as
   * `now`. It never rejects: a failed stream becomes a failed record.
   */
  function GenerateContent(p: Product, answer: Result<string, Thrown>, parse: string -> Option<ProductParse>, now: int)
    : (r: Result<GeneratedContent, Thrown>)
    ensures r.Ok?
    ensures r.value.productId == p.id
    ensures r.value.status == Completed <==> answer.Ok?
    ensures answer.Ok? ==>
              var parsed := ParseProductResponse(answer.value, parse);
              r.value.title == parsed.title && r.value.sellingPoints == parsed.sellingPoints
              && r.value.mainImage == MainImage(FirstImage(p), FirstImage(p), Some(r.value.title))
              && r.value.generatedAt == Some(now) && r.value.error.None?
    ensures answer.Err? ==>
              r.value.status == Failed && r.value.title == "" && r.value.sellingPoints == []
              && r.value.mainImage == MainImage(FirstImage(p), FirstImage(p), None)
              && r.value.error == Some(MessageOr(answer.error, "生成失败"))
  {
    match answer
    case Ok(response) =>
      var parsed := ParseProductResponse(response, parse);
      Ok(GeneratedContent(p.id, MainImage(FirstImage(p), FirstImage(p), Some(parsed.title)),
                          parsed.title, parsed.sellingPoints, Completed, Some(now), None))
    case Err(t) => Ok(FailedRecord(p, t))
  }

  /** What generating each product resolves with, product by product. */
  function Outcomes(products: seq<Product>, answers: seq<Result<string, Thrown>>,
                    parse: string -> Option<ProductParse>, now: int): (r: seq<Result<GeneratedContent, Thrown>>)
    requires |answers| == |products|
    ensures |r| == |products|
    ensures forall i :: 0 <= i < |products| ==> r[i] == GenerateContent(products[i], answers[i], parse, now)
  {
    seq(|products|, i requires 0 <= i < |products| => GenerateContent(products[i], answers[i], parse, now))
  }

  /**
   * `generateBatchContent(products, onProgress)`, product i's stream answering `answers[i]`:
   * one entry per distinct id, and since `generateContent` never rejects, progress is
   * reported after every product, in order.
   */
  method GenerateBatchContent(products: seq<Product>, answers: seq<Result<string, Thrown>>,
                              parse: string -> Option<ProductParse>, now: int)
    returns (results: map<string, GeneratedContent>, progress: seq<(int, int)>)
    requires |answers| == |products|
    ensures results == BatchResults(products, Outcomes(products, answers, parse, now))
    ensures results.Keys == set i | 0 <= i < |products| :: products[i].id
    ensures progress == seq(|products|, i => (i + 1, |products|))
  {
    var outcomes := Outcomes(products, answers, parse, now);
    results, progress := GenerateBatch(products, outcomes);
    BatchKeys(products, outcomes);
    AllResolved(outcomes, |products|);
  }

  /** `template?.content?.titleTemplate || template?.content?.sellingPointsTemplate`: an empty list still counts. */
  predicate UsesTemplate(template: Option<Template>)
  {
    template.Some? && (Present(template.value.content.titleTemplate)
                       || template.value.content.sellingPointsTemplate.Some?)
  }

  /**
   * `generateFromTemplate(product, template)`: the record, and the messages sent to the model
   * (`None` when the template is used and the model is not asked).
   */
  function GenerateFromTemplate(p: Product, template: Option<Template>, answer: Result<string, Thrown>,
                                parse: string -> Option<ProductParse>, now: int)
    : (r: (GeneratedContent, Option<seq<ChatMessage>>))
    ensures r.1.None? <==> UsesTemplate(template)
    ensures r.1.Some? ==> r.1.value == ContentMessages(p) && Ok(r.0) == GenerateContent(p, answer, parse, now)
    ensures UsesTemplate(template) ==>
              var content := template.value.content;
              r.0.productId == p.id && r.0.status == Completed
              && r.0.mainImage == MainImage(FirstImage(p), FirstImage(p), Some(r.0.title))
              && (Present(content.titleTemplate) ==> r.0.title == FillTitle(content.titleTemplate.value, p))
              && (!Present(content.titleTemplate) ==> r.0.title == "")
              && (content.sellingPointsTemplate.Some? ==>
                    r.0.sellingPoints == FillPoints(content.sellingPointsTemplate.value, p))
              && (content.sellingPointsTemplate.None? ==> r.0.sellingPoints == [])
  {
    if UsesTemplate(template) then
      var content := template.value.content;
      var title := if Present(content.titleTemplate) then FillTitle(content.titleTemplate.value, p) else "";
      var points := if content.sellingPointsTemplate.Some? then FillPoints(content.sellingPointsTemplate.value, p) else [];
      (GeneratedContent(p.id, MainImage(FirstImage(p), FirstImage(p), Some(title)), title, points,
                        Completed, Some(now), None), None)
    else
      (GenerateContent(p, answer, parse, now).value, Some(ContentMessages(p)))
  }

  /**
   * A template used for its selling points only leaves the title empty, and the overlay
   * with it; a template with neither field, or none at all, hands the product to the model.
   */
  lemma TemplateWithoutTitle(p: Product, t: Template, answer: Result<string, Thrown>,
                             parse: string -> Option<ProductParse>, now: int)
    ensures !Present(t.content.titleTemplate) && t.content.sellingPointsTemplate.Some? ==>
              var r := GenerateFromTemplate(p, Some(t), answer, parse, now);
              r.0.title == "" && r.0.mainImage.textOverlay == Some("") && r.1.None?
    ensures !Present(t.content.titleTemplate) && t.content.sellingPointsTemplate.None? ==>
              GenerateFromTemplate(p, Some(t), answer, parse, now) == GenerateFromTemplate(p, None, answer, parse, now)
  {
  }
}
