/**
 * Prompts and answer parsing for the vision model: an analysis prompt with an
 * optional product-context block, and a parser that strips code fences and falls
 * back to an empty analysis.
 */
module QwenPrompts {
  import opened Base
  import opened Types
  import opened DeepseekPrompts

  /** `Partial<Product>` as far as the prompt reads it: any field may be missing. */
  datatype PartialProduct = PartialProduct(
    name: Option<string>,
    brand: Option<string>,
    category: Option<string>,
    material: Option<string>,
    color: Option<string>,
    targetAudience: Option<string>)

  /** A whole product seen as a partial one. */
  function AsPartial(p: Product): (r: PartialProduct)
    ensures r.name == Some(p.name) && r.brand == Some(p.brand) && r.category == Some(p.category)
    ensures r.material == p.material && r.color == p.color && r.targetAudience == p.targetAudience
  {
    PartialProduct(Some(p.name), Some(p.brand), Some(p.category), p.material, p.color, p.targetAudience)
  }

  const CONTEXT_TITLE := "【商品上下文信息】"

  /** The product-context block; a missing name, brand or category reads '未知', material or color '未指定', audience '通用'. */
  function ContextBlock(p: PartialProduct): string
  {
    CONTEXT_TITLE + ContextLines(p)
  }

  /** The lines under the block's title. */
  function ContextLines(p: PartialProduct): string
  {
    "\n- 商品名称：" + OrElse(p.name, "未知")
    + "\n- 品牌：" + OrElse(p.brand, "未知")
    + "\n- 类目：" + OrElse(p.category, "未知")
    + "\n- 材质：" + OrElse(p.material, "未指定")
    + "\n- 颜色：" + OrElse(p.color, "未指定")
    + "\n- 适用人群：" + OrElse(p.targetAudience, "通用")
    + "\n\n"
  }

  const ANALYSIS_HEAD := "你是专业的电商图片分析专家。请仔细观察这张商品图片，提取视觉信息。\n\n"

  /** The task description after the head, written line by line. */
  const ANALYSIS_TAIL := Join([
    "",
    "【分析任务】",
    "1. **视觉卖点** (3-5条): 从图片中识别出的吸引人的视觉特点",
    "   - 例如：材质质感、设计细节、工艺特点、功能展示等",
    "   - 要具体描述图片中看到的内容，不要凭空想象",
    "",
    "2. **关键词** (5-10个): 描述图片的标签和关键词",
    "   - 包括：风格、场景、功能、材质、颜色等维度",
    "   - 单个词或2-3字的短语",
    "",
    "3. **视觉特征**:",
    "   - **颜色**: 图片中主要颜色（2-4个，用中文描述，如\"深棕色\"、\"米白色\"）",
    "   - **风格**: 整体视觉风格（如：简约时尚、奢华典雅、休闲运动、复古怀旧等）",
    "   - **场景** (可选): 如果图片有明确的场景背景（如办公室、户外、室内等）",
    "",
    "【要求】",
    "- 仅基于图片中的视觉信息进行分析",
    "- 如果商品上下文信息与图片不符，以图片为准",
    "- 卖点要具体、真实，避免夸大其词",
    "- 关键词要准确、专业，便于搜索和分类",
    "",
    "请以JSON格式返回：",
    "{",
    "  \"sellingPoints\": [\"卖点1\", \"卖点2\", \"卖点3\"],",
    "  \"keywords\": [\"关键词1\", \"关键词2\", \"关键词3\"],",
    "  \"visualFeatures\": {",
    "    \"colors\": [\"颜色1\", \"颜色2\"],",
    "    \"style\": \"风格描述\",",
    "    \"scene\": \"场景描述（可选）\"",
    "  }",
    "}"
  ], "\n")

  /** `buildImageAnalysisPrompt(product)`: the context block appears only when a product is given. */
  function BuildImageAnalysisPrompt(product: Option<PartialProduct>): string
  {
    ANALYSIS_HEAD + (if product.Some? then ContextBlock(product.value) else "") + ANALYSIS_TAIL
  }

  /**
   * The context block is there exactly when a product is given: with one, the prompt is
   * the prompt without one with the block inserted after the head, and the block starts
   * with its title; without one, it is the head and the task description alone.
   */
  lemma ContextBlockIffProduct(product: Option<PartialProduct>)
    ensures product.None? ==> BuildImageAnalysisPrompt(product) == ANALYSIS_HEAD + ANALYSIS_TAIL
    ensures product.Some? ==>
              var block := ContextBlock(product.value);
              var prompt := BuildImageAnalysisPrompt(product);
              |prompt| == |BuildImageAnalysisPrompt(None)| + |block|
              && prompt[..|ANALYSIS_HEAD|] == ANALYSIS_HEAD
              && prompt[|ANALYSIS_HEAD|..|ANALYSIS_HEAD| + |block|] == block
              && prompt[|ANALYSIS_HEAD| + |block|..] == ANALYSIS_TAIL
              && block[..|CONTEXT_TITLE|] == CONTEXT_TITLE
  {
    assert ANALYSIS_HEAD + "" == ANALYSIS_HEAD;
    if product.Some? {
      var block := ContextBlock(product.value);
      Parts(ANALYSIS_HEAD, block, ANALYSIS_TAIL);
      Parts(CONTEXT_TITLE, ContextLines(product.value), "");
    }
  }

  /** A missing or empty field is written exactly as its default would be. */
  lemma ContextDefaults(p: PartialProduct)
    ensures !Present(p.name) ==> ContextBlock(p) == ContextBlock(p.(name := Some("未知")))
    ensures !Present(p.brand) ==> ContextBlock(p) == ContextBlock(p.(brand := Some("未知")))
    ensures !Present(p.category) ==> ContextBlock(p) == ContextBlock(p.(category := Some("未知")))
    ensures !Present(p.material) ==> ContextBlock(p) == ContextBlock(p.(material := Some("未指定")))
    ensures !Present(p.color) ==> ContextBlock(p) == ContextBlock(p.(color := Some("未指定")))
    ensures !Present(p.targetAudience) ==> ContextBlock(p) == ContextBlock(p.(targetAudience := Some("通用")))
  {
  }

  /** What `JSON.parse` yields for an analysis answer; its shape is taken on trust. */
  datatype AnalysisParse = AnalysisParse(sellingPoints: seq<string>, keywords: seq<string>, visualFeatures: VisualFeatures)

  const ANALYSIS_FALLBACK := AnalysisParse([], [], VisualFeatures([], "未知", None))

  /** `parseImageAnalysisResponse(response)`, with `JSON.parse` given as `parse`; cleaned as the other parsers clean. */
  function ParseImageAnalysisResponse(response: string, parse: string -> Option<AnalysisParse>): (r: AnalysisParse)
    ensures parse(Cleaned(response)).Some? ==> r == parse(Cleaned(response)).value
    ensures parse(Cleaned(response)).None? ==>
              r.sellingPoints == [] && r.keywords == [] && r.visualFeatures.colors == []
              && r.visualFeatures.style == "未知" && r.visualFeatures.scene.None?
  {
    match parse(Cleaned(response))
    case Some(parsed) => parsed
    case None => ANALYSIS_FALLBACK
  }

  /** Fencing a trimmed JSON body does not change what the parser returns. */
  lemma AnalysisFenceTransparent(body: string, parse: string -> Option<AnalysisParse>)
    requires '`' !in body
    requires body == [] || (!IsSpace(body[0]) && !IsSpace(body[|body| - 1]))
    ensures ParseImageAnalysisResponse("```json\n" + body + "\n```", parse) == ParseImageAnalysisResponse(body, parse)
  {
    FencedBody(body);
    StripFencesNoBacktick(body);
    TrimIdentity(body);
  }
}
