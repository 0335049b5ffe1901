/**
 * The application's records: products and their generated copy, TikTok-style copy,
 * generated images and their styles, templates, image analyses and library materials.
 * They carry no behaviour of their own beyond the fixed style tables and field access.
 * Timestamps (`Date`) are opaque integers supplied by the caller.
 */
module Types {
  import opened Base

  // ----- products (types/product.ts) -----

  datatype Product = Product(
    id: string,
    name: string,
    category: string,
    brand: string,
    material: Option<string>,
    size: Option<string>,
    color: Option<string>,
    targetAudience: Option<string>,
    images: seq<string>,
    referenceImages: Option<seq<string>>,
    referenceLinks: Option<seq<string>>,
    saveToLibrary: Option<bool>,
    createdAt: int)

  /** The product form's data; uploaded files are represented by their object URLs. */
  datatype ProductFormData = ProductFormData(
    name: string,
    category: string,
    brand: string,
    material: Option<string>,
    size: Option<string>,
    color: Option<string>,
    targetAudience: Option<string>,
    images: seq<string>,
    referenceImages: Option<seq<string>>,
    referenceLinks: Option<seq<string>>,
    saveToLibrary: Option<bool>)

  /** `product.images[0]`, undefined for a product without images. */
  function FirstImage(p: Product): (r: Option<string>)
    ensures r.Some? <==> |p.images| > 0
    ensures r.Some? ==> r.value == p.images[0]
  {
    if |p.images| > 0 then Some(p.images[0]) else None
  }

  // ----- generated title and selling points (types/generated.ts) -----

  datatype GenerationStatus = Pending | Generating | Completed | Failed

  datatype MainImage = MainImage(
    originalImage: Option<string>,
    generatedImage: Option<string>,
    textOverlay: Option<string>)

  datatype GeneratedContent = GeneratedContent(
    productId: string,
    mainImage: MainImage,
    title: string,
    sellingPoints: seq<string>,
    status: GenerationStatus,
    generatedAt: Option<int>,
    error: Option<string>)

  // ----- TikTok-style copy (types/tiktok.ts) -----

  datatype TikTokStyle = TikTokStyle(id: string, name: string, icon: string)

  const TIKTOK_STYLES: seq<TikTokStyle> := [
    TikTokStyle("funny", "搞笑幽默", "😄"),
    TikTokStyle("practical", "实用干货", "💡"),
    TikTokStyle("emotional", "情感共鸣", "❤️"),
    TikTokStyle("recommendation", "种草安利", "🌟"),
    TikTokStyle("story", "故事讲述", "📖"),
    TikTokStyle("comparison", "对比测评", "⚔️")
  ]

  datatype CopyStatus = CopyPending | CopyStreaming | CopyCompleted | CopyFailed

  datatype TikTokCopy = TikTokCopy(
    id: string,
    productId: string,
    styleId: string,
    hook: string,
    content: string,
    cta: string,
    hashtags: seq<string>,
    status: CopyStatus,
    streamedContent: Option<string>,
    error: Option<string>,
    generatedAt: int)

  /** Generation options; a missing style id is "", a missing length any unknown text. */
  datatype TikTokCopyOptions = TikTokCopyOptions(styleId: string, targetLength: string, includeHashtags: bool)

  // ----- generated images (types/image.ts) -----

  datatype ImageScenario = PosterScenario | ProductCoverScenario | SocialScenario

  datatype ImageStyle = ImageStyle(id: string, name: string, scenario: ImageScenario)

  const IMAGE_STYLES: seq<ImageStyle> := [
    ImageStyle("poster", "电商海报", PosterScenario),
    ImageStyle("product-cover", "商品首图", ProductCoverScenario),
    ImageStyle("lifestyle", "生活方式", SocialScenario),
    ImageStyle("minimalist", "简约风格", SocialScenario),
    ImageStyle("luxury", "高端奢华", SocialScenario),
    ImageStyle("vibrant", "活力鲜艳", SocialScenario),
    ImageStyle("seasonal", "季节主题", PosterScenario),
    ImageStyle("brand-story", "品牌故事", PosterScenario)
  ]

  datatype ImageGenerationOptions = ImageGenerationOptions(
    styleId: string,
    inputMode: string,
    productId: Option<string>,
    manualPrompt: Option<string>)

  datatype ImageStatus = ImagePending | ImageGenerating | ImageCompleted | ImageFailed

  datatype GeneratedImage = GeneratedImage(
    id: string,
    productId: Option<string>,
    styleId: string,
    prompt: string,
    imageUrl: string,
    status: ImageStatus,
    generatedAt: int)

  // ----- templates (types/template.ts) -----

  datatype TemplateType = Complete | TitleOnly | SellingPointsOnly | ImageOnly
  {
    /** The string stored in a template's `type` field. */
    function Name(): string
    {
      match this
      case Complete => "complete"
      case TitleOnly => "title-only"
      case SellingPointsOnly => "selling-points-only"
      case ImageOnly => "image-only"
    }
  }

  datatype MainImageTemplate = MainImageTemplate(textOverlay: string, style: string)

  datatype TemplateContent = TemplateContent(
    mainImageTemplate: Option<MainImageTemplate>,
    titleTemplate: Option<string>,
    sellingPointsTemplate: Option<seq<string>>)

  datatype Template = Template(
    id: string,
    name: string,
    ttype: TemplateType,
    tags: seq<string>,
    category: Option<string>,
    content: TemplateContent,
    createdAt: int,
    usedCount: Option<int>)

  // ----- image analysis (types/imageAnalysis.ts) -----

  datatype AnalysisStatus = AnalysisPending | Analyzing | AnalysisCompleted | AnalysisFailed

  datatype VisualFeatures = VisualFeatures(colors: seq<string>, style: string, scene: Option<string>)

  datatype ImageAnalysisResult = ImageAnalysisResult(
    id: string,
    productId: string,
    imageIndex: int,
    imageUrl: string,
    sellingPoints: seq<string>,
    keywords: seq<string>,
    visualFeatures: VisualFeatures,
    status: AnalysisStatus,
    error: Option<string>,
    analyzedAt: Option<int>)

  // ----- library materials (types/material.ts) -----

  /** A material is a product with usage bookkeeping. */
  datatype Material = Material(product: Product, usedCount: Option<int>, lastUsedAt: Option<int>)
}
