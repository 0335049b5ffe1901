/**
 * Prompts for DeepSeek and the parsing of its answers. Both parsers delete the code
 * fences the model tends to wrap JSON in (the global pattern /```json\n?|\n?```/),
 * trim, and hand the rest to `JSON.parse`; a parse failure yields a fixed fallback.
 * `JSON.parse` is a parameter: a partial function from text to the parsed record.
 */
module DeepseekPrompts {
  import opened Base
  import opened Types

  // ----- code fences -----

  /** Three backticks start at `i`. */
  predicate TicksAt(s: string, i: int)
  {
    0 <= i && i + 3 <= |s| && s[i] == '`' && s[i + 1] == '`' && s[i + 2] == '`'
  }

  /** "```json" starts at `i`. */
  predicate JsonFenceAt(s: string, i: int)
  {
    TicksAt(s, i) && i + 7 <= |s| && s[i + 3] == 'j' && s[i + 4] == 's' && s[i + 5] == 'o' && s[i + 6] == 'n'
  }

  /**
   * `s.replace(/```json\n?|\n?```/g, '')`: scanning left to right, at each position the
   * first alternative is tried first ("```json" and, greedily, one newline), then the
   * second (a newline and "```", else "```"); a match is deleted and the scan resumes after it.
   */
  function StripFences(s: string): (r: string)
    ensures |r| <= |s|
    decreases |s|
  {
    if |s| == 0 then ""
    else if JsonFenceAt(s, 0) then StripFences(s[(if |s| > 7 && s[7] == '\n' then 8 else 7)..])
    else if s[0] == '\n' && TicksAt(s, 1) then StripFences(s[4..])
    else if TicksAt(s, 0) then StripFences(s[3..])
    else [s[0]] + StripFences(s[1..])
  }

  /** Text without a backtick is left alone. */
  lemma {:induction false} StripFencesNoBacktick(s: string)
    requires '`' !in s
    ensures StripFences(s) == s
    decreases |s|
  {
    if |s| > 0 {
      assert s[0] in s;
      if |s| > 1 {
        assert s[1] in s;
      }
      assert '`' !in s[1..];
      StripFencesNoBacktick(s[1..]);
      assert s == [s[0]] + s[1..];
    }
  }

  /** A position where no alternative matches keeps its character. */
  lemma StripFencesKeeps(s: string)
    requires |s| > 0 && s[0] != '`' && !(s[0] == '\n' && TicksAt(s, 1))
    ensures StripFences(s) == [s[0]] + StripFences(s[1..])
  {
  }

  /**
   * A prefix without backticks is kept as it is, provided it does not end in a newline
   * that the rest would turn into a "\n```" fence.
   */
  lemma {:induction false} StripFencesPrefix(a: string, t: string)
    requires '`' !in a
    requires |a| > 0 && a[|a| - 1] == '\n' ==> !TicksAt(t, 0)
    ensures StripFences(a + t) == a + StripFences(t)
    decreases |a|
  {
    if |a| == 0 {
      assert a + t == t;
    } else {
      FrontKept(a, t);
      NoBacktickTail(a);
      StripFencesPrefix(a[1..], t);
      assert a == [a[0]] + a[1..];
    }
  }

  /** The first character of a backtick-free prefix is kept. */
  lemma FrontKept(a: string, t: string)
    requires |a| > 0 && '`' !in a
    requires a[|a| - 1] == '\n' ==> !TicksAt(t, 0)
    ensures StripFences(a + t) == [a[0]] + StripFences(a[1..] + t)
  {
    var s := a + t;
    assert s[0] == a[0] && a[0] in a;
    assert !(s[0] == '\n' && TicksAt(s, 1)) by {
      if |a| > 1 {
        assert s[1] == a[1] && a[1] in a;
      } else if |t| >= 3 {
        assert s[1] == t[0] && s[2] == t[1] && s[3] == t[2];
      }
    }
    StripFencesKeeps(s);
    assert s[1..] == a[1..] + t;
  }

  lemma NoBacktickTail(a: string)
    requires |a| > 0 && '`' !in a
    ensures '`' !in a[1..]
  {
    forall i | 0 <= i < |a[1..]| ensures a[1..][i] != '`' {
      assert a[1..][i] == a[i + 1] && a[i + 1] in a;
    }
  }

  /** The closing fence alone is deleted entirely. */
  lemma StripClosing()
    ensures StripFences("\n```") == ""
  {
    var closing := "\n```";
    assert closing[0] == '\n' && TicksAt(closing, 1);
    assert closing[4..] == "";
  }

  /** A JSON body fenced as "```json\n" ... "\n```" comes out of the stripping unchanged. */
  lemma FencedBody(body: string)
    requires '`' !in body
    ensures StripFences("```json\n" + body + "\n```") == body
  {
    StripClosing();
    var s := "```json\n" + body + "\n```";
    assert JsonFenceAt(s, 0) && s[7] == '\n';
    assert s[8..] == body + "\n```";
    StripFencesPrefix(body, "\n```");
    assert body + "" == body;
  }

  /**
   * A newline before the opening fence makes the second alternative match "\n```" first,
   * so the "json" tag survives in the cleaned text.
   */
  lemma LeadingNewlineKeepsTag(body: string)
    requires '`' !in body
    ensures StripFences("\n```json\n" + body + "\n```") == "json\n" + body
  {
    StripClosing();
    var s := "\n```json\n" + body + "\n```";
    assert s[0] == '\n' && TicksAt(s, 1) && !JsonFenceAt(s, 0);
    var prefix := "json\n" + body;
    assert s[4..] == prefix + "\n```";
    assert '`' !in prefix by {
      forall i | 0 <= i < |prefix| ensures prefix[i] != '`' {
        if i >= 5 { assert prefix[i] == body[i - 5] && body[i - 5] in body; }
      }
    }
    StripFencesPrefix(prefix, "\n```");
    assert prefix + "" == prefix;
  }

  /** The text handed to `JSON.parse`: fences deleted, then trimmed. */
  function Cleaned(response: string): string
  {
    Trim(StripFences(response))
  }

  // ----- title and selling points -----

  /** What `JSON.parse` yields for a product answer; its shape is taken on trust. */
  datatype ProductParse = ProductParse(title: string, sellingPoints: seq<string>)

  const PRODUCT_FALLBACK := ProductParse("AI生成标题", ["精选品质", "值得信赖"])

  /** `parseProductResponse(response)`, with `JSON.parse` given as `parse`. */
  function ParseProductResponse(response: string, parse: string -> Option<ProductParse>): (r: ProductParse)
    ensures parse(Cleaned(response)).Some? ==> r == parse(Cleaned(response)).value
    ensures parse(Cleaned(response)).None? ==> r == PRODUCT_FALLBACK
  {
    match parse(Cleaned(response))
    case Some(parsed) => parsed
    case None => PRODUCT_FALLBACK
  }

  /** Fencing a trimmed JSON body does not change what the parser returns. */
  lemma ProductFenceTransparent(body: string, parse: string -> Option<ProductParse>)
    requires '`' !in body
    requires body == [] || (!IsSpace(body[0]) && !IsSpace(body[|body| - 1]))
    ensures ParseProductResponse("```json\n" + body + "\n```", parse) == ParseProductResponse(body, parse)
  {
    FencedBody(body);
    StripFencesNoBacktick(body);
    TrimIdentity(body);
  }

  /** `buildProductPrompt(product)`; a missing material, color or size reads '未指定', a missing audience '通用'. */
  function BuildProductPrompt(p: Product): string
  {
    "你是专业的电商文案创作专家。请为以下商品生成吸引人的标题和卖点。\n\n【商品信息】\n- 商品名称："
    + p.name + "\n- 品牌：" + p.brand + "\n- 类目：" + p.category
    + "\n- 材质：" + OrElse(p.material, "未指定")
    + "\n- 颜色：" + OrElse(p.color, "未指定")
    + "\n- 尺寸：" + OrElse(p.size, "未指定")
    + "\n- 适用人群：" + OrElse(p.targetAudience, "通用")
    + PRODUCT_PROMPT_TAIL
  }

  const PRODUCT_PROMPT_TAIL := "\n\n【要求】\n1. 标题要吸引眼球，突出核心卖点\n2. 卖点要具体、有说服力，3-5条\n3. 语言简洁有力，符合电商风格\n\n请以JSON格式返回：\n{\n  \"title\": \"吸引人的商品标题\",\n  \"sellingPoints\": [\"卖点1\", \"卖点2\", \"卖点3\"]\n}"

  /** A missing or empty optional field is written exactly as its default would be. */
  lemma ProductPromptDefaults(p: Product)
    ensures !Present(p.material) ==> BuildProductPrompt(p) == BuildProductPrompt(p.(material := Some("未指定")))
    ensures !Present(p.color) ==> BuildProductPrompt(p) == BuildProductPrompt(p.(color := Some("未指定")))
    ensures !Present(p.size) ==> BuildProductPrompt(p) == BuildProductPrompt(p.(size := Some("未指定")))
    ensures !Present(p.targetAudience) ==> BuildProductPrompt(p) == BuildProductPrompt(p.(targetAudience := Some("通用")))
  {
  }

  // ----- TikTok-style copy -----

  /** What `JSON.parse` yields for a TikTok answer; its shape is taken on trust. */
  datatype TiktokParse = TiktokParse(hook: string, content: string, cta: string, hashtags: seq<string>)

  const FALLBACK_CTA := "点击链接购买，限时优惠中！"

  /** `parseTiktokResponse(response)`, with `JSON.parse` given as `parse`. */
  function ParseTiktokResponse(response: string, parse: string -> Option<TiktokParse>): (r: TiktokParse)
    ensures parse(Cleaned(response)).Some? ==> r == parse(Cleaned(response)).value
    ensures parse(Cleaned(response)).None? ==> r == TiktokParse("", response, FALLBACK_CTA, [])
  {
    match parse(Cleaned(response))
    case Some(parsed) => parsed
    case None => TiktokParse("", response, FALLBACK_CTA, [])
  }

  /** When parsing fails the content is the raw answer, fences included, not the cleaned text. */
  lemma TiktokFallbackKeepsRawAnswer(body: string, parse: string -> Option<TiktokParse>)
    requires '`' !in body
    requires parse(Trim(body)).None?
    ensures ParseTiktokResponse("```json\n" + body + "\n```", parse).content == "```json\n" + body + "\n```"
  {
    FencedBody(body);
  }

  /** The system prompt of the TikTok copy, written line by line. */
  const TIKTOK_SYSTEM_PROMPT := Join([
    "你是专业的抖音/短视频电商文案创作专家。",
    "",
    "【文案结构要求】",
    "1. 黄金3秒开头（Hook）：立即抓住用户注意力",
    "2. 主体内容：根据指定风格展开",
    "3. 行动号召（CTA）：引导用户点赞、评论、购买",
    "4. 话题标签：3-5个相关标签",
    "",
    "【创作原则】",
    "- 口语化、接地气，避免书面语",
    "- 多用短句，节奏感强",
    "- 适当使用emoji增强表达",
    "- 制造紧迫感和稀缺感",
    "- 突出产品独特卖点",
    "- 考虑目标受众的语言习惯",
    "",
    "【输出格式】请严格按照以下JSON格式输出：",
    "{",
    "  \"hook\": \"黄金3秒开头，立即抓住注意力\",",
    "  \"content\": \"主体内容，根据风格展开\",",
    "  \"cta\": \"行动号召，引导购买\",",
    "  \"hashtags\": [\"标签1\", \"标签2\", \"标签3\"]",
    "}"
  ], "\n")

  /** `buildTiktokSystemPrompt()` */
  function BuildTiktokSystemPrompt(): string
  {
    TIKTOK_SYSTEM_PROMPT
  }

  /** The style instructions, one entry per TikTok style id. */
  const STYLE_PROMPTS: seq<(string, string)> := [
    ("funny", "【风格要求：搞笑幽默】\n- 使用幽默、诙谐、夸张的语言\n- 适当使用网络热梗和流行语\n- 制造反差萌和意外感\n- 用轻松的方式展示产品价值\n- 语气：活泼、俏皮、接地气"),
    ("practical", "【风格要求：实用干货】\n- 直接点明产品功能和使用场景\n- 列举具体的使用方法和技巧\n- 强调解决问题的能力\n- 用数据和事实说话\n- 语气：专业、真诚、实用"),
    ("emotional", "【风格要求：情感共鸣】\n- 从用户痛点和情感需求切入\n- 讲述温暖、感人的故事\n- 强调产品带来的情感价值\n- 激发用户共鸣和认同\n- 语气：温暖、走心、感性"),
    ("recommendation", "【风格要求：种草安利】\n- 像朋友一样真诚推荐\n- 分享真实使用体验\n- 强调\"必入\"、\"不买亏\"的感觉\n- 用第一人称叙述更自然\n- 语气：热情、真诚、种草感强"),
    ("story", "【风格要求：故事讲述】\n- 用完整的故事线展示产品\n- 设置情节转折和高潮\n- 通过故事自然植入产品\n- 制造悬念和吸引力\n- 语气：生动、有趣、代入感强"),
    ("comparison", "【风格要求：对比测评】\n- 与市面同类产品对比\n- 突出本产品的独特优势\n- 客观指出其他产品不足\n- 强调性价比和购买理由\n- 语气：客观、专业、有说服力")
  ]

  const LENGTH_INSTRUCTIONS: seq<(string, string)> := [
    ("short", "50-100字"),
    ("medium", "100-200字"),
    ("long", "200-300字")
  ]

  /** A value interpolated into a template literal: an absent entry reads "undefined". */
  function Interpolated(entry: Option<string>): (r: string)
    ensures entry.Some? ==> r == entry.value
    ensures entry.None? ==> r == "undefined"
  {
    match entry
    case Some(text) => text
    case None => "undefined"
  }

  /** The style table covers exactly the six TikTok styles. */
  lemma StylePromptForEveryStyle(styleId: string)
    ensures TableLookup(STYLE_PROMPTS, styleId).Some?
            <==> exists i :: 0 <= i < |TIKTOK_STYLES| && TIKTOK_STYLES[i].id == styleId
  {
    assert |STYLE_PROMPTS| == |TIKTOK_STYLES|;
    assert forall i :: 0 <= i < |TIKTOK_STYLES| ==> STYLE_PROMPTS[i].0 == TIKTOK_STYLES[i].id;
  }

  /** An optional product line, written only when the field is truthy. */
  function InfoLine(field: Option<string>, prefix: string): (r: string)
    ensures Present(field) ==> r == prefix + field.value + "\n"
    ensures !Present(field) ==> r == ""
  {
    if Present(field) then prefix + field.value + "\n" else ""
  }

  const HASHTAGS_ON := "【要求】生成3-5个相关话题标签"
  const HASHTAGS_OFF := "【要求】不生成标签"
  const TIKTOK_CLOSING := "请根据以上信息和风格要求，创作一篇抖音/短视频文案。"

  function RequirementLine(includeHashtags: bool): string
  {
    if includeHashtags then HASHTAGS_ON else HASHTAGS_OFF
  }

  /** The fixed head of the product block. */
  function InfoHead(p: Product): string
  {
    "\n【商品信息】\n- 商品名称：" + p.name + "\n- 品牌：" + p.brand + "\n- 类目：" + p.category + "\n"
  }

  /** The block after the product lines: the length instruction and the hashtag requirement. */
  function Requirements(targetLength: string, includeHashtags: bool): string
  {
    "\n【目标长度】" + Interpolated(TableLookup(LENGTH_INSTRUCTIONS, targetLength)) + "\n"
    + RequirementLine(includeHashtags) + "\n"
  }

  /** The whole product block: head, the optional lines in the order material, size, color, audience, requirements. */
  function ProductInfo(p: Product, targetLength: string, includeHashtags: bool): string
  {
    InfoHead(p) + InfoLine(p.material, "- 材质：") + InfoLine(p.size, "- 尺寸：")
    + InfoLine(p.color, "- 颜色：") + InfoLine(p.targetAudience, "- 适用人群：")
    + Requirements(targetLength, includeHashtags)
  }

  /** The prompt `buildTiktokPrompt` returns. */
  function TiktokPrompt(p: Product, styleId: string, targetLength: string, includeHashtags: bool): string
  {
    Interpolated(TableLookup(STYLE_PROMPTS, styleId)) + "\n\n" + ProductInfo(p, targetLength, includeHashtags)
    + "\n\n" + TIKTOK_CLOSING
  }

  /** `buildTiktokPrompt(product, styleId, targetLength, includeHashtags)` */
  method BuildTiktokPrompt(p: Product, styleId: string, targetLength: string, includeHashtags: bool)
    returns (prompt: string)
    ensures prompt == TiktokPrompt(p, styleId, targetLength, includeHashtags)
  {
    var lengthInstruction := Interpolated(TableLookup(LENGTH_INSTRUCTIONS, targetLength));
    var stylePrompt := Interpolated(TableLookup(STYLE_PROMPTS, styleId));
    var productInfo := "\n【商品信息】\n- 商品名称：" + p.name + "\n- 品牌：" + p.brand + "\n- 类目：" + p.category + "\n";
    if Present(p.material) {
      productInfo := productInfo + ("- 材质：" + p.material.value + "\n");
    }
    assert productInfo == InfoHead(p) + InfoLine(p.material, "- 材质：");
    if Present(p.size) {
      productInfo := productInfo + ("- 尺寸：" + p.size.value + "\n");
    }
    assert productInfo == InfoHead(p) + InfoLine(p.material, "- 材质：") + InfoLine(p.size, "- 尺寸：");
    if Present(p.color) {
      productInfo := productInfo + ("- 颜色：" + p.color.value + "\n");
    }
    assert productInfo == InfoHead(p) + InfoLine(p.material, "- 材质：") + InfoLine(p.size, "- 尺寸：")
                          + InfoLine(p.color, "- 颜色：");
    if Present(p.targetAudience) {
      productInfo := productInfo + ("- 适用人群：" + p.targetAudience.value + "\n");
    }
    assert productInfo == InfoHead(p) + InfoLine(p.material, "- 材质：") + InfoLine(p.size, "- 尺寸：")
                          + InfoLine(p.color, "- 颜色：") + InfoLine(p.targetAudience, "- 适用人群：");
    productInfo := productInfo + ("\n【目标长度】" + lengthInstruction + "\n"
      + (if includeHashtags then HASHTAGS_ON else HASHTAGS_OFF) + "\n");
    assert productInfo == ProductInfo(p, targetLength, includeHashtags);
    prompt := stylePrompt + "\n\n" + productInfo + "\n\n" + TIKTOK_CLOSING;
  }

  /** The prompt begins with the style's instructions. */
  lemma TiktokPromptStartsWithStyle(p: Product, styleId: string, targetLength: string, includeHashtags: bool)
    ensures var style := Interpolated(TableLookup(STYLE_PROMPTS, styleId));
            var prompt := TiktokPrompt(p, styleId, targetLength, includeHashtags);
            |style| <= |prompt| && prompt[..|style|] == style
  {
  }

  /**
   * The product block ends with the length instruction for `targetLength` and the hashtag
   * requirement, which asks for 3-5 hashtags exactly when `includeHashtags` is set; the
   * prompt ends with the closing request.
   */
  lemma TiktokPromptTail(p: Product, styleId: string, targetLength: string, includeHashtags: bool)
    ensures var info := ProductInfo(p, targetLength, includeHashtags);
            var requirements := Requirements(targetLength, includeHashtags);
            |requirements| <= |info| && info[|info| - |requirements|..] == requirements
    ensures var prompt := TiktokPrompt(p, styleId, targetLength, includeHashtags);
            |TIKTOK_CLOSING| <= |prompt| && prompt[|prompt| - |TIKTOK_CLOSING|..] == TIKTOK_CLOSING
    ensures RequirementLine(includeHashtags) == HASHTAGS_ON <==> includeHashtags
  {
    assert |HASHTAGS_ON| != |HASHTAGS_OFF|;
  }

  /**
   * With no material, size, color or audience, the product block is its head and the
   * requirements; a truthy material puts its line right after the head.
   */
  lemma TiktokOptionalLines(p: Product, targetLength: string, includeHashtags: bool)
    ensures !Present(p.material) && !Present(p.size) && !Present(p.color) && !Present(p.targetAudience)
            ==> ProductInfo(p, targetLength, includeHashtags) == InfoHead(p) + Requirements(targetLength, includeHashtags)
    ensures Present(p.material) ==>
              var line := "- 材质：" + p.material.value + "\n";
              ProductInfo(p, targetLength, includeHashtags)[|InfoHead(p)|..|InfoHead(p)| + |line|] == line
  {
    var head := InfoHead(p);
    var req := Requirements(targetLength, includeHashtags);
    if !Present(p.material) && !Present(p.size) && !Present(p.color) && !Present(p.targetAudience) {
      assert head + "" + "" + "" + "" == head;
    }
    if Present(p.material) {
      var line := "- 材质：" + p.material.value + "\n";
      var (i, j) := (|head|, |head| + |line|);
      var withMaterial := head + InfoLine(p.material, "- 材质：");
      var withSize := withMaterial + InfoLine(p.size, "- 尺寸：");
      var withColor := withSize + InfoLine(p.color, "- 颜色：");
      var withAudience := withColor + InfoLine(p.targetAudience, "- 适用人群：");
      assert ProductInfo(p, targetLength, includeHashtags) == withAudience + req;
      SliceOfFront(withAudience, req, i, j);
      SliceOfFront(withColor, InfoLine(p.targetAudience, "- 适用人群："), i, j);
      SliceOfFront(withSize, InfoLine(p.color, "- 颜色："), i, j);
      SliceOfFront(withMaterial, InfoLine(p.size, "- 尺寸："), i, j);
      Parts(head, line, "");
    }
  }
}
