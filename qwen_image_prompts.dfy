/**
 * Prompt construction for Qwen-Image: a base prompt chosen by the style's scenario,
 * a product description grown segment by segment, and the style's modifiers, joined
 * by ", "; and the length check applied to a hand-written prompt.
 */
module QwenImagePrompts {
  import opened Base
  import opened Types

  /** `IMAGE_STYLES.find((s) => s.id === styleId)` */
  function FindImageStyle(styleId: string): (r: Option<ImageStyle>)
    ensures r.Some? <==> exists i :: 0 <= i < |IMAGE_STYLES| && IMAGE_STYLES[i].id == styleId
    ensures r.Some? ==> r.value in IMAGE_STYLES && r.value.id == styleId
  {
    Find(IMAGE_STYLES, ImageStyleId, styleId)
  }

  function ImageStyleId(s: ImageStyle): string { s.id }

  /** The base prompt of each scenario. */
  function ScenarioPrompt(scenario: ImageScenario): string
  {
    match scenario
    case PosterScenario => "Professional e-commerce promotional poster, high quality, 4K, commercial photography"
    case ProductCoverScenario => "Product cover image for e-commerce platform, clean background, professional lighting, product photography"
    case SocialScenario => "Social media marketing image, lifestyle photography, aesthetic composition, Instagram style"
  }

  /** The modifier table, one entry per style id. */
  const STYLE_MODIFIERS: seq<(string, string)> := [
    ("poster", "bold typography, sale tag, price emphasis, promotional elements, vibrant colors"),
    ("product-cover", "white background, studio lighting, sharp focus, high contrast, professional product photography"),
    ("lifestyle", "natural lighting, candid moment, lifestyle context, warm tones, authentic feel"),
    ("minimalist", "clean composition, negative space, simple colors, modern aesthetic, Scandinavian style"),
    ("luxury", "elegant lighting, gold accents, premium materials, sophisticated atmosphere, luxury brand style"),
    ("vibrant", "saturated colors, dynamic composition, energetic feel, bold contrasts, eye-catching"),
    ("seasonal", "seasonal decorations, thematic elements, holiday atmosphere, relevant props"),
    ("brand-story", "editorial style, brand aesthetic, premium quality, sophisticated mood, brand identity")
  ]

  /** `getStyleModifiers(styleId)`: the modifiers, `undefined` for an id outside the table. */
  function StyleModifiers(styleId: string): Option<string>
  {
    TableLookup(STYLE_MODIFIERS, styleId)
  }

  /** The two tables agree: a style id has modifiers exactly when it names a style. */
  lemma ModifiersForEveryStyle(styleId: string)
    ensures StyleModifiers(styleId).Some? <==> FindImageStyle(styleId).Some?
  {
    assert |STYLE_MODIFIERS| == |IMAGE_STYLES|;
    assert forall i :: 0 <= i < |IMAGE_STYLES| ==> STYLE_MODIFIERS[i].0 == IMAGE_STYLES[i].id;
  }

  /** A segment appended only when the optional field is truthy. */
  function Segment(field: Option<string>, before: string, after: string): (r: string)
    ensures Present(field) ==> r == before + field.value + after
    ensures !Present(field) ==> r == ""
  {
    if Present(field) then before + field.value + after else ""
  }

  /** The description a product yields: its head, then each present optional segment in order. */
  function ProductDescription(p: Product): string
  {
    p.name + ", " + p.brand + " brand, " + p.category
    + Segment(p.material, ", made of ", "")
    + Segment(p.color, ", ", " color")
    + Segment(p.targetAudience, ", designed for ", "")
  }

  /** `buildProductDescription(product)` */
  method BuildProductDescription(p: Product) returns (desc: string)
    ensures desc == ProductDescription(p)
  {
    desc := p.name + ", " + p.brand + " brand, " + p.category;
    if Present(p.material) {
      desc := desc + ", made of " + p.material.value;
    }
    if Present(p.color) {
      desc := desc + ", " + p.color.value + " color";
    }
    if Present(p.targetAudience) {
      desc := desc + ", designed for " + p.targetAudience.value;
    }
  }

  /**
   * Every description starts with "name, brand brand, category"; a product with no
   * material, color or audience has exactly that description.
   */
  lemma DescriptionHead(p: Product)
    ensures ProductDescription(p)[..|p.name + ", " + p.brand + " brand, " + p.category|]
            == p.name + ", " + p.brand + " brand, " + p.category
    ensures !Present(p.material) && !Present(p.color) && !Present(p.targetAudience)
            ==> ProductDescription(p) == p.name + ", " + p.brand + " brand, " + p.category
  {
  }

  /**
   * `buildImagePrompt(product, styleId)`: the prompt, or the message of the Error it throws.
   * The prompt is the base prompt of the style's scenario, the product description and the
   * style's modifiers, joined by ", " and trimmed.
   */
  function BuildImagePrompt(p: Product, styleId: string): (r: Result<string, string>)
    ensures r.Err? <==> FindImageStyle(styleId).None?
    ensures r.Err? ==> r.error == "Invalid style ID: " + styleId
    ensures r.Ok? ==> StyleModifiers(styleId).Some?
    ensures r.Ok? ==> r.value == Trim(ScenarioPrompt(FindImageStyle(styleId).value.scenario) + ", "
                                      + ProductDescription(p) + ", " + StyleModifiers(styleId).value)
  {
    match FindImageStyle(styleId)
    case None => Err("Invalid style ID: " + styleId)
    case Some(style) =>
      ModifiersForEveryStyle(styleId);
      Ok(Trim(ScenarioPrompt(style.scenario) + ", " + ProductDescription(p) + ", " + StyleModifiers(styleId).value))
  }

  /** The validator's verdict: valid, or invalid with a message. */
  datatype Validation = Validation(valid: bool, error: Option<string>)

  const EMPTY_PROMPT := "Prompt cannot be empty"
  const SHORT_PROMPT := "Prompt must be at least 10 characters"
  const LONG_PROMPT := "Prompt must be less than 1000 characters"

  /** `validateManualPrompt(prompt)`: judged on the trimmed prompt. */
  function ValidateManualPrompt(prompt: string): (r: Validation)
    ensures r.valid <==> 10 <= |Trim(prompt)| <= 1000
    ensures r.error.Some? <==> !r.valid
    ensures r.error.Some? ==> r.error.value in {EMPTY_PROMPT, SHORT_PROMPT, LONG_PROMPT}
  {
    var trimmed := Trim(prompt);
    if |trimmed| == 0 then Validation(false, Some(EMPTY_PROMPT))
    else if |trimmed| < 10 then Validation(false, Some(SHORT_PROMPT))
    else if |trimmed| > 1000 then Validation(false, Some(LONG_PROMPT))
    else Validation(true, None)
  }

  /**
   * The checks run in order: a prompt that is all white space is reported empty, a
   * short one short and a long one long; padding around the text never changes the verdict.
   */
  lemma ValidationMessages(prompt: string, pad1: string, pad2: string)
    requires forall i :: 0 <= i < |pad1| ==> IsSpace(pad1[i])
    requires forall i :: 0 <= i < |pad2| ==> IsSpace(pad2[i])
    ensures (forall i :: 0 <= i < |prompt| ==> IsSpace(prompt[i])) ==> ValidateManualPrompt(prompt).error == Some(EMPTY_PROMPT)
    ensures 0 < |Trim(prompt)| < 10 ==> ValidateManualPrompt(prompt).error == Some(SHORT_PROMPT)
    ensures |Trim(prompt)| > 1000 ==> ValidateManualPrompt(prompt).error == Some(LONG_PROMPT)
    ensures ValidateManualPrompt(pad1 + Trim(prompt) + pad2) == ValidateManualPrompt(prompt)
  {
    TrimEmpty(prompt);
    var trimmed := Trim(prompt);
    TrimPadded(pad1, trimmed, pad2);
    assert Trim(pad1 + trimmed + pad2) == trimmed;
  }

  /** Trimming ignores white-space padding around an already trimmed text. */
  lemma {:induction false} TrimPadded(pad1: string, s: string, pad2: string)
    requires forall i :: 0 <= i < |pad1| ==> IsSpace(pad1[i])
    requires forall i :: 0 <= i < |pad2| ==> IsSpace(pad2[i])
    requires s == [] || (!IsSpace(s[0]) && !IsSpace(s[|s| - 1]))
    ensures Trim(pad1 + s + pad2) == s
  {
    if s == [] {
      assert pad1 + s + pad2 == pad1 + pad2;
      TrimEmpty(pad1 + pad2);
    } else {
      var t := pad1 + s + pad2;
      var start := TrimStart(t);
      assert start == s + pad2 by {
        assert t == pad1 + (s + pad2);
        assert (s + pad2)[0] == s[0];
        TrimStartPadded(pad1, s + pad2);
      }
      assert Trim(t) == TrimEnd(start) by {
        TrimIsBoth(t);
      }
      TrimEndPadded(s, pad2);
    }
  }

  lemma {:induction false} TrimStartPadded(pad: string, s: string)
    requires forall i :: 0 <= i < |pad| ==> IsSpace(pad[i])
    requires s != [] && !IsSpace(s[0])
    ensures TrimStart(pad + s) == s
  {
    if pad != [] {
      assert (pad + s)[1..] == pad[1..] + s;
      TrimStartPadded(pad[1..], s);
    } else {
      assert pad + s == s;
    }
  }

  lemma {:induction false} TrimEndPadded(s: string, pad: string)
    requires forall i :: 0 <= i < |pad| ==> IsSpace(pad[i])
    requires s != [] && !IsSpace(s[|s| - 1])
    ensures TrimEnd(s + pad) == s
  {
    if pad != [] {
      assert (s + pad)[..|s + pad| - 1] == s + pad[..|pad| - 1];
      TrimEndPadded(s, pad[..|pad| - 1]);
    } else {
      assert s + pad == s;
    }
  }
}
