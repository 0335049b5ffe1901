/**
 * The offline content generator: a title picked from four patterns, one or two
 * selling points drawn from eight candidates, the same batch loop, and template
 * filling that falls back to the mock output field by field. `Math.random()`
 * draws are parameters in [0, 1); the shuffle is any permutation of the candidates.
 */
module MockGenerator {
  import opened Base
  import opened Types
  import opened DeepseekPrompts
  import opened TemplateFill
  import opened ContentBatch
  import DeepseekGenerator

  /** The four title patterns. */
  function MockTitles(p: Product): (r: seq<string>)
    ensures |r| == 4
  {
    [p.brand + " " + p.name + " " + OrElse(p.material, "") + " " + OrElse(p.targetAudience, "") + "专用",
     "2024新款" + p.name + " " + OrElse(p.material, "") + p.category,
     p.category + " " + p.name + " " + p.brand + "官方正品",
     p.name + " " + OrElse(p.material, "") + (if Present(p.color) then " " + p.color.value else "")
     + " " + OrElse(p.targetAudience, "")]
  }

  /** `Math.floor(draw * n)` for a draw in [0, 1): an index below n. */
  function Pick(draw: real, n: nat): (k: nat)
    requires 0.0 <= draw < 1.0 && n > 0
    ensures k < n
  {
    assert 0.0 <= draw * n as real < n as real;
    (draw * n as real).Floor
  }

  /** `generateMockTitle(product)`: the pattern at `Math.floor(draw * 4)`. */
  function MockTitle(p: Product, draw: real): (r: string)
    requires 0.0 <= draw < 1.0
    ensures r in MockTitles(p)
  {
    MockTitles(p)[Pick(draw, 4)]
  }

  /** The eight selling-point candidates. */
  function MockPoints(p: Product): (r: seq<string>)
    ensures |r| == 8
  {
    [OrElse(p.material, "精选材料") + "材质，品质有保障",
     p.brand + "品牌正品，品质信赖",
     "适合" + OrElse(p.targetAudience, "多场景") + "使用",
     "工艺精良，细节考究",
     OrElse(p.size, "标准尺寸") + "，实用便携",
     (if Present(p.color) then p.color.value + "配色" else "经典配色") + "，时尚大方",
     "多层设计，大容量收纳",
     "耐磨耐用，使用寿命长"]
  }

  /**
   * The random draws one mock generation consumes: the title draw, the order the shuffle
   * leaves the eight candidates in (candidate `order[j]` ends up at position j), the count draw.
   */
  datatype Draws = Draws(title: real, order: seq<int>, count: real)

  /** An order the shuffle can leave eight candidates in: each position taken exactly once. */
  predicate IsShuffle(order: seq<int>)
  {
    |order| == 8 && (forall j :: 0 <= j < 8 ==> 0 <= order[j] < 8)
    && (forall j, k :: 0 <= j < k < 8 ==> order[j] != order[k])
  }

  /** Draws `Math.random()` and the shuffle can produce. */
  predicate ValidDraws(d: Draws)
  {
    0.0 <= d.title < 1.0 && 0.0 <= d.count < 1.0 && IsShuffle(d.order)
  }

  /**
   * `generateMockSellingPoints(product)`: the first `1 + Math.floor(draw * 2)` shuffled
   * candidates, so one or two of them, taken from different candidates.
   */
  function MockSellingPoints(p: Product, order: seq<int>, draw: real): (r: seq<string>)
    requires IsShuffle(order) && 0.0 <= draw < 1.0
    ensures 1 <= |r| <= 2
    ensures forall j :: 0 <= j < |r| ==> r[j] in MockPoints(p) && r[j] == MockPoints(p)[order[j]]
    ensures |r| == 2 ==> order[0] != order[1]
  {
    var candidates := MockPoints(p);
    var count := 1 + Pick(draw, 2);
    seq(count, j requires 0 <= j < count => candidates[order[j]])
  }

  /** `generateContent(product)`: always completed, the overlay is the title, both images are the first one. */
  function GenerateContent(p: Product, d: Draws, now: int): (r: GeneratedContent)
    requires ValidDraws(d)
    ensures r.productId == p.id && r.status == Completed && r.generatedAt == Some(now) && r.error.None?
    ensures r.mainImage == MainImage(FirstImage(p), FirstImage(p), Some(r.title))
    ensures r.title in MockTitles(p)
    ensures 1 <= |r.sellingPoints| <= 2 && forall x :: x in r.sellingPoints ==> x in MockPoints(p)
  {
    var title := MockTitle(p, d.title);
    GeneratedContent(p.id, MainImage(FirstImage(p), FirstImage(p), Some(title)), title,
                     MockSellingPoints(p, d.order, d.count), Completed, Some(now), None)
  }

  /** What generating each product resolves with: the mock never rejects. */
  function Outcomes(products: seq<Product>, draws: seq<Draws>, now: int): (r: seq<Result<GeneratedContent, Thrown>>)
    requires |draws| == |products|
    requires forall i :: 0 <= i < |products| ==> ValidDraws(draws[i])
    ensures |r| == |products|
    ensures forall i :: 0 <= i < |r| ==> r[i].Ok? && r[i].value.status == Completed && r[i].value.productId == products[i].id
    decreases |products|
  {
    if products == [] then []
    else
      var n := |products| - 1;
      Outcomes(products[..n], draws[..n], now) + [Ok(GenerateContent(products[n], draws[n], now))]
  }

  /** `generateBatchContent(products, onProgress)`: one completed entry per distinct id, progress after every product. */
  method GenerateBatchContent(products: seq<Product>, draws: seq<Draws>, now: int)
    returns (results: map<string, GeneratedContent>, progress: seq<(int, int)>)
    requires |draws| == |products|
    requires forall i :: 0 <= i < |products| ==> ValidDraws(draws[i])
    ensures results == BatchResults(products, Outcomes(products, draws, now))
    ensures results.Keys == set i | 0 <= i < |products| :: products[i].id
    ensures forall id :: id in results ==> results[id].status == Completed && results[id].productId == id
    ensures progress == seq(|products|, i => (i + 1, |products|))
  {
    var outcomes := Outcomes(products, draws, now);
    results, progress := GenerateBatch(products, outcomes);
    BatchKeys(products, outcomes);
    AllResolved(outcomes, |products|);
    forall id | id in results ensures results[id].status == Completed && results[id].productId == id {
      var k := LastIndexOf(products, id);
      LastWriteWins(products, outcomes, k);
    }
  }

  /** The last position of an id that occurs among the products. */
  function LastIndexOf(products: seq<Product>, id: string): (k: int)
    requires exists i :: 0 <= i < |products| && products[i].id == id
    ensures 0 <= k < |products| && products[k].id == id
    ensures forall j :: k < j < |products| ==> products[j].id != id
  {
    var n := |products| - 1;
    if products[n].id == id then n else LastIndexOf(products[..n], id)
  }

  /**
   * `generateFromTemplate(product, template)`: each field comes from the template when it has
   * one, and from the mock generator otherwise, independently of the other field.
   */
  function GenerateFromTemplate(p: Product, t: Template, d: Draws, now: int): (r: GeneratedContent)
    requires ValidDraws(d)
    ensures r.productId == p.id && r.status == Completed && r.generatedAt == Some(now)
    ensures r.mainImage == MainImage(FirstImage(p), FirstImage(p), Some(r.title))
    ensures Present(t.content.titleTemplate) ==> r.title == FillTitle(t.content.titleTemplate.value, p)
    ensures !Present(t.content.titleTemplate) ==> r.title == MockTitle(p, d.title)
    ensures t.content.sellingPointsTemplate.Some? ==>
              r.sellingPoints == FillPoints(t.content.sellingPointsTemplate.value, p)
    ensures t.content.sellingPointsTemplate.None? ==>
              r.sellingPoints == MockSellingPoints(p, d.order, d.count)
  {
    var title := if Present(t.content.titleTemplate) then FillTitle(t.content.titleTemplate.value, p)
                 else MockTitle(p, d.title);
    var points := if t.content.sellingPointsTemplate.Some? then FillPoints(t.content.sellingPointsTemplate.value, p)
                  else MockSellingPoints(p, d.order, d.count);
    GeneratedContent(p.id, MainImage(FirstImage(p), FirstImage(p), Some(title)), title, points,
                     Completed, Some(now), None)
  }

  /**
   * Both generators fill a template with both fields the same way: the same first-occurrence
   * chain, the same defaults, the same record.
   */
  lemma SameFillAsDeepseek(p: Product, t: Template, d: Draws, now: int, answer: Result<string, Thrown>,
                           parse: string -> Option<ProductParse>)
    requires ValidDraws(d)
    requires Present(t.content.titleTemplate) && t.content.sellingPointsTemplate.Some?
    ensures GenerateFromTemplate(p, t, d, now) == DeepseekGenerator.GenerateFromTemplate(p, Some(t), answer, parse, now).0
  {
  }
}
