/**
 * The batch-generation page's state and handlers: the product list, the results
 * map keyed by product id, and the handlers that add, update and delete products,
 * generate all results, regenerate one, edit one, and build the export data.
 */
module HomePage {
  import opened Base
  import opened Types
  import opened DeepseekPrompts
  import opened ContentBatch
  import opened Storage
  import DeepseekGenerator
  import MockGenerator

  /** The product a submitted form becomes, with the id `generateId()` returns and the clock. */
  function NewProduct(form: ProductFormData, id: string, now: int): Product
  {
    Product(id, form.name, form.category, form.brand, form.material, form.size, form.color, form.targetAudience,
            form.images, form.referenceImages, form.referenceLinks, form.saveToLibrary, now)
  }

  /** `{...editing, ...form fields}`: the form replaces every field but the id and the creation date. */
  function UpdatedProduct(editing: Product, form: ProductFormData): (r: Product)
    ensures r.id == editing.id && r.createdAt == editing.createdAt
    ensures r == NewProduct(form, editing.id, editing.createdAt)
  {
    editing.(name := form.name, category := form.category, brand := form.brand, material := form.material,
             size := form.size, color := form.color, targetAudience := form.targetAudience, images := form.images,
             referenceImages := form.referenceImages, referenceLinks := form.referenceLinks,
             saveToLibrary := form.saveToLibrary)
  }

  /** `prev.map(p => p.id === id ? updated : p)` */
  function ReplaceById(products: seq<Product>, id: string, updated: Product): (r: seq<Product>)
    ensures |r| == |products|
    ensures forall i :: 0 <= i < |products| ==> r[i] == if products[i].id == id then updated else products[i]
  {
    seq(|products|, i requires 0 <= i < |products| => if products[i].id == id then updated else products[i])
  }

  /** The placeholder shown while a product waits: its first image (or ''), no generated image yet, status pending. */
  function PendingRecord(p: Product): GeneratedContent
  {
    GeneratedContent(p.id, MainImage(Some(OrElse(FirstImage(p), "")), Some(""), None), "", [], Pending, None, None)
  }

  /** The map of placeholders for a product list, built in list order. */
  function PendingResults(products: seq<Product>): (r: map<string, GeneratedContent>)
    ensures forall i :: 0 <= i < |products| ==> products[i].id in r
    ensures forall id :: id in r ==> r[id].status == Pending && r[id].productId == id && r[id].title == ""
    ensures forall id :: id in r ==> exists i :: 0 <= i < |products| && products[i].id == id
  {
    if products == [] then map[]
    else
      var n := |products| - 1;
      var r := PendingResults(products[..n])[products[n].id := PendingRecord(products[n])];
      assert forall i :: 0 <= i < n ==> products[..n][i] == products[i];
      r
  }

  /** A result's entry while it is regenerated: the old entry marked 'generating', or only the status when there was none. */
  function Marked(results: map<string, GeneratedContent>, id: string): GeneratedContent
  {
    if id in results then results[id].(status := Generating)
    else GeneratedContent("", MainImage(None, None, None), "", [], Generating, None, None)
  }

  /** The product part of a single export. */
  datatype ExportProduct = ExportProduct(
    name: string, category: string, brand: string, material: Option<string>, size: Option<string>,
    color: Option<string>, targetAudience: Option<string>)

  /** The data a single export downloads. */
  datatype ExportData = ExportData(product: ExportProduct, title: string, sellingPoints: seq<string>)

  /** One entry of the export of all results: the result only when it is completed. */
  datatype ExportEntry = ExportEntry(name: string, category: string, brand: string,
                                     result: Option<(string, seq<string>)>)

  /** The page's state. */
  class Home {
    var products: seq<Product>
    var results: map<string, GeneratedContent>
    var editingProduct: Option<Product>
    var isGenerating: bool
    var generatingCount: (int, int)

    constructor ()
      ensures products == [] && results == map[] && editingProduct.None?
      ensures !isGenerating && generatingCount == (0, 0)
    {
      products := [];
      results := map[];
      editingProduct := None;
      isGenerating := false;
      generatingCount := (0, 0);
    }

    /**
     * `handleAddProduct(formData)`: appends the new product; the material library gets it
     * only when the form asks for it.
     */
    method AddProduct(form: ProductFormData, id: string, now: int, library: Store<Material, MaterialPatch>)
      modifies this, library
      ensures products == old(products) + [NewProduct(form, id, now)]
      ensures results == old(results) && editingProduct == old(editingProduct)
      ensures isGenerating == old(isGenerating) && generatingCount == old(generatingCount)
      ensures form.saveToLibrary != Some(true) || !library.inBrowser ==> library.item == old(library.item)
      ensures form.saveToLibrary == Some(true) && library.inBrowser ==>
                library.GetAll() == old(library.GetAll()) + [Material(NewProduct(form, id, now), None, None)]
    {
      var newProduct := NewProduct(form, id, now);
      products := products + [newProduct];
      if form.saveToLibrary == Some(true) {
        library.Add(Material(newProduct, None, None));
      }
    }

    /** `handleEditProduct(product)`: remembers the product being edited. */
    method EditProduct(p: Product)
      modifies this
      ensures editingProduct == Some(p) && products == old(products) && results == old(results)
      ensures isGenerating == old(isGenerating) && generatingCount == old(generatingCount)
    {
      editingProduct := Some(p);
    }

    /**
     * `handleUpdateProduct(formData)`: every product carrying the edited product's id becomes
     * the updated product, which keeps that id and creation date; nothing happens when no
     * product is being edited.
     */
    method UpdateProduct(form: ProductFormData)
      modifies this
      ensures old(editingProduct).None? ==> products == old(products) && editingProduct.None?
      ensures old(editingProduct).Some? ==>
                var editing := old(editingProduct).value;
                |products| == |old(products)|
                && (forall i :: 0 <= i < |products| ==>
                      products[i] == if old(products)[i].id == editing.id then UpdatedProduct(editing, form) else old(products)[i])
                && editingProduct.None?
      ensures results == old(results)
      ensures isGenerating == old(isGenerating) && generatingCount == old(generatingCount)
    {
      if editingProduct.None? {
        return;
      }
      var updated := UpdatedProduct(editingProduct.value, form);
      products := ReplaceById(products, editingProduct.value.id, updated);
      editingProduct := None;
    }

    /** `handleDeleteProduct(id)`: drops every product with the id and its result, and nothing else. */
    method DeleteProduct(id: string)
      modifies this
      ensures products == Filter(old(products), (p: Product) => p.id != id)
      ensures forall i :: 0 <= i < |products| ==> products[i].id != id
      ensures results.Keys == old(results).Keys - {id}
      ensures forall k :: k in results ==> results[k] == old(results)[k]
      ensures editingProduct == old(editingProduct)
      ensures isGenerating == old(isGenerating) && generatingCount == old(generatingCount)
    {
      products := Filter(products, (p: Product) => p.id != id);
      results := results - {id};
    }

    /**
     * `handleGenerate()` with the batch generation of the chat-model generator (product i's
     * stream answering `answers[i]`): with no products nothing happens; otherwise the map is
     * first replaced by one placeholder per product (returned as `pending`), then by the batch
     * output, and the progress ends at (n, n).
     */
    method Generate(answers: seq<Result<string, Thrown>>, parse: string -> Option<ProductParse>, now: int)
      returns (pending: Option<map<string, GeneratedContent>>)
      requires |answers| == |products|
      modifies this
      ensures products == old(products) && editingProduct == old(editingProduct)
      ensures old(products) == [] ==>
                pending.None? && results == old(results) && isGenerating == old(isGenerating)
                && generatingCount == old(generatingCount)
      ensures old(products) != [] ==>
                pending == Some(PendingResults(products))
                && results == BatchResults(products, DeepseekGenerator.Outcomes(products, answers, parse, now))
                && results.Keys == (set i | 0 <= i < |products| :: products[i].id)
                && generatingCount == (|products|, |products|) && !isGenerating
    {
      if |products| == 0 {
        return None;
      }
      isGenerating := true;
      generatingCount := (0, |products|);
      var placeholders := Placeholders(products);
      results := placeholders;
      pending := Some(placeholders);
      var generated, progress := DeepseekGenerator.GenerateBatchContent(products, answers, parse, now);
      assert progress[|progress| - 1] == (|products|, |products|);
      generatingCount := progress[|progress| - 1];
      results := generated;
      isGenerating := false;
    }

    /**
     * `handleRegenerate(productId)` with the mock generator's draws: an unknown product changes
     * nothing; otherwise only that key is first marked 'generating' (returned as `marked`), then
     * replaced by the new result.
     */
    method Regenerate(productId: string, draws: MockGenerator.Draws, now: int)
      returns (marked: Option<map<string, GeneratedContent>>)
      requires MockGenerator.ValidDraws(draws)
      modifies this
      ensures Find(products, (p: Product) => p.id, productId).None? ==> marked.None? && results == old(results)
      ensures Find(products, (p: Product) => p.id, productId).Some? ==>
                var product := Find(products, (p: Product) => p.id, productId).value;
                marked == Some(old(results)[productId := Marked(old(results), productId)])
                && results == old(results)[productId := MockGenerator.GenerateContent(product, draws, now)]
      ensures products == old(products) && editingProduct == old(editingProduct)
      ensures isGenerating == old(isGenerating) && generatingCount == old(generatingCount)
    {
      var product := Find(products, (p: Product) => p.id, productId);
      if product.None? {
        return None;
      }
      results := results[productId := Marked(results, productId)];
      marked := Some(results);
      var result := MockGenerator.GenerateContent(product.value, draws, now);
      results := results[productId := result];
    }

    /** `handleEditResult(productId, data)`: only the title and selling points of an existing entry change. */
    method EditResult(productId: string, title: string, sellingPoints: seq<string>)
      modifies this
      ensures productId !in old(results) ==> results == old(results)
      ensures productId in old(results) ==>
                results == old(results)[productId := old(results)[productId].(title := title, sellingPoints := sellingPoints)]
      ensures products == old(products) && editingProduct == old(editingProduct)
      ensures isGenerating == old(isGenerating) && generatingCount == old(generatingCount)
    {
      if productId in results {
        results := results[productId := results[productId].(title := title, sellingPoints := sellingPoints)];
      }
    }

    /** `handleExport(productId)`: the data downloaded, or `None` when the alert refuses. */
    function Export(productId: string): (r: Option<ExportData>)
      reads this
      ensures r.Some? <==>
                Find(products, (p: Product) => p.id, productId).Some? && productId in results
                && results[productId].status == Completed
      ensures r.Some? ==>
                r.value.title == results[productId].title && r.value.sellingPoints == results[productId].sellingPoints
                && r.value.product == (var p := Find(products, (p: Product) => p.id, productId).value;
                                       ExportProduct(p.name, p.category, p.brand, p.material, p.size, p.color,
                                                     p.targetAudience))
    {
      var product := Find(products, (p: Product) => p.id, productId);
      if product.None? || productId !in results || results[productId].status != Completed then None
      else
        var p := product.value;
        var result := results[productId];
        Some(ExportData(ExportProduct(p.name, p.category, p.brand, p.material, p.size, p.color, p.targetAudience),
                        result.title, result.sellingPoints))
    }

    /** `handleExportAll()`: one entry per product, in list order, with its result only when completed. */
    function ExportAll(): (r: seq<ExportEntry>)
      reads this
      ensures |r| == |products|
      ensures forall i :: 0 <= i < |products| ==>
                r[i].name == products[i].name && r[i].category == products[i].category && r[i].brand == products[i].brand
                && (r[i].result.Some? <==> products[i].id in results && results[products[i].id].status == Completed)
                && (r[i].result.Some? ==>
                      r[i].result.value == (results[products[i].id].title, results[products[i].id].sellingPoints))
    {
      seq(|products|, i reads this requires 0 <= i < |products| =>
            var p := products[i];
            ExportEntry(p.name, p.category, p.brand,
                        if p.id in results && results[p.id].status == Completed
                        then Some((results[p.id].title, results[p.id].sellingPoints)) else None))
    }
  }

  /** `products.forEach(p => pendingResults.set(p.id, ...))` */
  method Placeholders(products: seq<Product>) returns (pending: map<string, GeneratedContent>)
    ensures pending == PendingResults(products)
  {
    pending := map[];
    var i := 0;
    while i < |products|
      invariant 0 <= i <= |products|
      invariant pending == PendingResults(products[..i])
    {
      pending := pending[products[i].id := PendingRecord(products[i])];
      assert products[..i + 1][..i] == products[..i];
      i := i + 1;
    }
    assert products[..i] == products;
  }
}
