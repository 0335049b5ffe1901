/**
 * The batch loop shared by both content generators: products are generated one
 * after another into a map keyed by product id; a product whose generation
 * rejects is stored as a failed record, and progress is reported only after a
 * product whose generation resolved.
 */
module ContentBatch {
  import opened Base
  import opened Types

  /** The record stored for a product whose generation rejected: no overlay, no date, the error's message or '生成失败'. */
  function FailedRecord(p: Product, t: Thrown): GeneratedContent
  {
    GeneratedContent(p.id, MainImage(FirstImage(p), FirstImage(p), None), "", [], Failed, None,
                     Some(MessageOr(t, "生成失败")))
  }

  /** What the loop stores for one product, given what its generation resolved or rejected with. */
  function Stored(p: Product, outcome: Result<GeneratedContent, Thrown>): GeneratedContent
  {
    match outcome
    case Ok(result) => result
    case Err(t) => FailedRecord(p, t)
  }

  /** The map once the loop has run over `products`: each product in turn overwrites its id's entry. */
  function BatchResults(products: seq<Product>, outcomes: seq<Result<GeneratedContent, Thrown>>)
    : map<string, GeneratedContent>
    requires |outcomes| == |products|
    decreases |products|
  {
    if products == [] then map[]
    else
      var n := |products| - 1;
      BatchResults(products[..n], outcomes[..n])[products[n].id := Stored(products[n], outcomes[n])]
  }

  /**
   * The `onProgress` calls the loop makes: `(i + 1, total)` after product i, only when its
   * generation resolved, in product order.
   */
  function ProgressCalls(outcomes: seq<Result<GeneratedContent, Thrown>>, total: int): (r: seq<(int, int)>)
    ensures |r| <= |outcomes|
    ensures forall k :: 0 <= k < |r| ==> 1 <= r[k].0 <= |outcomes| && r[k].1 == total && outcomes[r[k].0 - 1].Ok?
    ensures forall k, l :: 0 <= k < l < |r| ==> r[k].0 < r[l].0
    ensures forall i :: 0 <= i < |outcomes| && outcomes[i].Ok? ==> (i + 1, total) in r
  {
    if outcomes == [] then []
    else
      var n := |outcomes| - 1;
      ProgressCalls(outcomes[..n], total) + (if outcomes[n].Ok? then [(n + 1, total)] else [])
  }

  /**
   * `generateBatchContent(products, onProgress)`, with the generation of product i given as
   * `outcomes[i]`: the results map and the `onProgress` calls, in order.
   */
  method GenerateBatch(products: seq<Product>, outcomes: seq<Result<GeneratedContent, Thrown>>)
    returns (results: map<string, GeneratedContent>, progress: seq<(int, int)>)
    requires |outcomes| == |products|
    ensures results == BatchResults(products, outcomes)
    ensures progress == ProgressCalls(outcomes, |products|)
  {
    results := map[];
    progress := [];
    var i := 0;
    while i < |products|
      invariant 0 <= i <= |products|
      invariant results == BatchResults(products[..i], outcomes[..i])
      invariant progress == ProgressCalls(outcomes[..i], |products|)
    {
      var product := products[i];
      match outcomes[i] {
        case Ok(result) =>
          results := results[product.id := result];
          progress := progress + [(i + 1, |products|)];
        case Err(error) =>
          results := results[product.id := FailedRecord(product, error)];
      }
      assert products[..i + 1][..i] == products[..i];
      assert outcomes[..i + 1][..i] == outcomes[..i];
      i := i + 1;
    }
    assert products[..i] == products;
    assert outcomes[..i] == outcomes;
  }

  /** The map holds exactly one entry per distinct product id. */
  lemma {:induction false} BatchKeys(products: seq<Product>, outcomes: seq<Result<GeneratedContent, Thrown>>)
    requires |outcomes| == |products|
    ensures BatchResults(products, outcomes).Keys == set i | 0 <= i < |products| :: products[i].id
    decreases |products|
  {
    if products != [] {
      var n := |products| - 1;
      BatchKeys(products[..n], outcomes[..n]);
      var before := set i | 0 <= i < n :: products[..n][i].id;
      var after := set i | 0 <= i < |products| :: products[i].id;
      forall id | id in after ensures id in before + {products[n].id} {
        var i :| 0 <= i < |products| && products[i].id == id;
        if i < n {
          assert products[..n][i].id == id;
        }
      }
      forall id | id in before ensures id in after {
        var i :| 0 <= i < n && products[..n][i].id == id;
        assert products[i].id == id;
      }
    }
  }

  /** A product's entry is what was stored for the last product carrying its id: a later duplicate overwrites an earlier one. */
  lemma {:induction false} LastWriteWins(products: seq<Product>, outcomes: seq<Result<GeneratedContent, Thrown>>, k: int)
    requires |outcomes| == |products| && 0 <= k < |products|
    requires forall j :: k < j < |products| ==> products[j].id != products[k].id
    ensures products[k].id in BatchResults(products, outcomes)
    ensures BatchResults(products, outcomes)[products[k].id] == Stored(products[k], outcomes[k])
    decreases |products|
  {
    var n := |products| - 1;
    if k < n {
      LastWriteWins(products[..n], outcomes[..n], k);
    }
  }

  /**
   * A product whose generation rejected, and that no later product shares an id with, is stored
   * failed under its id: its first image on both sides, no title or points, and the error's message.
   */
  lemma RejectedEntry(products: seq<Product>, outcomes: seq<Result<GeneratedContent, Thrown>>, k: int)
    requires |outcomes| == |products| && 0 <= k < |products| && outcomes[k].Err?
    requires forall j :: k < j < |products| ==> products[j].id != products[k].id
    ensures products[k].id in BatchResults(products, outcomes)
    ensures var e := BatchResults(products, outcomes)[products[k].id];
            e.productId == products[k].id && e.status == Failed && e.title == "" && e.sellingPoints == []
            && e.mainImage.originalImage == e.mainImage.generatedImage
            && (e.mainImage.originalImage.Some? <==> |products[k].images| > 0)
            && e.error == Some(MessageOr(outcomes[k].error, "生成失败"))
  {
    LastWriteWins(products, outcomes, k);
  }

  /** When every generation resolves, progress is reported once per product: (1, n), (2, n), ..., (n, n). */
  lemma AllResolved(outcomes: seq<Result<GeneratedContent, Thrown>>, total: int)
    requires forall i :: 0 <= i < |outcomes| ==> outcomes[i].Ok?
    ensures ProgressCalls(outcomes, total) == seq(|outcomes|, i => (i + 1, total))
  {
    var r := ProgressCalls(outcomes, total);
    ProgressFromSuccesses(outcomes, total);
    Consecutive(r, total);
  }

  /** Strictly increasing positions between 1 and their count, each paired with `total`, are (1, total), (2, total), ... */
  lemma Consecutive(r: seq<(int, int)>, total: int)
    requires forall j :: 0 <= j < |r| ==> 1 <= r[j].0 <= |r| && r[j].1 == total
    requires forall j, l :: 0 <= j < l < |r| ==> r[j].0 < r[l].0
    ensures r == seq(|r|, i => (i + 1, total))
  {
    forall k | 0 <= k < |r| ensures r[k] == (k + 1, total) {
      ProgressIndex(r, k);
    }
  }

  /** The number of calls is the number of resolved generations. */
  lemma {:induction false} ProgressFromSuccesses(outcomes: seq<Result<GeneratedContent, Thrown>>, total: int)
    requires forall i :: 0 <= i < |outcomes| ==> outcomes[i].Ok?
    ensures |ProgressCalls(outcomes, total)| == |outcomes|
  {
    if outcomes != [] {
      ProgressFromSuccesses(outcomes[..|outcomes| - 1], total);
    }
  }

  /** Strictly increasing positions 1..|r| in a sequence of length |r| are exactly 1, 2, ..., |r|. */
  lemma {:induction false} ProgressIndex(r: seq<(int, int)>, k: int)
    requires 0 <= k < |r|
    requires forall j :: 0 <= j < |r| ==> 1 <= r[j].0 <= |r|
    requires forall j, l :: 0 <= j < l < |r| ==> r[j].0 < r[l].0
    ensures r[k].0 == k + 1
  {
    IncreasingFloor(r, k);
    IncreasingCeiling(r, k);
  }

  lemma {:induction false} IncreasingFloor(r: seq<(int, int)>, j: int)
    requires 0 <= j < |r|
    requires forall i :: 0 <= i < |r| ==> 1 <= r[i].0
    requires forall i, l :: 0 <= i < l < |r| ==> r[i].0 < r[l].0
    ensures r[j].0 >= j + 1
  {
    if j > 0 {
      IncreasingFloor(r, j - 1);
    }
  }

  lemma {:induction false} IncreasingCeiling(r: seq<(int, int)>, j: int)
    requires 0 <= j < |r|
    requires forall i :: 0 <= i < |r| ==> r[i].0 <= |r|
    requires forall i, l :: 0 <= i < l < |r| ==> r[i].0 < r[l].0
    ensures r[j].0 <= j + 1
    decreases |r| - j
  {
    if j < |r| - 1 {
      IncreasingCeiling(r, j + 1);
    }
  }
}
