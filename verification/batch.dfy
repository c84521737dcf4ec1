/**
 * The image source client: `loadCats` issues TOTAL_CATS sequential requests
 * and keeps, in order, one cat per request that succeeded (script.js:26-41).
 * The network is not modelled: each request's outcome is an input.
 */
module Batch {
  /** Cats requested per session (`TOTAL_CATS`). */
  const TotalCats: nat := 15

  /** Prefix of the image URL built from a fetched id. */
  const ImageBase: string := "https://cataas.com/cat/"

  /** One fetched image reference `{ id, url }`. */
  datatype Cat = Cat(id: string, url: string)

  /**
   * The outcome of one request: the id read from the JSON body, or a failure
   * that the loop catches and logs (the request rejected, or the body not
   * parseable as JSON).
   */
  datatype FetchOutcome = Fetched(id: string) | Failed

  /** The image URL templated from an id: the fixed prefix followed by the id itself. */
  function ImageUrl(id: string): (url: string)
    ensures |url| == |ImageBase| + |id|
    ensures url[..|ImageBase|] == ImageBase && url[|ImageBase|..] == id
  {
    ImageBase + id
  }

  /**
   * The batch a sequence of request outcomes yields: one cat per success,
   * in request order, each with the URL templated from its id.
   */
  function Successes(outcomes: seq<FetchOutcome>): (cats: seq<Cat>)
    ensures |cats| <= |outcomes|
    ensures forall k :: 0 <= k < |cats| ==> cats[k].url == ImageUrl(cats[k].id)
  {
    if outcomes == [] then []
    else
      var n := |outcomes| - 1;
      Successes(outcomes[..n])
        + (if outcomes[n].Fetched? then [Cat(outcomes[n].id, ImageUrl(outcomes[n].id))] else [])
  }

  /** A failed request is skipped without disturbing the others: the batch of a concatenation is the concatenation of the batches. */
  lemma {:induction false} SuccessesAppend(a: seq<FetchOutcome>, b: seq<FetchOutcome>)
    ensures Successes(a + b) == Successes(a) + Successes(b)
    decreases |b|
  {
    if b == [] {
      assert a + b == a;
    } else {
      var n := |b| - 1;
      assert (a + b)[..|a + b| - 1] == a + b[..n];
      SuccessesAppend(a, b[..n]);
    }
  }

  /** The batch is empty exactly when every request failed. */
  lemma {:induction false} SuccessesEmpty(outcomes: seq<FetchOutcome>)
    ensures Successes(outcomes) == [] <==> forall i :: 0 <= i < |outcomes| ==> outcomes[i].Failed?
  {
    if outcomes != [] {
      var n := |outcomes| - 1;
      SuccessesEmpty(outcomes[..n]);
      assert forall i :: 0 <= i < n ==> outcomes[..n][i] == outcomes[i];
    }
  }

  /** When no request fails, the batch has one cat per request. */
  lemma {:induction false} SuccessesComplete(outcomes: seq<FetchOutcome>)
    requires forall i :: 0 <= i < |outcomes| ==> outcomes[i].Fetched?
    ensures |Successes(outcomes)| == |outcomes|
    ensures forall k :: 0 <= k < |outcomes| ==> Successes(outcomes)[k].id == outcomes[k].id
  {
    if outcomes != [] {
      var n := |outcomes| - 1;
      assert forall i :: 0 <= i < n ==> outcomes[..n][i] == outcomes[i];
      SuccessesComplete(outcomes[..n]);
    }
  }

  /**
   * The fetch loop of `loadCats`: one request per iteration, a success pushed
   * onto `results`, a failure skipped (script.js:29-41).
   */
  method FetchBatch(outcomes: seq<FetchOutcome>) returns (results: seq<Cat>)
    requires |outcomes| == TotalCats
    ensures results == Successes(outcomes)
  {
    results := [];
    for i := 0 to TotalCats
      invariant results == Successes(outcomes[..i])
    {
      assert outcomes[..i + 1][..i] == outcomes[..i];
      match outcomes[i]
      case Fetched(id) =>
        results := results + [Cat(id, ImageUrl(id))];
      case Failed =>
    }
    assert outcomes[..TotalCats] == outcomes;
  }
}
