/** `LowStockFilterPipe` (src/app/pipes/low-stock-filter.pipe.ts). */
module LowStockFilterPipe {
  import opened Wrappers
  import opened Seqs
  import opened ProductModel
  import opened Queries

  /**
   * `transform(products)`: a null or undefined input gives `[]` (an empty
   * array is not falsy, so it goes through the filter); otherwise the
   * low-stock products, in input order.
   */
  function Transform(products: Option<seq<Product>>): (r: seq<Product>)
    ensures products.None? ==> r == []
    ensures products.Some? ==>
      && |r| <= |products.value|
      && (forall i :: 0 <= i < |r| ==> r[i] in products.value && r[i].quantity <= r[i].reorderLevel)
      && (forall i :: 0 <= i < |products.value| && products.value[i].quantity <= products.value[i].reorderLevel
            ==> products.value[i] in r)
  {
    match products
    case None => []
    case Some(ps) => LowStockOf(ps)
  }

  /** Applying the pipe to its own output changes nothing. */
  lemma TransformIdempotent(products: Option<seq<Product>>)
    ensures Transform(Some(Transform(products))) == Transform(products)
  {
    if products.Some? {
      FilterIdempotent(QuantityAtOrBelowReorder, products.value);
    }
  }

  /** The output keeps the input's order. */
  lemma TransformKeepsOrder(products: seq<Product>)
    ensures IsSubsequence(Transform(Some(products)), products)
  {
    FilterIsSubsequence(QuantityAtOrBelowReorder, products);
  }
}
