/**
 * The stock labelling of the product list
 * (src/app/components/product-list/product-list.ts).
 */
module ProductListComponent {
  import opened ProductModel

  /** The CSS classes that go with the three stock labels. */
  const StatusCritical: string := "status-critical"
  const StatusWarning: string := "status-warning"
  const StatusGood: string := "status-good"

  /** Exactly one of the three labels; Out of Stock takes precedence over Low Stock. */
  function GetStockStatus(p: Product): (r: string)
    ensures r == OutOfStock || r == LowStock || r == InStock
    ensures r == OutOfStock <==> p.quantity == 0
    ensures r == LowStock <==> p.quantity != 0 && p.quantity <= p.reorderLevel
    ensures r == InStock <==> p.quantity != 0 && p.quantity > p.reorderLevel
  {
    if p.quantity == 0 then OutOfStock
    else if p.quantity <= p.reorderLevel then LowStock
    else InStock
  }

  /** The class for a product, in step with its label. */
  function GetStatusClass(p: Product): (r: string)
    ensures r == StatusCritical <==> GetStockStatus(p) == OutOfStock
    ensures r == StatusWarning <==> GetStockStatus(p) == LowStock
    ensures r == StatusGood <==> GetStockStatus(p) == InStock
  {
    assert |StatusCritical| != |StatusWarning| && |StatusWarning| != |StatusGood| && |StatusCritical| != |StatusGood|;
    if p.quantity == 0 then StatusCritical
    else if p.quantity <= p.reorderLevel then StatusWarning
    else StatusGood
  }

  /** The list labels a product exactly as its `ProductDetail` object does. */
  lemma AgreesWithProductDetail(d: ProductDetail)
    ensures GetStockStatus(d.AsProduct()) == d.GetStockStatus()
  {
  }
}
