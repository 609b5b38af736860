/**
 * The `Product` record and its `ProductDetail` class
 * (src/models/product.model.ts).
 */
module ProductModel {
  import opened Wrappers

  /** A product as the REST API and the services carry it. Prices are exact reals. */
  datatype Product = Product(
    id: int,
    name: string,
    description: Option<string>,
    price: real,
    quantity: int,
    reorderLevel: int,
    supplierId: int,
    lastUpdated: Option<string>,
    category: Option<string>)

  /** The three stock labels every product view shows. */
  const OutOfStock: string := "Out of Stock"
  const LowStock: string := "Low Stock"
  const InStock: string := "In Stock"

  /** The low-stock test the dashboard, the pipe and the services write inline. */
  predicate QuantityAtOrBelowReorder(p: Product) {
    p.quantity <= p.reorderLevel
  }

  /** `ProductDetail`: a product object with derived stock status. Its fields are never reassigned. */
  class ProductDetail {
    const id: int
    const name: string
    const description: Option<string>
    const price: real
    const quantity: int
    const reorderLevel: int
    const supplierId: int
    const lastUpdated: Option<string>
    const category: Option<string>

    /** `Object.assign(this, product)`: every field is copied from `p`. */
    constructor (p: Product)
      ensures AsProduct() == p
    {
      id := p.id;
      name := p.name;
      description := p.description;
      price := p.price;
      quantity := p.quantity;
      reorderLevel := p.reorderLevel;
      supplierId := p.supplierId;
      lastUpdated := p.lastUpdated;
      category := p.category;
    }

    /** The record this object was built from. */
    function AsProduct(): Product {
      Product(id, name, description, price, quantity, reorderLevel, supplierId, lastUpdated, category)
    }

    predicate IsLowStock()
      ensures IsLowStock() <==> QuantityAtOrBelowReorder(AsProduct())
    {
      quantity <= reorderLevel
    }

    /** Out of Stock takes precedence over Low Stock. */
    function GetStockStatus(): (r: string)
      ensures r == OutOfStock <==> quantity == 0
      ensures r == LowStock <==> quantity != 0 && IsLowStock()
      ensures r == InStock <==> quantity != 0 && !IsLowStock()
      ensures r == OutOfStock && reorderLevel >= 0 ==> IsLowStock()
    {
      if quantity == 0 then OutOfStock
      else if IsLowStock() then LowStock
      else InStock
    }
  }

  /** An Out of Stock product with a non-negative reorder level is also low on stock. */
  lemma OutOfStockIsLowStock(d: ProductDetail)
    requires d.reorderLevel >= 0
    ensures d.GetStockStatus() == OutOfStock ==> d.IsLowStock()
  {
  }
}
