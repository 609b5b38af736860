/**
 * `ProductService` (src/services/product.service.ts): the entity store
 * instantiated for products, its seed, and its low-stock query.
 */
module ProductService {
  import opened Wrappers
  import opened ProductModel
  import opened EntityStore
  import opened Queries

  /** `MOCK_PRODUCTS`, the fallback seed: ids 1 to 3, no negative price or quantity. */
  function MockProducts(): (r: seq<Product>)
    ensures |r| == 3
    ensures forall i :: 0 <= i < |r| ==> r[i].id == i + 1
    ensures forall i :: 0 <= i < |r| ==> r[i].price >= 0.0 && r[i].quantity >= 0
  {
    [
      Product(1, "Laptop", Some("High-performance laptop"), 999.99, 15, 5, 1, None, Some("Electronics")),
      Product(2, "Desktop Monitor", Some("27-inch 4K monitor"), 399.99, 8, 3, 1, None, Some("Electronics")),
      Product(3, "Keyboard", Some("Mechanical keyboard"), 149.99, 2, 10, 2, None, Some("Accessories"))
    ]
  }

  function ProductId(p: Product): int { p.id }

  /** `{ ...product, id: n }`. */
  function WithProductId(p: Product, n: int): (r: Product)
    ensures r.id == n
    ensures r.(id := p.id) == p
  {
    p.(id := n)
  }

  /** The service as the injector builds it: seeded, then loaded once. */
  method NewProductService(load: Remote<seq<Product>>) returns (s: Store<Product>)
    ensures s.Valid() && s.idOf == ProductId && s.withId == WithProductId
    ensures fresh(s) && fresh(s.fallback) && s.Fallback() == MockProducts()
    ensures load.Failed? ==> s.Aliased() && s.Cache() == MockProducts()
    ensures load.Succeeded? ==> !s.Aliased() && s.Cache() == load.value
  {
    s := new Store.Load(MockProducts(), load, ProductId, WithProductId);
  }

  /** Against the seed, the first fallback create assigns id 4. */
  lemma SeedNextIdIsFour()
    ensures NextId(MockProducts(), ProductId) == 4
  {
    assert MockProducts()[1..][1..][1..] == [];
    assert MaxId(MockProducts()[1..][1..], ProductId) == 3;
  }

  /**
   * The fallback id is computed over the fallback array only: after a
   * successful load that returned a product with id 4, a failed create
   * assigns id 4 again, and `findIndex` on the cache still finds the
   * server's product, not the new one.
   */
  method LoadedThenFallbackCreateReusesId(loaded: seq<Product>, p: Product) returns (s: Store<Product>, r: Product)
    requires HasId(loaded, ProductId, 4)
    ensures r == p.(id := 4)
    ensures s.Cache() == loaded + [r]
    ensures FindIndex(s.Cache(), ProductId, r.id) == FindIndex(loaded, ProductId, 4) < |loaded|
  {
    s := NewProductService(Succeeded(loaded));
    SeedNextIdIsFour();
    r := s.Create(p, Failed);
    FindIndexAppend(loaded, [r], ProductId, 4);
  }

  /**
   * With all REST calls failing: load, then create. The new product has
   * id 4, is pushed once onto the fallback array, and ends up in the last
   * two cache positions, because the cache was the fallback array.
   */
  method FailedLoadThenCreate(p: Product) returns (s: Store<Product>, r: Product)
    ensures r == p.(id := 4)
    ensures s.Fallback() == MockProducts() + [r]
    ensures s.Cache() == MockProducts() + [r, r]
    ensures !s.Aliased()
  {
    s := NewProductService(Failed);
    SeedNextIdIsFour();
    r := s.Create(p, Failed);
  }

  /**
   * `getLowStockProducts()` AS WRITTEN: the filter sits inside `tap`,
   * whose result is discarded, so the current snapshot is emitted as it is.
   */
  method GetLowStockProducts(s: Store<Product>) returns (r: seq<Product>)
    ensures r == s.Cache()
  {
    r := s.cache.items;
  }

  /** The as-written query emits a product that is not low on stock. */
  method LowStockQueryEmitsHealthyProduct() returns (r: seq<Product>)
    ensures MockProducts()[0] in r && !QuantityAtOrBelowReorder(MockProducts()[0])
  {
    var s := NewProductService(Failed);
    r := GetLowStockProducts(s);
  }

  /** Against the seed, only the keyboard (2 in stock, reorder at 10) is low on stock. */
  lemma SeedLowStockIsKeyboard()
    ensures LowStockOf(MockProducts()) == [MockProducts()[2]]
  {
    assert MockProducts()[1..][1..][1..] == [];
  }
}
