/**
 * `OrderService` (src/services/order.service.ts): the entity store
 * instantiated for orders, its seed, and its order-specific queries.
 */
module OrderService {
  import opened Wrappers
  import opened Seqs
  import opened OrderModel
  import opened EntityStore
  import opened Queries

  /** One day in milliseconds. */
  const DayMillis: int := 86400000

  /**
   * `MOCK_ORDERS`. The seed's dates come from the clock when the module
   * loads, once per order, so the three readings `t1`, `t2` and `t3` (in
   * the order the entries are built) are parameters; the third order is
   * dated a day before its reading.
   */
  function MockOrders(t1: int, t2: int, t3: int): (r: seq<Order>)
    ensures |r| == 3
    ensures forall i :: 0 <= i < |r| ==> r[i].id == i + 1
    ensures r[0].orderDate == t1 && r[1].orderDate == t2 && r[2].orderDate == t3 - DayMillis
  {
    [
      Order(1, 1, 5, t1, In, None, Some("Restocking order"), Some(Completed)),
      Order(2, 2, 2, t2, Out, None, Some("Customer order"), Some(Completed)),
      Order(3, 3, 10, t3 - DayMillis, In, None, Some("Pending delivery"), Some(Pending))
    ]
  }

  function OrderId(o: Order): int { o.id }

  /** `{ ...order, id: n }`. */
  function WithOrderId(o: Order, n: int): (r: Order)
    ensures r.id == n
    ensures r.(id := o.id) == o
  {
    o.(id := n)
  }

  /** The service as the injector builds it: seeded, then loaded once. */
  method NewOrderService(t1: int, t2: int, t3: int, load: Remote<seq<Order>>) returns (s: Store<Order>)
    ensures s.Valid() && s.idOf == OrderId && s.withId == WithOrderId
    ensures fresh(s) && fresh(s.fallback) && s.Fallback() == MockOrders(t1, t2, t3)
    ensures load.Failed? ==> s.Aliased() && s.Cache() == MockOrders(t1, t2, t3)
    ensures load.Succeeded? ==> !s.Aliased() && s.Cache() == load.value
  {
    s := new Store.Load(MockOrders(t1, t2, t3), load, OrderId, WithOrderId);
  }

  /** Against the seed (ids 1 to 3), the first fallback create assigns id 4. */
  lemma SeedNextIdIsFour(t1: int, t2: int, t3: int)
    ensures NextId(MockOrders(t1, t2, t3), OrderId) == 4
  {
    var m := MockOrders(t1, t2, t3);
    assert m[1..][1..][1..] == [];
    assert MaxId(m[1..][1..], OrderId) == 3;
  }

  /**
   * With the initial load succeeding, so that the cache is a separate
   * array, a failing create appends the new order once to each.
   */
  method LoadedThenFallbackCreate(t1: int, t2: int, t3: int, loaded: seq<Order>, o: Order) returns (s: Store<Order>, r: Order)
    ensures r == o.(id := 4)
    ensures s.Fallback() == MockOrders(t1, t2, t3) + [r]
    ensures s.Cache() == loaded + [r]
  {
    s := NewOrderService(t1, t2, t3, Succeeded(loaded));
    SeedNextIdIsFour(t1, t2, t3);
    r := s.Create(o, Failed);
  }

  function ProductIdIs(productId: int): Order -> bool {
    (o: Order) => o.productId == productId
  }

  /**
   * `getByProductId(productId)`: the server's answer, or on failure the
   * fallback orders for that product, in their fallback order.
   */
  method GetByProductId(s: Store<Order>, productId: int, remote: Remote<seq<Order>>) returns (r: seq<Order>)
    ensures remote.Succeeded? ==> r == remote.value
    ensures remote.Failed? ==>
      && (forall i :: 0 <= i < |r| ==> r[i] in s.Fallback() && r[i].productId == productId)
      && (forall i :: 0 <= i < |s.Fallback()| && s.Fallback()[i].productId == productId ==> s.Fallback()[i] in r)
      && IsSubsequence(r, s.Fallback())
  {
    match remote
    case Succeeded(orders) =>
      r := orders;
    case Failed =>
      r := Filter(ProductIdIs(productId), s.fallback.items);
      FilterIsSubsequence(ProductIdIs(productId), s.fallback.items);
  }

  /**
   * `getOrdersByType(type)` AS WRITTEN: the filter sits inside `tap`, whose
   * result is discarded, so the current snapshot is emitted as it is.
   */
  method GetOrdersByType(s: Store<Order>, t: OrderType) returns (r: seq<Order>)
    ensures r == s.Cache()
  {
    r := s.cache.items;
  }

  /** `getPendingOrders()` AS WRITTEN: the snapshot, unfiltered, for the same reason. */
  method GetPendingOrders(s: Store<Order>) returns (r: seq<Order>)
    ensures r == s.Cache()
  {
    r := s.cache.items;
  }

  /** The as-written queries emit a COMPLETED order of type IN as an OUT order and as a pending one. */
  method OrderQueriesEmitUnfiltered(t1: int, t2: int, t3: int) returns (byType: seq<Order>, pending: seq<Order>)
    ensures MockOrders(t1, t2, t3)[0] in byType && MockOrders(t1, t2, t3)[0].orderType != Out
    ensures MockOrders(t1, t2, t3)[0] in pending && !HasStatus(MockOrders(t1, t2, t3)[0], Pending)
  {
    var s := NewOrderService(t1, t2, t3, Failed);
    byType := GetOrdersByType(s, Out);
    pending := GetPendingOrders(s);
  }
}
