/**
 * The order tracker (src/app/components/order-tracker/order-tracker.ts):
 * the order list with its type and status filters, the totals over the
 * filtered orders, and the product-name map it fills from the product list.
 */
module OrderTrackerComponent {
  import opened Wrappers
  import opened Seqs
  import opened ProductModel
  import opened OrderModel
  import opened Queries
  import opened Text

  /** `'ALL' | 'IN' | 'OUT'`. */
  datatype TypeFilter = AllTypes | TypeOnly(t: OrderType)

  /** `'ALL' | 'PENDING' | 'COMPLETED' | 'CANCELLED'`. */
  datatype StatusFilter = AllStatuses | StatusOnly(s: OrderStatus)

  /**
   * The test of `filteredOrders`: both active filters accept the order. An
   * order without a status passes only the 'ALL' status filter, and with
   * both filters at 'ALL' every order passes.
   */
  predicate Matches(f: TypeFilter, sf: StatusFilter, o: Order)
    ensures Matches(f, sf, o) && sf.StatusOnly? ==> HasStatus(o, sf.s)
    ensures Matches(f, sf, o) && f.TypeOnly? ==> o.orderType == f.t
    ensures f == AllTypes && sf == AllStatuses ==> Matches(f, sf, o)
  {
    && (f.AllTypes? || o.orderType == f.t)
    && (sf.AllStatuses? || o.status == Some(sf.s))
  }

  function MatchesFilters(f: TypeFilter, sf: StatusFilter): Order -> bool {
    (o: Order) => Matches(f, sf, o)
  }

  /** `get filteredOrders()`: the orders both filters accept, in order. */
  function FilteredOrders(orders: seq<Order>, f: TypeFilter, sf: StatusFilter): (r: seq<Order>)
    ensures |r| <= |orders|
    ensures forall i :: 0 <= i < |r| ==> r[i] in orders && Matches(f, sf, r[i])
    ensures forall i :: 0 <= i < |orders| && Matches(f, sf, orders[i]) ==> orders[i] in r
    ensures forall i :: 0 <= i < |r| && r[i].status == None ==> sf == AllStatuses
  {
    Filter(MatchesFilters(f, sf), orders)
  }

  /** The filtered list keeps the orders' relative order. */
  lemma FilteredOrdersKeepsOrder(orders: seq<Order>, f: TypeFilter, sf: StatusFilter)
    ensures IsSubsequence(FilteredOrders(orders, f, sf), orders)
  {
    FilterIsSubsequence(MatchesFilters(f, sf), orders);
  }

  /** With both filters at 'ALL' every order is shown. */
  lemma FilteredAllIsEverything(orders: seq<Order>)
    ensures FilteredOrders(orders, AllTypes, AllStatuses) == orders
  {
    FilterKeepsAll(MatchesFilters(AllTypes, AllStatuses), orders);
  }

  function CompletedOfType(t: OrderType): Order -> bool {
    (o: Order) => o.orderType == t && HasStatus(o, Completed)
  }

  /** Units of the shown orders that are COMPLETED and of type IN. */
  function GetTotalInflow(orders: seq<Order>, f: TypeFilter, sf: StatusFilter): (r: int)
    ensures orders == [] ==> r == 0
    ensures f == TypeOnly(Out) || (sf.StatusOnly? && sf.s != Completed) ==> r == 0
  {
    var counted := Filter(CompletedOfType(In), FilteredOrders(orders, f, sf));
    assert f == TypeOnly(Out) || (sf.StatusOnly? && sf.s != Completed) ==> counted == [] by {
      if counted != [] {
        assert counted[0] in FilteredOrders(orders, f, sf);
      }
    }
    TotalQuantity(counted)
  }

  /** Units of the shown orders that are COMPLETED and of type OUT. */
  function GetTotalOutflow(orders: seq<Order>, f: TypeFilter, sf: StatusFilter): (r: int)
    ensures orders == [] ==> r == 0
    ensures f == TypeOnly(In) || (sf.StatusOnly? && sf.s != Completed) ==> r == 0
  {
    var counted := Filter(CompletedOfType(Out), FilteredOrders(orders, f, sf));
    assert f == TypeOnly(In) || (sf.StatusOnly? && sf.s != Completed) ==> counted == [] by {
      if counted != [] {
        assert counted[0] in FilteredOrders(orders, f, sf);
      }
    }
    TotalQuantity(counted)
  }

  /** Appending one order adds its quantity to the inflow exactly when it is shown, of type IN and COMPLETED. */
  lemma {:induction false} InflowStep(orders: seq<Order>, f: TypeFilter, sf: StatusFilter, o: Order)
    ensures GetTotalInflow(orders + [o], f, sf) == GetTotalInflow(orders, f, sf)
      + (if Matches(f, sf, o) && o.orderType == In && HasStatus(o, Completed) then o.quantity else 0)
  {
    var keep := MatchesFilters(f, sf);
    FilterAppend(keep, orders, [o]);
    var shown := Filter(keep, orders);
    var tail := Filter(keep, [o]);
    FilterAppend(CompletedOfType(In), shown, tail);
    TotalQuantityAppend(Filter(CompletedOfType(In), shown), Filter(CompletedOfType(In), tail));
  }

  /** Appending one order adds its quantity to the outflow exactly when it is shown, of type OUT and COMPLETED. */
  lemma {:induction false} OutflowStep(orders: seq<Order>, f: TypeFilter, sf: StatusFilter, o: Order)
    ensures GetTotalOutflow(orders + [o], f, sf) == GetTotalOutflow(orders, f, sf)
      + (if Matches(f, sf, o) && o.orderType == Out && HasStatus(o, Completed) then o.quantity else 0)
  {
    var keep := MatchesFilters(f, sf);
    FilterAppend(keep, orders, [o]);
    var shown := Filter(keep, orders);
    var tail := Filter(keep, [o]);
    FilterAppend(CompletedOfType(Out), shown, tail);
    TotalQuantityAppend(Filter(CompletedOfType(Out), shown), Filter(CompletedOfType(Out), tail));
  }

  /** Only COMPLETED orders count: non-completed orders of the right type add nothing to the inflow. */
  lemma {:induction false} InflowCountsOnlyCompleted(orders: seq<Order>, f: TypeFilter, sf: StatusFilter, o: Order)
    requires !HasStatus(o, Completed)
    ensures GetTotalInflow(orders + [o], f, sf) == GetTotalInflow(orders, f, sf)
    ensures GetTotalOutflow(orders + [o], f, sf) == GetTotalOutflow(orders, f, sf)
  {
    InflowStep(orders, f, sf, o);
    OutflowStep(orders, f, sf, o);
  }

  /** `getPendingCount()`: the shown orders that are PENDING. */
  function GetPendingCount(orders: seq<Order>, f: TypeFilter, sf: StatusFilter): (r: nat)
    ensures orders == [] ==> r == 0
    ensures r <= |FilteredOrders(orders, f, sf)|
    ensures sf == StatusOnly(Completed) || sf == StatusOnly(Cancelled) ==> r == 0
  {
    var pending := OrdersWithStatus(FilteredOrders(orders, f, sf), Pending);
    assert sf == StatusOnly(Completed) || sf == StatusOnly(Cancelled) ==> pending == [] by {
      if pending != [] {
        assert pending[0] in FilteredOrders(orders, f, sf);
      }
    }
    |pending|
  }

  /** One more order raises the pending count by one exactly when it is shown and PENDING. */
  lemma {:induction false} PendingCountStep(orders: seq<Order>, f: TypeFilter, sf: StatusFilter, o: Order)
    ensures GetPendingCount(orders + [o], f, sf) == GetPendingCount(orders, f, sf)
      + (if Matches(f, sf, o) && HasStatus(o, Pending) then 1 else 0)
  {
    var keep := MatchesFilters(f, sf);
    FilterAppend(keep, orders, [o]);
    FilterAppend(StatusIs(Pending), Filter(keep, orders), Filter(keep, [o]));
  }

  /** `products.get(id)?.name || 'Product #' + id`: an absent product or an empty name falls back. */
  function GetProductName(products: map<int, Product>, productId: int): (r: string)
    ensures productId in products && products[productId].name != "" ==> r == products[productId].name
    ensures productId !in products || products[productId].name == "" ==> r == ProductPlaceholder(productId)
  {
    if productId in products && products[productId].name != "" then products[productId].name
    else ProductPlaceholder(productId)
  }

  /** `ps.forEach(p => m.set(p.id, p))`, as a value: later products overwrite earlier ones. */
  function PutAll(m: map<int, Product>, ps: seq<Product>): (r: map<int, Product>)
    ensures m.Keys <= r.Keys
    ensures forall i :: 0 <= i < |ps| ==> ps[i].id in r
    ensures forall k :: k in r ==> k in m || exists i :: 0 <= i < |ps| && ps[i].id == k
    decreases |ps|
  {
    if ps == [] then m
    else
      var last := ps[|ps| - 1];
      var rest := PutAll(m, ps[..|ps| - 1]);
      assert forall i :: 0 <= i < |ps| - 1 ==> ps[..|ps| - 1][i] == ps[i];
      rest[last.id := last]
  }

  /** The map holds, for each id in the list, the last product with that id. */
  lemma {:induction false} PutAllLastWins(m: map<int, Product>, ps: seq<Product>, j: nat)
    requires j < |ps|
    requires forall k :: j < k < |ps| ==> ps[k].id != ps[j].id
    ensures PutAll(m, ps)[ps[j].id] == ps[j]
    decreases |ps|
  {
    if j < |ps| - 1 {
      var init := ps[..|ps| - 1];
      assert init[j] == ps[j];
      PutAllLastWins(m, init, j);
    }
  }

  /** Ids the list does not mention keep the product they had. */
  lemma {:induction false} PutAllKeepsOthers(m: map<int, Product>, ps: seq<Product>, id: int)
    requires id in m
    requires forall i :: 0 <= i < |ps| ==> ps[i].id != id
    ensures PutAll(m, ps)[id] == m[id]
    decreases |ps|
  {
    if ps != [] {
      var init := ps[..|ps| - 1];
      assert forall i :: 0 <= i < |init| ==> init[i] == ps[i];
      PutAllKeepsOthers(m, init, id);
    }
  }

  /** The tracker's state: the orders, the product map, and the two filters. */
  class OrderTracker {
    var orders: seq<Order>
    var products: map<int, Product>
    var filter: TypeFilter
    var statusFilter: StatusFilter

    constructor ()
      ensures orders == [] && products == map[]
      ensures filter == AllTypes && statusFilter == AllStatuses
    {
      orders := [];
      products := map[];
      filter := AllTypes;
      statusFilter := AllStatuses;
    }

    /** `loadProducts()`'s `next` handler: every product is set in the map; nothing is removed. */
    method LoadProducts(ps: seq<Product>)
      modifies this
      ensures products == PutAll(old(products), ps)
      ensures orders == old(orders) && filter == old(filter) && statusFilter == old(statusFilter)
    {
      var i := 0;
      while i < |ps|
        invariant 0 <= i <= |ps|
        invariant products == PutAll(old(products), ps[..i])
        invariant orders == old(orders) && filter == old(filter) && statusFilter == old(statusFilter)
      {
        assert ps[..i + 1][..i] == ps[..i];
        products := products[ps[i].id := ps[i]];
        i := i + 1;
      }
      assert ps[..|ps|] == ps;
    }

    /** `loadData()`: the orders arrive, then the products are loaded into the map. */
    method LoadData(os: seq<Order>, ps: seq<Product>)
      modifies this
      ensures orders == os && products == PutAll(old(products), ps)
      ensures filter == old(filter) && statusFilter == old(statusFilter)
    {
      orders := os;
      LoadProducts(ps);
    }
  }
}
