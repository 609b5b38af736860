/**
 * The dashboard's statistics (src/app/components/dashboard/dashboard.ts):
 * the pure sums, counts and lookups over the three snapshots, the date
 * sort, and the `Dashboard` object whose `calculateStats` fills the stats
 * fields and sorts its order array in place.
 */
module DashboardComponent {
  import opened Wrappers
  import opened Seqs
  import opened ProductModel
  import opened OrderModel
  import opened SupplierModel
  import opened EntityStore
  import opened Queries
  import opened Text
  import OrderService
  import ProductService

  /** `products.reduce((sum, p) => sum + p.price * p.quantity, 0)`: never negative without negative prices or quantities. */
  function InventoryValue(products: seq<Product>): (r: real)
    ensures (forall i :: 0 <= i < |products| ==> products[i].price >= 0.0 && products[i].quantity >= 0) ==> r >= 0.0
  {
    if products == [] then 0.0
    else
      var p := products[0];
      assert p.price >= 0.0 && p.quantity >= 0 ==> p.price * p.quantity as real >= 0.0;
      p.price * p.quantity as real + InventoryValue(products[1..])
  }

  /** `products.reduce((sum, p) => sum + p.quantity, 0)`: never negative without negative quantities. */
  function StockUnits(products: seq<Product>): (r: int)
    ensures (forall i :: 0 <= i < |products| ==> products[i].quantity >= 0) ==> r >= 0
  {
    if products == [] then 0 else products[0].quantity + StockUnits(products[1..])
  }

  /** `products.reduce((sum, p) => sum + p.price, 0)`. */
  function PriceSum(products: seq<Product>): (r: real)
  {
    if products == [] then 0.0 else products[0].price + PriceSum(products[1..])
  }

  /** The inventory value of a concatenation of snapshots is the sum of their values. */
  lemma {:induction false} InventoryValueAppend(a: seq<Product>, b: seq<Product>)
    ensures InventoryValue(a + b) == InventoryValue(a) + InventoryValue(b)
  {
    if a == [] {
      assert a + b == b;
    } else {
      var v := a[0].price * a[0].quantity as real;
      assert (a + b)[0] == a[0] && (a + b)[1..] == a[1..] + b;
      assert InventoryValue(a + b) == v + InventoryValue(a[1..] + b);
      assert InventoryValue(a) == v + InventoryValue(a[1..]);
      InventoryValueAppend(a[1..], b);
    }
  }

  /** The stock units of a concatenation of snapshots is the sum of their units. */
  lemma {:induction false} StockUnitsAppend(a: seq<Product>, b: seq<Product>)
    ensures StockUnits(a + b) == StockUnits(a) + StockUnits(b)
  {
    if a == [] {
      assert a + b == b;
    } else {
      assert (a + b)[1..] == a[1..] + b;
      StockUnitsAppend(a[1..], b);
    }
  }

  /** The price sum of a concatenation of snapshots is the sum of their price sums. */
  lemma {:induction false} PriceSumAppend(a: seq<Product>, b: seq<Product>)
    ensures PriceSum(a + b) == PriceSum(a) + PriceSum(b)
  {
    if a == [] {
      assert a + b == b;
    } else {
      assert (a + b)[1..] == a[1..] + b;
      PriceSumAppend(a[1..], b);
    }
  }

  /** Prices between `lo` and `hi` sum to between `n * lo` and `n * hi`. */
  lemma {:induction false} PriceSumBounds(products: seq<Product>, lo: real, hi: real)
    requires forall i :: 0 <= i < |products| ==> lo <= products[i].price <= hi
    ensures |products| as real * lo <= PriceSum(products) <= |products| as real * hi
  {
    if products != [] {
      var rest := products[1..];
      PriceSumBounds(rest, lo, hi);
      assert PriceSum(products) == products[0].price + PriceSum(rest);
      BoundsStep(|rest| as real, |products| as real, lo, hi, products[0].price, PriceSum(rest));
    }
  }

  /** One more value between `lo` and `hi` keeps a sum of `n` such values between the bounds for `n + 1`. */
  lemma BoundsStep(n: real, n1: real, lo: real, hi: real, p: real, sum: real)
    requires n1 == n + 1.0
    requires n * lo <= sum <= n * hi && lo <= p <= hi
    ensures n1 * lo <= p + sum <= n1 * hi
  {
  }

  /** `getAverageProductPrice()`: 0 for no products, otherwise the sum of the prices over their count. */
  function AverageProductPrice(products: seq<Product>): (r: real)
    ensures products == [] ==> r == 0.0
    ensures products != [] ==> r * |products| as real == PriceSum(products)
  {
    if |products| == 0 then 0.0 else PriceSum(products) / |products| as real
  }

  /** A quotient by a positive count of a sum between `n * lo` and `n * hi` lies between `lo` and `hi`. */
  lemma QuotientBounds(sum: real, n: real, lo: real, hi: real)
    requires n > 0.0 && n * lo <= sum <= n * hi
    ensures lo <= sum / n <= hi
  {
  }

  /** The average lies between the cheapest and the dearest price. */
  lemma AverageWithinBounds(products: seq<Product>, lo: real, hi: real)
    requires products != []
    requires forall i :: 0 <= i < |products| ==> lo <= products[i].price <= hi
    ensures lo <= AverageProductPrice(products) <= hi
  {
    PriceSumBounds(products, lo, hi);
    QuotientBounds(PriceSum(products), |products| as real, lo, hi);
  }

  /** `completedOrdersCount`: with the pending orders it never exceeds the number of orders. */
  function CompletedOrdersCount(orders: seq<Order>): (r: nat)
    ensures orders == [] ==> r == 0
    ensures r <= |orders|
    ensures r + |OrdersWithStatus(orders, Pending)| <= |orders|
  {
    PendingPlusCompletedAtMostAll(orders);
    |OrdersWithStatus(orders, Completed)|
  }

  /** One more order raises the completed count by one exactly when it is COMPLETED. */
  lemma {:induction false} CompletedCountStep(orders: seq<Order>, o: Order)
    ensures CompletedOrdersCount(orders + [o]) == CompletedOrdersCount(orders) + (if HasStatus(o, Completed) then 1 else 0)
  {
    FilterAppend(StatusIs(Completed), orders, [o]);
  }

  /**
   * `getProductName(id)`: the name of the first product with that id; the
   * placeholder when there is none or its name is empty.
   */
  function GetProductName(products: seq<Product>, productId: int): (r: string)
    ensures !HasId(products, ProductService.ProductId, productId) ==> r == ProductPlaceholder(productId)
    ensures forall j :: IsFirstMatch(products, ProductService.ProductId, productId, j) ==>
      r == if products[j].name != "" then products[j].name else ProductPlaceholder(productId)
  {
    match Find(products, ProductService.ProductId, productId)
    case None => ProductPlaceholder(productId)
    case Some(p) =>
      assert forall j :: IsFirstMatch(products, ProductService.ProductId, productId, j) ==> products[j] == p by {
        forall j | IsFirstMatch(products, ProductService.ProductId, productId, j)
          ensures products[j] == p
        {
          var j0 :| IsFirstMatch(products, ProductService.ProductId, productId, j0) && products[j0] == p;
          FirstMatchUnique(products, ProductService.ProductId, productId, j);
          FirstMatchUnique(products, ProductService.ProductId, productId, j0);
        }
      }
      if p.name != "" then p.name else ProductPlaceholder(productId)
  }

  /** Newest first: no order is older than one after it. */
  predicate SortedByDateDesc(s: seq<Order>) {
    forall i, j :: 0 <= i < j < |s| ==> s[i].orderDate >= s[j].orderDate
  }

  /** Puts `o` before the first order that is not newer than it. */
  function InsertByDate(o: Order, s: seq<Order>): (r: seq<Order>)
    requires SortedByDateDesc(s)
    ensures |r| == |s| + 1
    ensures forall k :: 0 <= k < |r| ==> r[k] == o || r[k] in s
    ensures multiset(r) == multiset(s) + multiset{o}
    ensures SortedByDateDesc(r)
  {
    if s == [] || o.orderDate >= s[0].orderDate then [o] + s
    else
      var rest := InsertByDate(o, s[1..]);
      assert forall k :: 0 <= k < |rest| ==> s[0].orderDate >= rest[k].orderDate by {
        forall k | 0 <= k < |rest|
          ensures s[0].orderDate >= rest[k].orderDate
        {
          if rest[k] != o {
            var m :| 0 <= m < |s[1..]| && s[1..][m] == rest[k];
            assert s[m + 1] == rest[k];
          }
        }
      }
      assert s == [s[0]] + s[1..];
      [s[0]] + rest
  }

  /** Two orders out of date order swap places. */
  lemma SortTwo(a: Order, b: Order)
    requires a.orderDate < b.orderDate
    ensures SortByDateDesc([a, b]) == [b, a]
  {
    assert [a, b][1..] == [b];
    assert SortByDateDesc([b]) == [b];
  }

  /**
   * `orders.sort((a, b) => b.orderDate - a.orderDate)`: newest first. The
   * sort is stable, so of two orders with the same date the earlier one
   * stays first.
   */
  function SortByDateDesc(s: seq<Order>): (r: seq<Order>)
    ensures |r| == |s|
    ensures multiset(r) == multiset(s)
    ensures SortedByDateDesc(r)
  {
    if s == [] then []
    else
      assert s == [s[0]] + s[1..];
      InsertByDate(s[0], SortByDateDesc(s[1..]))
  }

  /** Sorting orders that are already newest first changes nothing. */
  lemma {:induction false} SortSortedIsIdentity(s: seq<Order>)
    requires SortedByDateDesc(s)
    ensures SortByDateDesc(s) == s
  {
    if s != [] {
      SortSortedIsIdentity(s[1..]);
      assert s == [s[0]] + s[1..];
    }
  }

  /** Sorting twice is sorting once. */
  lemma SortIdempotent(s: seq<Order>)
    ensures SortByDateDesc(SortByDateDesc(s)) == SortByDateDesc(s)
  {
    SortSortedIsIdentity(SortByDateDesc(s));
  }

  function Min(a: int, b: int): int { if a < b then a else b }

  /** `recentOrders`: the first five of the sorted orders, or all of them when there are fewer. */
  function RecentOrders(orders: seq<Order>): (r: seq<Order>)
    ensures |r| == Min(5, |orders|)
    ensures r <= SortByDateDesc(orders)
    ensures SortedByDateDesc(r)
    ensures multiset(r) <= multiset(orders)
    ensures forall i, k :: 0 <= i < |r| && |r| <= k < |SortByDateDesc(orders)| ==> r[i].orderDate >= SortByDateDesc(orders)[k].orderDate
  {
    var sorted := SortByDateDesc(orders);
    var r := sorted[..Min(5, |orders|)];
    assert sorted == r + sorted[|r|..];
    assert multiset(sorted) == multiset(r) + multiset(sorted[|r|..]);
    r
  }

  /**
   * The dashboard's state. `orders` is the array the order service emitted,
   * which after a failed request is the service's fallback array itself.
   */
  class Dashboard {
    var products: seq<Product>
    var orders: MutableList<Order>
    var suppliers: seq<Supplier>
    var totalProducts: int
    var totalSuppliers: int
    var totalInventoryValue: real
    var lowStockProducts: seq<Product>
    var pendingOrders: seq<Order>
    var recentOrders: seq<Order>

    constructor ()
      ensures products == [] && fresh(orders) && orders.items == [] && suppliers == []
      ensures totalProducts == 0 && totalSuppliers == 0 && totalInventoryValue == 0.0
      ensures lowStockProducts == [] && pendingOrders == [] && recentOrders == []
    {
      products := [];
      orders := new MutableList([]);
      suppliers := [];
      totalProducts := 0;
      totalSuppliers := 0;
      totalInventoryValue := 0.0;
      lowStockProducts := [];
      pendingOrders := [];
      recentOrders := [];
    }

    /** The `next` handler of `loadProducts`. */
    method ReceiveProducts(data: seq<Product>)
      modifies this
      ensures products == data
      ensures orders == old(orders) && suppliers == old(suppliers)
      ensures totalProducts == old(totalProducts) && totalSuppliers == old(totalSuppliers)
      ensures totalInventoryValue == old(totalInventoryValue) && lowStockProducts == old(lowStockProducts)
      ensures pendingOrders == old(pendingOrders) && recentOrders == old(recentOrders)
    {
      products := data;
    }

    /** The `next` handler of `loadOrders`: the emitted array is kept by reference. */
    method ReceiveOrders(data: MutableList<Order>)
      modifies this
      ensures orders == data
      ensures products == old(products) && suppliers == old(suppliers)
      ensures totalProducts == old(totalProducts) && totalSuppliers == old(totalSuppliers)
      ensures totalInventoryValue == old(totalInventoryValue) && lowStockProducts == old(lowStockProducts)
      ensures pendingOrders == old(pendingOrders) && recentOrders == old(recentOrders)
    {
      orders := data;
    }

    /** The `next` handler of `loadSuppliers`. */
    method ReceiveSuppliers(data: seq<Supplier>)
      modifies this
      ensures suppliers == data
      ensures products == old(products) && orders == old(orders)
      ensures totalProducts == old(totalProducts) && totalSuppliers == old(totalSuppliers)
      ensures totalInventoryValue == old(totalInventoryValue) && lowStockProducts == old(lowStockProducts)
      ensures pendingOrders == old(pendingOrders) && recentOrders == old(recentOrders)
    {
      suppliers := data;
    }

    /**
     * `calculateStats()`. The pending orders are taken before the sort, in
     * the array's order at that moment; the sort then reorders the array
     * itself, and the recent orders are its first five.
     */
    method CalculateStats()
      modifies this, orders
      ensures products == old(products) && suppliers == old(suppliers) && orders == old(orders)
      ensures totalProducts == |products| && totalSuppliers == |suppliers|
      ensures totalInventoryValue == InventoryValue(products)
      ensures lowStockProducts == LowStockOf(products)
      ensures pendingOrders == OrdersWithStatus(old(orders.items), Pending)
      ensures orders.items == SortByDateDesc(old(orders.items))
      ensures recentOrders == RecentOrders(old(orders.items))
      ensures recentOrders <= orders.items
    {
      totalProducts := |products|;
      totalSuppliers := |suppliers|;
      totalInventoryValue := InventoryValue(products);
      lowStockProducts := LowStockOf(products);
      pendingOrders := OrdersWithStatus(orders.items, Pending);
      var sorted := SortByDateDesc(orders.items);
      orders.items := sorted;
      recentOrders := sorted[..Min(5, |sorted|)];
    }
  }

  /** The two-product example: value 70, the second product low on stock, 6 units, average 15. */
  lemma ProductStatsExample()
    ensures var ps := [
        Product(1, "A", None, 10.0, 5, 2, 1, None, None),
        Product(2, "B", None, 20.0, 1, 3, 1, None, None)
      ];
      && InventoryValue(ps) == 70.0
      && LowStockOf(ps) == [ps[1]]
      && StockUnits(ps) == 6
      && AverageProductPrice(ps) == 15.0
  {
    var ps := [
      Product(1, "A", None, 10.0, 5, 2, 1, None, None),
      Product(2, "B", None, 20.0, 1, 3, 1, None, None)
    ];
    assert ps[1..][1..] == [];
    assert PriceSum(ps) == 30.0;
  }

  /** The two-order example: yesterday's pending order and today's completed one. */
  lemma OrderStatsExample(now: int)
    ensures var os := [
        Order(1, 1, 1, now - OrderService.DayMillis, In, None, None, Some(Pending)),
        Order(2, 1, 1, now, Out, None, None, Some(Completed))
      ];
      && OrdersWithStatus(os, Pending) == [os[0]]
      && RecentOrders(os) == [os[1], os[0]]
  {
    var os := [
      Order(1, 1, 1, now - OrderService.DayMillis, In, None, None, Some(Pending)),
      Order(2, 1, 1, now, Out, None, None, Some(Completed))
    ];
    assert os[1..][1..] == [];
    assert Filter(StatusIs(Pending), os[1..]) == [];
    assert Filter(StatusIs(Pending), os) == [os[0]];
    SortTwo(os[0], os[1]);
  }

  /**
   * Calculating the stats twice over the same snapshots need not give the
   * same pending list: the first call sorts the orders, so the second one
   * filters them in date order.
   */
  method SecondCalculationReordersPending() returns (first: seq<Order>, second: seq<Order>)
    ensures first != second
    ensures multiset(first) == multiset(second)
  {
    var older := Order(1, 1, 1, 100, In, None, None, Some(Pending));
    var newer := Order(2, 1, 1, 200, In, None, None, Some(Pending));
    BothPending(older, newer);
    BothPending(newer, older);
    SortTwo(older, newer);
    var list := new MutableList([older, newer]);
    var d := new Dashboard();
    d.ReceiveOrders(list);
    d.CalculateStats();
    first := d.pendingOrders;
    d.CalculateStats();
    second := d.pendingOrders;
  }

  /** Filtering two pending orders for PENDING keeps both, in order. */
  lemma BothPending(a: Order, b: Order)
    requires HasStatus(a, Pending) && HasStatus(b, Pending)
    ensures OrdersWithStatus([a, b], Pending) == [a, b]
  {
    FilterKeepsAll(StatusIs(Pending), [a, b]);
  }

  /**
   * With the order service's requests failing, an order created newer than
   * every seed order is appended to the fallback array; the dashboard
   * receives that very array from `getAll`, and its sort moves the new
   * order to the front of the service's fallback data, the seed sorted
   * behind it.
   */
  method DashboardSortReordersOrderFallback(t1: int, t2: int, t3: int, o: Order) returns (s: Store<Order>, r: Order)
    requires o.orderDate > t1 && o.orderDate > t2 && o.orderDate > t3 - OrderService.DayMillis
    ensures r == o.(id := 4)
    ensures s.Fallback() == [r] + SortByDateDesc(OrderService.MockOrders(t1, t2, t3))
  {
    s := OrderService.NewOrderService(t1, t2, t3, Failed);
    OrderService.SeedNextIdIsFour(t1, t2, t3);
    r := s.Create(o, Failed);
    var emitted := s.GetAll(Failed);
    var d := new Dashboard();
    d.ReceiveOrders(emitted);
    ghost var before := s.fallback.items;
    d.CalculateStats();
    assert s.fallback.items == SortByDateDesc(before);
    MockSortsBehind(t1, t2, t3, r);
  }

  /** An order newer than every seed order sorts in front of the sorted seed. */
  lemma MockSortsBehind(t1: int, t2: int, t3: int, r: Order)
    requires r.orderDate > t1 && r.orderDate > t2 && r.orderDate > t3 - OrderService.DayMillis
    ensures SortByDateDesc(OrderService.MockOrders(t1, t2, t3) + [r]) == [r] + SortByDateDesc(OrderService.MockOrders(t1, t2, t3))
  {
    var m := OrderService.MockOrders(t1, t2, t3);
    assert forall i :: 0 <= i < |m| ==> m[i].orderDate < r.orderDate;
    NewestSortsFirst(m, r);
  }

  /** An order no older than any in a newest-first list can lead it. */
  lemma SortedCons(o: Order, s: seq<Order>)
    requires SortedByDateDesc(s)
    requires forall i :: 0 <= i < |s| ==> s[i].orderDate <= o.orderDate
    ensures SortedByDateDesc([o] + s)
  {
    var t := [o] + s;
    forall i, j | 0 <= i < j < |t|
      ensures t[i].orderDate >= t[j].orderDate
    {
      assert t[j] == s[j - 1];
      if i > 0 {
        assert t[i] == s[i - 1];
      }
    }
  }

  /** Sorting a list is inserting its head into its sorted tail. */
  lemma SortCons(x: Order, s: seq<Order>)
    ensures SortByDateDesc([x] + s) == InsertByDate(x, SortByDateDesc(s))
  {
    assert ([x] + s)[0] == x && ([x] + s)[1..] == s;
  }

  /** An order older than the head of a list is inserted after the head. */
  lemma InsertBehindNewer(x: Order, o: Order, s: seq<Order>)
    requires SortedByDateDesc(s) && SortedByDateDesc([o] + s)
    requires x.orderDate < o.orderDate
    ensures InsertByDate(x, [o] + s) == [o] + InsertByDate(x, s)
  {
    assert ([o] + s)[0] == o && ([o] + s)[1..] == s;
  }

  /** The sorted list holds the same orders, so it is newer than nothing `s` is not newer than. */
  lemma SortedNoNewer(s: seq<Order>, o: Order)
    requires forall i :: 0 <= i < |s| ==> s[i].orderDate < o.orderDate
    ensures forall i :: 0 <= i < |SortByDateDesc(s)| ==> SortByDateDesc(s)[i].orderDate < o.orderDate
  {
    var t := SortByDateDesc(s);
    forall i | 0 <= i < |t|
      ensures t[i].orderDate < o.orderDate
    {
      assert t[i] in multiset(t);
      assert t[i] in multiset(s);
    }
  }

  /**
   * Sorting a list with an order appended that is strictly newer than all
   * of it puts that order first and sorts the rest behind it.
   */
  lemma {:induction false} NewestSortsFirst(s: seq<Order>, o: Order)
    requires forall i :: 0 <= i < |s| ==> s[i].orderDate < o.orderDate
    ensures SortByDateDesc(s + [o]) == [o] + SortByDateDesc(s)
    decreases |s|, 1
  {
    if s == [] {
      assert s + [o] == [o];
    } else {
      var x, tail := s[0], s[1..];
      assert s + [o] == [x] + (tail + [o]) && [x] + tail == s;
      assert SortByDateDesc(s + [o]) == [o] + SortByDateDesc(s) by {
        OlderTail(s, o);
        NewestSortsFirstCons(x, tail, o);
      }
    }
  }

  /** The tail of a list older than `o` is older than `o`. */
  lemma OlderTail(s: seq<Order>, o: Order)
    requires s != []
    requires forall i :: 0 <= i < |s| ==> s[i].orderDate < o.orderDate
    ensures forall i :: 0 <= i < |s[1..]| ==> s[1..][i].orderDate < o.orderDate
  {
  }

  /** `NewestSortsFirst` for a list given as its head and its tail. */
  lemma {:induction false} NewestSortsFirstCons(x: Order, tail: seq<Order>, o: Order)
    requires x.orderDate < o.orderDate
    requires forall i :: 0 <= i < |tail| ==> tail[i].orderDate < o.orderDate
    ensures SortByDateDesc([x] + (tail + [o])) == [o] + SortByDateDesc([x] + tail)
    decreases |tail| + 1, 0
  {
    NewestSortsFirst(tail, o);
    NewerInFront(x, tail, o);
  }

  /** The inductive step of `NewestSortsFirst`, with the step for the tail given. */
  lemma NewerInFront(x: Order, tail: seq<Order>, o: Order)
    requires x.orderDate < o.orderDate
    requires forall i :: 0 <= i < |tail| ==> tail[i].orderDate < o.orderDate
    requires SortByDateDesc(tail + [o]) == [o] + SortByDateDesc(tail)
    ensures SortByDateDesc([x] + (tail + [o])) == [o] + SortByDateDesc([x] + tail)
  {
    var sortedTail := SortByDateDesc(tail);
    SortedNoNewer(tail, o);
    SortedCons(o, sortedTail);
    assert SortByDateDesc([x] + (tail + [o])) == InsertByDate(x, [o] + sortedTail) by {
      SortCons(x, tail + [o]);
    }
    InsertBehindNewer(x, o, sortedTail);
    assert SortByDateDesc([x] + tail) == InsertByDate(x, sortedTail) by {
      SortCons(x, tail);
    }
  }
}
