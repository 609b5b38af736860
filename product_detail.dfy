/**
 * The product detail page's derived values
 * (src/app/components/product-detail/product-detail.ts): the stock label
 * and class of the product being shown, if any, and the totals of the
 * orders loaded for it.
 */
module ProductDetailComponent {
  import opened Wrappers
  import opened Seqs
  import opened ProductModel
  import opened OrderModel
  import opened Queries
  import ProductListComponent

  /** `''` while no product is loaded; otherwise the three-way label. */
  function GetStockStatus(product: Option<Product>): (r: string)
    ensures product.None? <==> r == ""
    ensures product.Some? ==>
      && (r == OutOfStock <==> product.value.quantity == 0)
      && (r == LowStock <==> product.value.quantity != 0 && product.value.quantity <= product.value.reorderLevel)
      && (r == InStock <==> product.value.quantity != 0 && product.value.quantity > product.value.reorderLevel)
  {
    match product
    case None => ""
    case Some(p) =>
      if p.quantity == 0 then OutOfStock
      else if p.quantity <= p.reorderLevel then LowStock
      else InStock
  }

  /** `''` while no product is loaded; otherwise the class matching the label. */
  function GetStatusClass(product: Option<Product>): (r: string)
    ensures r == "" <==> GetStockStatus(product) == ""
    ensures r == ProductListComponent.StatusCritical <==> GetStockStatus(product) == OutOfStock
    ensures r == ProductListComponent.StatusWarning <==> GetStockStatus(product) == LowStock
    ensures r == ProductListComponent.StatusGood <==> GetStockStatus(product) == InStock
  {
    match product
    case None => ""
    case Some(p) =>
      assert |ProductListComponent.StatusCritical| != |ProductListComponent.StatusWarning|;
      assert |ProductListComponent.StatusGood| !in {|ProductListComponent.StatusCritical|, |ProductListComponent.StatusWarning|};
      if p.quantity == 0 then ProductListComponent.StatusCritical
      else if p.quantity <= p.reorderLevel then ProductListComponent.StatusWarning
      else ProductListComponent.StatusGood
  }

  /** The detail page labels a loaded product exactly as the list does. */
  lemma AgreesWithProductList(p: Product)
    ensures GetStockStatus(Some(p)) == ProductListComponent.GetStockStatus(p)
    ensures GetStatusClass(Some(p)) == ProductListComponent.GetStatusClass(p)
  {
  }

  /** Units of all IN orders for the product, whatever their status: part of the total of all orders. */
  function GetTotalInflow(orders: seq<Order>): (r: int)
    ensures orders == [] ==> r == 0
    ensures (forall i :: 0 <= i < |orders| ==> orders[i].quantity >= 0) ==> 0 <= r <= TotalQuantity(orders)
  {
    OrdersOfTypeSplit(orders);
    TotalQuantity(OrdersOfType(orders, In))
  }

  /** Units of all OUT orders for the product, whatever their status: part of the total of all orders. */
  function GetTotalOutflow(orders: seq<Order>): (r: int)
    ensures orders == [] ==> r == 0
    ensures (forall i :: 0 <= i < |orders| ==> orders[i].quantity >= 0) ==> 0 <= r <= TotalQuantity(orders)
  {
    OrdersOfTypeSplit(orders);
    TotalQuantity(OrdersOfType(orders, Out))
  }

  /**
   * One more order adds its quantity to the inflow exactly when it is IN,
   * and to the outflow exactly when it is OUT, whatever its status.
   */
  lemma {:induction false} DetailFlowStep(orders: seq<Order>, o: Order)
    ensures GetTotalInflow(orders + [o]) == GetTotalInflow(orders) + (if o.orderType == In then o.quantity else 0)
    ensures GetTotalOutflow(orders + [o]) == GetTotalOutflow(orders) + (if o.orderType == Out then o.quantity else 0)
  {
    FilterAppend(TypeIs(In), orders, [o]);
    TotalQuantityAppend(OrdersOfType(orders, In), OrdersOfType([o], In));
    FilterAppend(TypeIs(Out), orders, [o]);
    TotalQuantityAppend(OrdersOfType(orders, Out), OrdersOfType([o], Out));
  }

  /** Inflow and outflow together account for every order's quantity. */
  lemma InflowPlusOutflow(orders: seq<Order>)
    ensures GetTotalInflow(orders) + GetTotalOutflow(orders) == TotalQuantity(orders)
  {
    OrdersOfTypeSplit(orders);
  }

  /** Inflow ignores status: changing an order's status leaves it as it is. */
  lemma InflowIgnoresStatus(orders: seq<Order>, i: nat, st: Option<OrderStatus>)
    requires i < |orders|
    ensures GetTotalInflow(orders[i := orders[i].(status := st)]) == GetTotalInflow(orders)
  {
    InUnitsIgnoreStatus(orders, i, st);
  }

  /** The units of the IN orders do not depend on any order's status. */
  lemma {:induction false} InUnitsIgnoreStatus(orders: seq<Order>, i: nat, st: Option<OrderStatus>)
    requires i < |orders|
    ensures TotalQuantity(OrdersOfType(orders[i := orders[i].(status := st)], In)) == TotalQuantity(OrdersOfType(orders, In))
  {
    var changed := orders[i := orders[i].(status := st)];
    if i == 0 {
      assert changed[1..] == orders[1..];
    } else {
      assert changed[1..] == orders[1..][i - 1 := orders[i].(status := st)];
      InUnitsIgnoreStatus(orders[1..], i - 1, st);
      var head := if orders[0].orderType == In then [orders[0]] else [];
      assert OrdersOfType(changed, In) == head + OrdersOfType(changed[1..], In);
      assert OrdersOfType(orders, In) == head + OrdersOfType(orders[1..], In);
      TotalQuantityAppend(head, OrdersOfType(changed[1..], In));
      TotalQuantityAppend(head, OrdersOfType(orders[1..], In));
    }
  }
}
