/**
 * The snapshot filters and sums that several services and components
 * write inline: the low-stock filter, the status and type filters, and
 * the `reduce` over order quantities.
 */
module Queries {
  import opened Wrappers
  import opened Seqs
  import opened ProductModel
  import opened OrderModel

  /** `products.filter(p => p.quantity <= p.reorderLevel)`. */
  function LowStockOf(products: seq<Product>): (r: seq<Product>)
    ensures |r| <= |products|
    ensures forall i :: 0 <= i < |r| ==> r[i] in products && r[i].quantity <= r[i].reorderLevel
    ensures forall i :: 0 <= i < |products| && products[i].quantity <= products[i].reorderLevel ==> products[i] in r
  {
    Filter(QuantityAtOrBelowReorder, products)
  }

  function TypeIs(t: OrderType): Order -> bool {
    (o: Order) => o.orderType == t
  }

  function StatusIs(st: OrderStatus): Order -> bool {
    (o: Order) => HasStatus(o, st)
  }

  /** `orders.filter(o => o.type === t)`. */
  function OrdersOfType(orders: seq<Order>, t: OrderType): (r: seq<Order>)
    ensures |r| <= |orders|
    ensures forall i :: 0 <= i < |r| ==> r[i] in orders && r[i].orderType == t
    ensures forall i :: 0 <= i < |orders| && orders[i].orderType == t ==> orders[i] in r
  {
    Filter(TypeIs(t), orders)
  }

  /** `orders.filter(o => o.status === st)`: an order without a status is in none of these. */
  function OrdersWithStatus(orders: seq<Order>, st: OrderStatus): (r: seq<Order>)
    ensures |r| <= |orders|
    ensures forall i :: 0 <= i < |r| ==> r[i] in orders && r[i].status == Some(st)
    ensures forall i :: 0 <= i < |orders| && orders[i].status == Some(st) ==> orders[i] in r
  {
    Filter(StatusIs(st), orders)
  }

  /** `orders.reduce((sum, o) => sum + o.quantity, 0)`: never negative without negative quantities. */
  function TotalQuantity(orders: seq<Order>): (r: int)
    ensures (forall i :: 0 <= i < |orders| ==> orders[i].quantity >= 0) ==> r >= 0
  {
    if orders == [] then 0 else orders[0].quantity + TotalQuantity(orders[1..])
  }

  /** The quantity total of a concatenation is the sum of the totals. */
  lemma {:induction false} TotalQuantityAppend(a: seq<Order>, b: seq<Order>)
    ensures TotalQuantity(a + b) == TotalQuantity(a) + TotalQuantity(b)
  {
    if a == [] {
      assert a + b == b;
    } else {
      assert (a + b)[1..] == a[1..] + b;
      TotalQuantityAppend(a[1..], b);
    }
  }

  /** Every order is of exactly one type, so the two type filters split the snapshot. */
  lemma {:induction false} OrdersOfTypeSplit(orders: seq<Order>)
    ensures |OrdersOfType(orders, In)| + |OrdersOfType(orders, Out)| == |orders|
    ensures TotalQuantity(OrdersOfType(orders, In)) + TotalQuantity(OrdersOfType(orders, Out)) == TotalQuantity(orders)
  {
    if orders != [] {
      OrdersOfTypeSplit(orders[1..]);
      var o := orders[0];
      var ins, outs := OrdersOfType(orders[1..], In), OrdersOfType(orders[1..], Out);
      if o.orderType == In {
        assert OrdersOfType(orders, In) == [o] + ins;
        assert ([o] + ins)[1..] == ins;
        assert OrdersOfType(orders, Out) == outs;
      } else {
        assert OrdersOfType(orders, Out) == [o] + outs;
        assert ([o] + outs)[1..] == outs;
        assert OrdersOfType(orders, In) == ins;
      }
    }
  }

  /** No order is both PENDING and COMPLETED, and some have no status at all. */
  lemma {:induction false} PendingPlusCompletedAtMostAll(orders: seq<Order>)
    ensures |OrdersWithStatus(orders, Pending)| + |OrdersWithStatus(orders, Completed)| <= |orders|
  {
    if orders != [] {
      PendingPlusCompletedAtMostAll(orders[1..]);
      assert |OrdersWithStatus(orders, Pending)| <= |OrdersWithStatus(orders[1..], Pending)| + (if HasStatus(orders[0], Pending) then 1 else 0);
      assert |OrdersWithStatus(orders, Completed)| <= |OrdersWithStatus(orders[1..], Completed)| + (if HasStatus(orders[0], Completed) then 1 else 0);
    }
  }
}
