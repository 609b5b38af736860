/**
 * The `Order` record and its `OrderDetail` class (src/models/order.model.ts).
 */
module OrderModel {
  import opened Wrappers

  /** `'IN' | 'OUT'`: restock or consumption. */
  datatype OrderType = In | Out

  /** `'PENDING' | 'COMPLETED' | 'CANCELLED'`. */
  datatype OrderStatus = Pending | Completed | Cancelled

  /**
   * An order. `orderDate` is the timestamp the ISO date string denotes;
   * `status` is optional in the record, so an order may carry none.
   */
  datatype Order = Order(
    id: int,
    productId: int,
    quantity: int,
    orderDate: int,
    orderType: OrderType,
    supplierId: Option<int>,
    notes: Option<string>,
    status: Option<OrderStatus>)

  /** `order.status === s`: an order without a status equals no status value. */
  predicate HasStatus(o: Order, s: OrderStatus)
    ensures HasStatus(o, s) ==> o.status != None
  {
    o.status == Some(s)
  }

  const StockIn: string := "Stock In"
  const StockOut: string := "Stock Out"

  /** The label shown for an order type. */
  function TypeLabel(t: OrderType): (r: string)
    ensures r == StockIn <==> t == In
    ensures r == StockOut <==> t == Out
  {
    assert |StockIn| != |StockOut|;
    match t
    case In => StockIn
    case Out => StockOut
  }

  /** `OrderDetail`: an order object with small derived queries. Its fields are never reassigned. */
  class OrderDetail {
    const id: int
    const productId: int
    const quantity: int
    const orderDate: int
    const orderType: OrderType
    const supplierId: Option<int>
    const notes: Option<string>
    const status: Option<OrderStatus>

    /** `Object.assign(this, order)`: every field is copied from `o`. */
    constructor (o: Order)
      ensures AsOrder() == o
    {
      id := o.id;
      productId := o.productId;
      quantity := o.quantity;
      orderDate := o.orderDate;
      orderType := o.orderType;
      supplierId := o.supplierId;
      notes := o.notes;
      status := o.status;
    }

    /** The record this object was built from. */
    function AsOrder(): Order {
      Order(id, productId, quantity, orderDate, orderType, supplierId, notes, status)
    }

    function GetOrderTypeLabel(): (r: string)
      ensures r == StockIn <==> orderType == In
      ensures r == StockOut <==> orderType == Out
    {
      TypeLabel(orderType)
    }

    /** True exactly for a COMPLETED order; an order without a status is not completed. */
    predicate IsCompleted()
      ensures IsCompleted() <==> HasStatus(AsOrder(), Completed)
      ensures status == None ==> !IsCompleted()
    {
      status == Some(Completed)
    }
  }
}
