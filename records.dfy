/** The record types of the inventory store (suppliers, products) and of the
    order store (customers, orders, order items), with the sums and filters
    over them that both the sample-data generator and the analysis rely on.

    Money columns are Float in the database; here they are integer cents,
    so that every sum is exact. */
module Records {

  /** The exceptions the modelled Python code can raise. */
  datatype Error =
    | IndexError            // random.choice on an empty list
    | KeyError(column: string)  // selecting a data-frame column that does not exist
    | UniquenessException   // faker's unique proxy found no fresh value

  datatype Result<T> = Ok(value: T) | Err(error: Error)

  datatype Supplier = Supplier(
    id: int, name: string, contactPerson: string, email: string, phone: string, address: string)

  /** A product of the inventory store; unitPrice is in cents. */
  datatype Product = Product(
    name: string, sku: string, description: string, unitPrice: int,
    stockQuantity: int, reorderPoint: int, category: string, supplierId: int)

  datatype Customer = Customer(id: int, name: string, email: string, phone: string, address: string)

  /** An order of the order store; totalAmount is in cents, orderDate an opaque timestamp. */
  datatype Order = Order(
    id: int, customerId: int, status: string, orderDate: int, totalAmount: int, shippingAddress: string)

  /** A line item; it names its product by SKU only, and copies the unit price. */
  datatype OrderItem = OrderItem(
    orderId: int, productSku: string, quantity: int, unitPrice: int, totalPrice: int)

  /** The database's unique constraint on products.sku. */
  predicate UniqueSkus(ps: seq<Product>) {
    forall i, j :: 0 <= i < j < |ps| ==> ps[i].sku != ps[j].sku
  }

  /** Sum of the stored totalPrice of a sequence of items. */
  function SumTotalPrice(items: seq<OrderItem>): int {
    if |items| == 0 then 0 else SumTotalPrice(items[..|items| - 1]) + items[|items| - 1].totalPrice
  }

  /** Sum of the stored totalAmount of a sequence of orders. */
  function SumTotalAmount(orders: seq<Order>): int {
    if |orders| == 0 then 0 else SumTotalAmount(orders[..|orders| - 1]) + orders[|orders| - 1].totalAmount
  }

  /** The items that belong to the order with the given id, in their order. */
  function ItemsOf(items: seq<OrderItem>, orderId: int): seq<OrderItem> {
    if |items| == 0 then []
    else ItemsOf(items[..|items| - 1], orderId)
         + (if items[|items| - 1].orderId == orderId then [items[|items| - 1]] else [])
  }

  lemma {:induction false} SumTotalPriceAppend(a: seq<OrderItem>, b: seq<OrderItem>)
    ensures SumTotalPrice(a + b) == SumTotalPrice(a) + SumTotalPrice(b)
    decreases |b|
  {
    if |b| == 0 {
      assert a + b == a;
    } else {
      var b' := b[..|b| - 1];
      assert (a + b)[..|a + b| - 1] == a + b';
      SumTotalPriceAppend(a, b');
    }
  }

  lemma {:induction false} ItemsOfAppend(a: seq<OrderItem>, b: seq<OrderItem>, orderId: int)
    ensures ItemsOf(a + b, orderId) == ItemsOf(a, orderId) + ItemsOf(b, orderId)
    decreases |b|
  {
    if |b| == 0 {
      assert a + b == a;
    } else {
      var b' := b[..|b| - 1];
      assert (a + b)[..|a + b| - 1] == a + b';
      ItemsOfAppend(a, b', orderId);
    }
  }

  /** No item of another order is picked up by ItemsOf. */
  lemma {:induction false} ItemsOfNone(items: seq<OrderItem>, orderId: int)
    requires forall i :: 0 <= i < |items| ==> items[i].orderId != orderId
    ensures ItemsOf(items, orderId) == []
    decreases |items|
  {
    if |items| > 0 {
      ItemsOfNone(items[..|items| - 1], orderId);
    }
  }

  /** Every item of the order is picked up by ItemsOf, in order. */
  lemma {:induction false} ItemsOfAll(items: seq<OrderItem>, orderId: int)
    requires forall i :: 0 <= i < |items| ==> items[i].orderId == orderId
    ensures ItemsOf(items, orderId) == items
    decreases |items|
  {
    if |items| > 0 {
      ItemsOfAll(items[..|items| - 1], orderId);
      assert items[..|items| - 1] + [items[|items| - 1]] == items;
    }
  }

  /** Appending the items of another order does not change an order's items. */
  lemma {:induction false} ItemsOfExtend(items: seq<OrderItem>, batch: seq<OrderItem>, orderId: int, other: int)
    requires forall j :: 0 <= j < |batch| ==> batch[j].orderId == orderId
    requires other != orderId
    ensures ItemsOf(items + batch, other) == ItemsOf(items, other)
  {
    ItemsOfAppend(items, batch, other);
    ItemsOfNone(batch, other);
  }

  /** The items of an order appended after items that all belong to other
      orders are exactly that order's items. */
  lemma {:induction false} ItemsOfNew(items: seq<OrderItem>, batch: seq<OrderItem>, orderId: int)
    requires forall j :: 0 <= j < |items| ==> items[j].orderId != orderId
    requires forall j :: 0 <= j < |batch| ==> batch[j].orderId == orderId
    ensures ItemsOf(items + batch, orderId) == batch
  {
    ItemsOfAppend(items, batch, orderId);
    ItemsOfNone(items, orderId);
    ItemsOfAll(batch, orderId);
  }
}
