/** What the analysis reports about data the generator produced: the
    generator's promises (every item joins a product, every order's total
    is its items' total, the value ranges and label lists) carried through
    the analysis functions. */
module Consistency {
  import opened Records
  import opened Frames
  import opened Analysis
  import opened Generator

  /** The revenue column of the joined frame sums to the joined items' totals. */
  lemma {:induction false} NameRowsAmount(m: seq<MergedItem>)
    ensures AmountSum(NameRows(m)) == SumTotalPrice(MergedItems(m))
    decreases |m|
  {
    if |m| > 0 {
      var init := m[..|m| - 1];
      assert NameRows(m)[..|m| - 1] == NameRows(init);
      assert MergedItems(m)[..|m| - 1] == MergedItems(init);
      NameRowsAmount(init);
    }
  }

  /** Every item generate_orders builds joins exactly one product of a
      catalogue with unique SKUs, so the inner join keeps them all, in order. */
  lemma GeneratedItemsSurviveJoin(items: seq<OrderItem>, products: seq<Product>)
    requires UniqueSkus(products)
    requires forall j :: 0 <= j < |items| ==> GeneratedItem(items[j], items[j].orderId, products)
    ensures MergedItems(Merge(items, products)) == items
    ensures |Merge(items, products)| == |items|
  {
    forall j | 0 <= j < |items| ensures SkuKnown(items[j], products) {
      assert GeneratedItem(items[j], items[j].orderId, products);
      var p :| p in products && p.sku == items[j].productSku && p.unitPrice == items[j].unitPrice;
    }
    MergeKeepsItems(items, products);
  }

  /** On generated data, the per-product revenues of the product-performance
      grouping sum to the total revenue order_analysis reports. */
  lemma GeneratedRevenueByProduct(
    orders: seq<Order>, items: seq<OrderItem>, count: nat, firstOrderId: int,
    draw: nat -> OrderDraw, customers: seq<Customer>, products: seq<Product>)
    requires OrdersBuilt(orders, items, count, firstOrderId, draw, customers, products)
    requires UniqueSkus(products)
    ensures TotalAmount(GroupBy(NameRows(Merge(items, products)))) == OrderAnalysis(orders, items, products).totalRevenue
  {
    GeneratedItemsSurviveJoin(items, products);
    NameRowsAmount(Merge(items, products));
  }

  /** On generated data, the number of order items lies between one and
      five times the number of orders the analysis counts. */
  lemma GeneratedItemCount(
    orders: seq<Order>, items: seq<OrderItem>, count: nat, firstOrderId: int,
    draw: nat -> OrderDraw, customers: seq<Customer>, products: seq<Product>)
    requires OrdersBuilt(orders, items, count, firstOrderId, draw, customers, products)
    ensures var n := OrderAnalysis(orders, items, products).totalOrders;
      n <= |items| <= 5 * n
  {
  }

  /** The status histogram of generated orders uses only the five status literals. */
  lemma GeneratedStatusKeys(
    orders: seq<Order>, items: seq<OrderItem>, count: nat, firstOrderId: int,
    draw: nat -> OrderDraw, customers: seq<Customer>, products: seq<Product>)
    requires OrdersBuilt(orders, items, count, firstOrderId, draw, customers, products)
    ensures forall s :: s in Keys(OrderAnalysis(orders, items, products).statusDistribution) ==> s in OrderStatuses
  {
    var r := OrderAnalysis(orders, items, products);
    forall s | s in Keys(r.statusDistribution) ensures s in OrderStatuses {
      var i :| 0 <= i < |orders| && orders[i].status == s;
      assert GeneratedOrder(orders[i], firstOrderId + i, draw(i), customers);
    }
  }

  /** The category histogram of generated products uses only the eight category labels. */
  lemma GeneratedCategoryKeys(ps: seq<Product>, suppliers: seq<Supplier>)
    requires forall i :: 0 <= i < |ps| ==> InGeneratedRanges(ps[i], suppliers)
    ensures forall c :: c in Keys(InventoryAnalysis(ps).categoryDistribution) ==> c in ProductCategories
  {
    var r := InventoryAnalysis(ps);
    forall c | c in Keys(r.categoryDistribution) ensures c in ProductCategories {
      var i :| 0 <= i < |ps| && ps[i].category == c;
      assert InGeneratedRanges(ps[i], suppliers);
    }
  }

  /** Prices of 10..1000 bound the inventory value by 10 and 1000 per product. */
  lemma {:induction false} GeneratedInventoryValue(ps: seq<Product>, suppliers: seq<Supplier>)
    requires forall i :: 0 <= i < |ps| ==> InGeneratedRanges(ps[i], suppliers)
    ensures 1000 * |ps| <= InventoryValue(ps) <= 100000 * |ps|
    decreases |ps|
  {
    if |ps| > 0 {
      var init := ps[..|ps| - 1];
      assert InGeneratedRanges(ps[|ps| - 1], suppliers);
      GeneratedInventoryValue(init, suppliers);
    }
  }

  /** The ids of a list of customers. */
  function CustomerIdSet(customers: seq<Customer>): set<int> {
    set c | c in customers :: c.id
  }

  lemma {:induction false} CustomerIdSetCard(customers: seq<Customer>)
    ensures |CustomerIdSet(customers)| <= |customers|
    decreases |customers|
  {
    if |customers| > 0 {
      var init := customers[..|customers| - 1];
      var last := customers[|customers| - 1];
      assert CustomerIdSet(customers) == CustomerIdSet(init) + {last.id} by {
        assert customers == init + [last];
      }
      CustomerIdSetCard(init);
    }
  }

  /** Every generated order belongs to one of the generated customers. */
  lemma GeneratedCustomerIds(
    orders: seq<Order>, items: seq<OrderItem>, count: nat, firstOrderId: int,
    draw: nat -> OrderDraw, customers: seq<Customer>, products: seq<Product>)
    requires OrdersBuilt(orders, items, count, firstOrderId, draw, customers, products)
    ensures CustomerIds(orders) <= CustomerIdSet(customers)
  {
    forall id | id in CustomerIds(orders) ensures id in CustomerIdSet(customers) {
      var o :| o in orders && o.customerId == id;
      var i :| 0 <= i < |orders| && orders[i] == o;
      assert GeneratedOrder(orders[i], firstOrderId + i, draw(i), customers);
      var c :| c in customers && c.id == o.customerId;
    }
  }

  /** So customer_analysis counts at most as many customers as were generated. */
  lemma GeneratedCustomerCount(
    orders: seq<Order>, items: seq<OrderItem>, count: nat, firstOrderId: int,
    draw: nat -> OrderDraw, customers: seq<Customer>, products: seq<Product>)
    requires OrdersBuilt(orders, items, count, firstOrderId, draw, customers, products)
    ensures CustomerAnalysis(orders).totalCustomers <= |customers|
  {
    GeneratedCustomerIds(orders, items, count, firstOrderId, draw, customers, products);
    CustomerIdSetCard(customers);
    var ids, all := CustomerIds(orders), CustomerIdSet(customers);
    assert all == ids + (all - ids);
  }
}
