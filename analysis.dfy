/** The aggregations of the analysis script (analysis_template.py):
    inventory statistics, order statistics with the product-performance
    join, and the per-customer group-by. Each one is a pure function of the
    record sequences the script loads. */
module Analysis {
  import opened Records
  import opened Frames

  // ===================== inventory_analysis =====================

  /** "Total inventory value": the sum of the unit_price column. Each product
      counts once, whatever its stock quantity. */
  function InventoryValue(ps: seq<Product>): int {
    if |ps| == 0 then 0 else InventoryValue(ps[..|ps| - 1]) + ps[|ps| - 1].unitPrice
  }

  /** The low-stock mask: a product at its reorder point is low on stock. */
  predicate IsLowStock(p: Product) {
    p.stockQuantity <= p.reorderPoint
  }

  /** The rows kept by the low-stock mask, in their order. */
  function LowStock(ps: seq<Product>): (r: seq<Product>)
    ensures |r| <= |ps|
    ensures forall p :: p in r <==> p in ps && IsLowStock(p)
  {
    if |ps| == 0 then []
    else
      var init, last := ps[..|ps| - 1], ps[|ps| - 1];
      assert ps == init + [last];
      LowStock(init) + (if IsLowStock(last) then [last] else [])
  }

  function LabelSet(labels: seq<string>): set<string> {
    set l | l in labels
  }

  /** One group-by row per label, with nothing to sum. */
  function LabelRows(labels: seq<string>): seq<Row<string>> {
    seq(|labels|, i requires 0 <= i < |labels| => Row(labels[i], 0, 0))
  }

  lemma {:induction false} LabelRowsFacts(labels: seq<string>)
    ensures RowKeys(LabelRows(labels)) == LabelSet(labels)
    ensures forall l :: |Select(LabelRows(labels), l)| == multiset(labels)[l]
    decreases |labels|
  {
    var rows := LabelRows(labels);
    if |labels| == 0 {
      assert rows == [];
    } else {
      var init, last := labels[..|labels| - 1], labels[|labels| - 1];
      assert labels == init + [last];
      assert rows == LabelRows(init) + [Row(last, 0, 0)];
      LabelRowsFacts(init);
      RowKeysSnoc(LabelRows(init), Row(last, 0, 0));
      forall l ensures |Select(rows, l)| == multiset(labels)[l] {
        SelectSnoc(LabelRows(init), Row(last, 0, 0), l);
      }
    }
  }

  /** pandas value_counts: one entry per distinct label, holding the number
      of times it occurs, the most frequent first. */
  function ValueCounts(labels: seq<string>): (r: seq<Bucket<string>>)
    ensures SortedDesc(r, ByCount)
    ensures DistinctKeys(r) && Keys(r) == LabelSet(labels) && |r| == |LabelSet(labels)|
    ensures forall i :: 0 <= i < |r| ==> r[i].count == multiset(labels)[r[i].key] && r[i].count >= 1
    ensures TotalCount(r) == |labels|
  {
    LabelRowsFacts(labels);
    SortedGroups(LabelRows(labels), ByCount)
  }

  function Categories(ps: seq<Product>): seq<string> {
    seq(|ps|, i requires 0 <= i < |ps| => ps[i].category)
  }

  /** The category column holds exactly the categories some product has. */
  lemma CategoriesPresent(ps: seq<Product>)
    ensures forall c :: c in LabelSet(Categories(ps)) <==> exists i :: 0 <= i < |ps| && ps[i].category == c
  {
    var categories := Categories(ps);
    forall c | c in categories ensures exists i :: 0 <= i < |ps| && ps[i].category == c {
      var i :| 0 <= i < |categories| && categories[i] == c;
    }
    forall c | (exists i :: 0 <= i < |ps| && ps[i].category == c) ensures c in categories {
      var i :| 0 <= i < |ps| && ps[i].category == c;
      assert categories[i] == c;
    }
  }

  /** products_df['category'].value_counts(): one entry per category
      present, most frequent first, each counting its products. */
  function CategoryDistribution(ps: seq<Product>): (r: seq<Bucket<string>>)
    ensures SortedDesc(r, ByCount) && DistinctKeys(r)
    ensures forall c :: c in Keys(r) <==> exists i :: 0 <= i < |ps| && ps[i].category == c
    ensures forall i :: 0 <= i < |r| ==> r[i].count == multiset(Categories(ps))[r[i].key] && r[i].count >= 1
    ensures TotalCount(r) == |ps|
  {
    var r := ValueCounts(Categories(ps));
    CategoriesPresent(ps);
    assert Keys(r) == LabelSet(Categories(ps));
    r
  }

  /** What inventory_analysis prints; money in cents. */
  datatype InventoryReport = InventoryReport(
    totalProducts: nat,
    totalValue: int,
    averagePrice: Option<real>,
    categoryDistribution: seq<Bucket<string>>,
    lowStockItems: nat)

  function InventoryAnalysis(ps: seq<Product>): (r: InventoryReport)
    ensures r.totalProducts == |ps|
    ensures r.totalValue == InventoryValue(ps)
    ensures r.averagePrice == Mean(r.totalValue, r.totalProducts)
    ensures TotalCount(r.categoryDistribution) == r.totalProducts
    ensures forall c :: c in Keys(r.categoryDistribution) <==> exists i :: 0 <= i < |ps| && ps[i].category == c
    ensures r.lowStockItems == |LowStockPositions(ps)| && r.lowStockItems <= r.totalProducts
  {
    LowStockCount(ps);
    var value := InventoryValue(ps);
    InventoryReport(|ps|, value, Mean(value, |ps|), CategoryDistribution(ps), |LowStock(ps)|)
  }

  /** The positions of a sequence of products that are low on stock. */
  function LowStockPositions(ps: seq<Product>): set<nat> {
    set i: nat | i < |ps| && IsLowStock(ps[i])
  }

  lemma {:induction false} LowStockPositionsSnoc(ps: seq<Product>)
    requires |ps| > 0
    ensures var n := |ps| - 1;
      LowStockPositions(ps) == LowStockPositions(ps[..n]) + (if IsLowStock(ps[n]) then {n} else {})
  {
    var n := |ps| - 1;
    var init := ps[..n];
    forall i | i in LowStockPositions(ps) ensures i in LowStockPositions(init) + (if IsLowStock(ps[n]) then {n} else {}) {
      if i < n { assert init[i] == ps[i]; }
    }
    forall i | i in LowStockPositions(init) ensures i in LowStockPositions(ps) {
      assert init[i] == ps[i];
    }
  }

  /** The low-stock count is the number of positions whose product is at or
      below its reorder point. */
  lemma {:induction false} LowStockCount(ps: seq<Product>)
    ensures |LowStock(ps)| == |LowStockPositions(ps)|
    decreases |ps|
  {
    if |ps| > 0 {
      var n := |ps| - 1;
      LowStockCount(ps[..n]);
      LowStockPositionsSnoc(ps);
      assert n !in LowStockPositions(ps[..n]);
    }
  }

  lemma {:induction false} InventoryValueAppend(a: seq<Product>, b: seq<Product>)
    ensures InventoryValue(a + b) == InventoryValue(a) + InventoryValue(b)
    decreases |b|
  {
    if |b| == 0 {
      assert a + b == a;
    } else {
      var b' := b[..|b| - 1];
      assert (a + b)[..|a + b| - 1] == a + b';
      InventoryValueAppend(a, b');
    }
  }

  /** The inventory value depends on the unit prices alone: restocking any
      product leaves it unchanged. */
  lemma {:induction false} InventoryValueIgnoresStock(ps: seq<Product>, qs: seq<Product>)
    requires |ps| == |qs|
    requires forall i :: 0 <= i < |ps| ==> ps[i].unitPrice == qs[i].unitPrice
    ensures InventoryValue(ps) == InventoryValue(qs)
    decreases |ps|
  {
    if |ps| > 0 {
      InventoryValueIgnoresStock(ps[..|ps| - 1], qs[..|qs| - 1]);
    }
  }

  // ===================== order_analysis =====================

  function Statuses(orders: seq<Order>): seq<string> {
    seq(|orders|, i requires 0 <= i < |orders| => orders[i].status)
  }

  /** A row of order_items merged with the product columns sku, name and
      category of the product whose sku equals the item's product_sku. */
  datatype MergedItem = MergedItem(item: OrderItem, sku: string, name: string, category: string)

  /** The merged rows one item yields: one per product with its SKU. */
  function Matches(it: OrderItem, ps: seq<Product>): (m: seq<MergedItem>)
    ensures forall x :: x in m ==>
      (x.item == it && x.sku == it.productSku
       && exists p :: p in ps && p.sku == x.sku && p.name == x.name && p.category == x.category)
    ensures forall p :: p in ps && p.sku == it.productSku ==> MergedItem(it, p.sku, p.name, p.category) in m
    ensures |m| <= |ps|
  {
    if |ps| == 0 then []
    else
      var init, last := ps[..|ps| - 1], ps[|ps| - 1];
      assert ps == init + [last];
      Matches(it, init)
        + (if last.sku == it.productSku then [MergedItem(it, last.sku, last.name, last.category)] else [])
  }

  /** The inner join order_items.merge(products, left_on='product_sku',
      right_on='sku'): exactly the (item, product) pairs whose SKUs agree. */
  function Merge(items: seq<OrderItem>, ps: seq<Product>): (m: seq<MergedItem>)
    ensures forall x :: x in m ==>
      (x.item in items && x.sku == x.item.productSku
       && exists p :: p in ps && p.sku == x.sku && p.name == x.name && p.category == x.category)
    ensures forall it, p :: it in items && p in ps && it.productSku == p.sku ==>
      MergedItem(it, p.sku, p.name, p.category) in m
  {
    if |items| == 0 then []
    else
      var init, last := items[..|items| - 1], items[|items| - 1];
      assert items == init + [last];
      Merge(init, ps) + Matches(last, ps)
  }

  lemma {:induction false} MatchesNone(it: OrderItem, ps: seq<Product>)
    requires forall p :: p in ps ==> p.sku != it.productSku
    ensures Matches(it, ps) == []
    decreases |ps|
  {
    if |ps| > 0 {
      var init := ps[..|ps| - 1];
      assert forall p :: p in init ==> p in ps;
      assert ps[|ps| - 1] in ps;
      MatchesNone(it, init);
    }
  }

  /** Under the unique constraint on sku, an item joins at most one product. */
  lemma {:induction false} MatchesUnique(it: OrderItem, ps: seq<Product>)
    requires UniqueSkus(ps)
    ensures |Matches(it, ps)| <= 1
    ensures (exists p :: p in ps && p.sku == it.productSku) ==> |Matches(it, ps)| == 1
    decreases |ps|
  {
    if |ps| > 0 {
      var init, last := ps[..|ps| - 1], ps[|ps| - 1];
      assert ps == init + [last];
      MatchesUnique(it, init);
      if last.sku == it.productSku {
        assert forall p :: p in init ==> p.sku != it.productSku by {
          forall p | p in init ensures p.sku != it.productSku {
            var j :| 0 <= j < |init| && init[j] == p;
            assert ps[j] == p;
          }
        }
        MatchesNone(it, init);
      } else {
        if exists p :: p in ps && p.sku == it.productSku {
          var p :| p in ps && p.sku == it.productSku;
          assert p in init;
        }
      }
    }
  }

  /** An item whose SKU matches no product contributes nothing to the join. */
  lemma {:induction false} MergeSkipsUnmatched(items: seq<OrderItem>, it: OrderItem, ps: seq<Product>)
    requires forall p :: p in ps ==> p.sku != it.productSku
    ensures Merge(items + [it], ps) == Merge(items, ps)
  {
    assert (items + [it])[..|items|] == items;
    MatchesNone(it, ps);
  }

  /** The item column of the merged frame. */
  function MergedItems(m: seq<MergedItem>): seq<OrderItem> {
    seq(|m|, i requires 0 <= i < |m| => m[i].item)
  }

  lemma {:induction false} MergedItemsAppend(a: seq<MergedItem>, b: seq<MergedItem>)
    ensures MergedItems(a + b) == MergedItems(a) + MergedItems(b)
  {
  }

  /** With unique SKUs the join has at most one row per item. */
  lemma {:induction false} MergeBound(items: seq<OrderItem>, ps: seq<Product>)
    requires UniqueSkus(ps)
    ensures |Merge(items, ps)| <= |items|
    decreases |items|
  {
    if |items| > 0 {
      MergeBound(items[..|items| - 1], ps);
      MatchesUnique(items[|items| - 1], ps);
    }
  }

  /** Some product of the catalogue has the item's SKU. */
  predicate SkuKnown(it: OrderItem, ps: seq<Product>) {
    exists p :: p in ps && p.sku == it.productSku
  }

  /** With unique SKUs, when every item's SKU names a product, the join keeps
      every item exactly once and in order. */
  lemma {:induction false} MergeKeepsItems(items: seq<OrderItem>, ps: seq<Product>)
    requires UniqueSkus(ps)
    requires forall i :: 0 <= i < |items| ==> SkuKnown(items[i], ps)
    ensures MergedItems(Merge(items, ps)) == items
    decreases |items|
  {
    if |items| > 0 {
      var init, last := items[..|items| - 1], items[|items| - 1];
      assert items == init + [last];
      assert forall i :: 0 <= i < |init| ==> init[i] == items[i];
      MergeKeepsItems(init, ps);
      MatchesKeepItem(last, ps);
      assert Merge(items, ps) == Merge(init, ps) + Matches(last, ps);
      MergedItemsAppend(Merge(init, ps), Matches(last, ps));
    }
  }

  /** An item whose SKU names a product yields exactly one merged row, for itself. */
  lemma MatchesKeepItem(it: OrderItem, ps: seq<Product>)
    requires UniqueSkus(ps)
    requires SkuKnown(it, ps)
    ensures MergedItems(Matches(it, ps)) == [it]
  {
    var m := Matches(it, ps);
    MatchesUnique(it, ps);
    assert m[0] in m;
  }

  /** The group-by row of a merged item: grouped by product name, summing
      quantity and total_price. */
  function NameRows(m: seq<MergedItem>): seq<Row<string>> {
    seq(|m|, i requires 0 <= i < |m| => Row(m[i].name, m[i].item.quantity, m[i].item.totalPrice))
  }

  /** The product names that occur in the join. */
  function MergedNames(m: seq<MergedItem>): set<string> {
    set x | x in m :: x.name
  }

  lemma {:induction false} NameRowKeys(m: seq<MergedItem>)
    ensures RowKeys(NameRows(m)) == MergedNames(m)
  {
    var rows := NameRows(m);
    forall k | k in RowKeys(rows) ensures k in MergedNames(m) {
      var r :| r in rows && r.key == k;
      var i :| 0 <= i < |rows| && rows[i] == r;
      assert m[i] in m;
    }
    forall k | k in MergedNames(m) ensures k in RowKeys(rows) {
      var x :| x in m && x.name == k;
      var i :| 0 <= i < |m| && m[i] == x;
      assert rows[i] in rows;
    }
  }

  /** The number of products the top-products table keeps. */
  const TopCount: nat := 10

  /** merged_items.groupby('name').agg(sum of quantity, sum of total_price)
      .sort_values('total_price', ascending=False).head(10) on the joined
      frame m, grouping by the product's name: the ten names with the
      highest revenue, each with its summed quantity and revenue. */
  function TopProducts(m: seq<MergedItem>): (r: seq<Bucket<string>>)
    ensures |r| == if |MergedNames(m)| < TopCount then |MergedNames(m)| else TopCount
    ensures SortedDesc(r, ByAmount)
    ensures DistinctKeys(r)
    ensures forall i :: 0 <= i < |r| ==> r[i].key in MergedNames(m) && r[i] == BucketOf(NameRows(m), r[i].key)
    ensures forall name :: name in MergedNames(m) && name !in Keys(r) ==>
      forall i :: 0 <= i < |r| ==> r[i].amount >= BucketOf(NameRows(m), name).amount
  {
    NameRowKeys(m);
    TopGroups(NameRows(m), TopCount, ByAmount)
  }

  /** The columns of the products frame that load_data builds: its SELECT
      renames p.id to product_id and p.name to product_name. */
  const LoadedProductColumns: seq<string> := [
    "product_id", "product_name", "sku", "description", "unit_price", "stock_quantity",
    "reorder_point", "category", "supplier_id", "created_at", "supplier_name", "supplier_email"]

  /** The columns the product-performance step selects from that frame. */
  const MergeColumns: seq<string> := ["sku", "name", "category"]

  /** frame[[...]]: a KeyError for the first requested column the frame lacks. */
  function SelectColumns(available: seq<string>, wanted: seq<string>): (r: Result<seq<string>>)
    ensures r.Ok? <==> forall w :: w in wanted ==> w in available
    ensures r.Ok? ==> r.value == wanted
    ensures r.Err? ==> r.error.KeyError? && r.error.column in wanted && r.error.column !in available
  {
    if |wanted| == 0 then Ok([])
    else if wanted[0] !in available then Err(KeyError(wanted[0]))
    else
      match SelectColumns(available, wanted[1..])
      case Ok(rest) =>
        assert wanted == [wanted[0]] + wanted[1..];
        Ok([wanted[0]] + rest)
      case Err(e) => Err(e)
  }

  /** The status column holds exactly the statuses some order has. */
  lemma StatusesPresent(orders: seq<Order>)
    ensures forall s :: s in LabelSet(Statuses(orders)) <==> exists i :: 0 <= i < |orders| && orders[i].status == s
  {
    var statuses := Statuses(orders);
    forall s | s in statuses ensures exists i :: 0 <= i < |orders| && orders[i].status == s {
      var i :| 0 <= i < |statuses| && statuses[i] == s;
    }
    forall s | (exists i :: 0 <= i < |orders| && orders[i].status == s) ensures s in statuses {
      var i :| 0 <= i < |orders| && orders[i].status == s;
      assert statuses[i] == s;
    }
  }

  /** orders_df['status'].value_counts(): one entry per status present,
      most frequent first, each counting its orders. */
  function StatusDistribution(orders: seq<Order>): (r: seq<Bucket<string>>)
    ensures SortedDesc(r, ByCount) && DistinctKeys(r)
    ensures forall s :: s in Keys(r) <==> exists i :: 0 <= i < |orders| && orders[i].status == s
    ensures forall i :: 0 <= i < |r| ==> r[i].count == multiset(Statuses(orders))[r[i].key] && r[i].count >= 1
    ensures TotalCount(r) == |orders|
  {
    var r := ValueCounts(Statuses(orders));
    StatusesPresent(orders);
    assert Keys(r) == LabelSet(Statuses(orders));
    r
  }

  /** What order_analysis prints (prices in cents); topProducts is the
      top-10 table by revenue. */
  datatype OrderReport = OrderReport(
    totalOrders: nat,
    totalRevenue: int,
    averageOrderValue: Option<real>,
    statusDistribution: seq<Bucket<string>>,
    topProducts: seq<Bucket<string>>)

  /** order_analysis with the product-performance join keyed on the
      product's name as load_data provides it. */
  function OrderAnalysis(orders: seq<Order>, items: seq<OrderItem>, ps: seq<Product>): (r: OrderReport)
    ensures r.totalOrders == |orders|
    ensures r.totalRevenue == SumTotalAmount(orders)
    ensures r.averageOrderValue == Mean(r.totalRevenue, r.totalOrders)
    ensures TotalCount(r.statusDistribution) == r.totalOrders
    ensures forall s :: s in Keys(r.statusDistribution) <==> exists i :: 0 <= i < |orders| && orders[i].status == s
    ensures r.topProducts == TopProducts(Merge(items, ps))
    ensures |r.topProducts| <= TopCount && SortedDesc(r.topProducts, ByAmount)
  {
    var revenue := SumTotalAmount(orders);
    OrderReport(|orders|, revenue, Mean(revenue, |orders|), StatusDistribution(orders), TopProducts(Merge(items, ps)))
  }

  /** order_analysis as written: it selects a 'name' column from a frame
      whose column is called 'product_name', which raises KeyError. */
  function OrderAnalysisAsWritten(orders: seq<Order>, items: seq<OrderItem>, ps: seq<Product>): (r: Result<OrderReport>)
    ensures r == Err(KeyError("name"))
  {
    assert "name" !in LoadedProductColumns;
    match SelectColumns(LoadedProductColumns, MergeColumns)
    case Err(e) => Err(e)
    case Ok(_) => Ok(OrderAnalysis(orders, items, ps))
  }

  // ===================== customer_analysis =====================

  function CustomerIds(orders: seq<Order>): set<int> {
    set o | o in orders :: o.customerId
  }

  /** The orders placed by one customer, in their order. */
  function OrdersOf(orders: seq<Order>, customerId: int): seq<Order> {
    if |orders| == 0 then []
    else OrdersOf(orders[..|orders| - 1], customerId)
         + (if orders[|orders| - 1].customerId == customerId then [orders[|orders| - 1]] else [])
  }

  /** One group-by row per order: key customer_id, summing total_amount. */
  function CustomerRows(orders: seq<Order>): seq<Row<int>> {
    seq(|orders|, i requires 0 <= i < |orders| => Row(orders[i].customerId, 0, orders[i].totalAmount))
  }

  lemma {:induction false} CustomerRowsFacts(orders: seq<Order>)
    ensures RowKeys(CustomerRows(orders)) == CustomerIds(orders)
    ensures AmountSum(CustomerRows(orders)) == SumTotalAmount(orders)
    ensures forall k :: |Select(CustomerRows(orders), k)| == |OrdersOf(orders, k)|
    ensures forall k :: AmountSum(Select(CustomerRows(orders), k)) == SumTotalAmount(OrdersOf(orders, k))
    decreases |orders|
  {
    var rows := CustomerRows(orders);
    if |orders| == 0 {
      assert rows == [];
    } else {
      var init, last := orders[..|orders| - 1], orders[|orders| - 1];
      var row := Row(last.customerId, 0, last.totalAmount);
      assert orders == init + [last];
      assert rows == CustomerRows(init) + [row];
      CustomerRowsFacts(init);
      RowKeysSnoc(CustomerRows(init), row);
      assert CustomerIds(orders) == CustomerIds(init) + {last.customerId} by {
        forall c | c in CustomerIds(orders) ensures c in CustomerIds(init) + {last.customerId} {
          var o :| o in orders && o.customerId == c;
          if o != last {
            var j :| 0 <= j < |orders| && orders[j] == o;
            assert j < |init| && init[j] == o;
          }
        }
        forall c | c in CustomerIds(init) ensures c in CustomerIds(orders) {
          var o :| o in init && o.customerId == c;
          assert o in orders;
        }
        assert last in orders;
      }
      SumsSnoc(CustomerRows(init), row);
      forall k
        ensures |Select(rows, k)| == |OrdersOf(orders, k)|
        ensures AmountSum(Select(rows, k)) == SumTotalAmount(OrdersOf(orders, k))
      {
        SelectSnoc(CustomerRows(init), row, k);
        var s := Select(CustomerRows(init), k);
        if last.customerId == k {
          SumsSnoc(s, row);
          var os := OrdersOf(init, k);
          assert OrdersOf(orders, k) == os + [last];
          assert (os + [last])[..|os|] == os;
        } else {
          assert Select(rows, k) == s;
          assert OrdersOf(orders, k) == OrdersOf(init, k);
        }
      }
    }
  }

  /** orders.groupby('customer_id').agg(count of orders, sum of total_amount):
      one group per customer who ordered. */
  function CustomerOrders(orders: seq<Order>): (g: seq<Bucket<int>>)
    ensures DistinctKeys(g) && Keys(g) == CustomerIds(orders) && |g| == |CustomerIds(orders)|
    ensures forall i :: 0 <= i < |g| ==>
      (g[i].count == |OrdersOf(orders, g[i].key)| >= 1 && g[i].amount == SumTotalAmount(OrdersOf(orders, g[i].key)))
    ensures TotalCount(g) == |orders|
    ensures TotalAmount(g) == SumTotalAmount(orders)
  {
    CustomerRowsFacts(orders);
    GroupBy(CustomerRows(orders))
  }

  /** What customer_analysis prints (lifetime value in cents). */
  datatype CustomerReport = CustomerReport(
    totalCustomers: nat,
    averageOrdersPerCustomer: Option<real>,
    averageLifetimeValue: Option<real>)

  function CustomerAnalysis(orders: seq<Order>): (r: CustomerReport)
    ensures r.totalCustomers == |CustomerIds(orders)|
    ensures r.totalCustomers == 0 <==> |orders| == 0
    ensures r.averageOrdersPerCustomer == Mean(|orders|, r.totalCustomers)
    ensures r.averageLifetimeValue == Mean(SumTotalAmount(orders), r.totalCustomers)
  {
    var g := CustomerOrders(orders);
    assert |orders| > 0 ==> orders[0] in orders;
    CustomerReport(|g|, Mean(TotalCount(g), |g|), Mean(TotalAmount(g), |g|))
  }
}
