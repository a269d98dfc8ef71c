/** The sample-data generator: the loops that build suppliers, products,
    customers, and orders with their line items.

    Every random or faker value a loop iteration uses is an input: a
    draw function maps the iteration number (and, for line items, the item
    number) to the raw values of that iteration. random.randint and
    random.choice are modelled by RandInt and Choice below, which can yield
    every value of their range and nothing else; faker's unique proxy is
    modelled by UniqueValue. Ids that the database assigns on flush or
    commit are consecutive from a given first id. */
module Generator {
  import opened Records

  const ProductCategories: seq<string> :=
    ["Electronics", "Clothing", "Food", "Furniture", "Books", "Sports", "Tools", "Toys"]

  const OrderStatuses: seq<string> := ["pending", "processing", "shipped", "delivered", "cancelled"]

  /** How many candidates faker's unique proxy tries before it gives up. */
  const UniqueAttempts: nat := 1000

  // ---------------------------------------------------------------------
  // The random primitives

  /** random.randint(lo, hi), driven by an arbitrary raw draw. */
  function RandInt(lo: int, hi: int, raw: nat): (r: int)
    requires lo <= hi
    ensures lo <= r <= hi
  {
    lo + raw % (hi - lo + 1)
  }

  /** Every value of the range is some draw's result. */
  lemma RandIntOnto(lo: int, hi: int, v: int)
    requires lo <= v <= hi
    ensures RandInt(lo, hi, (v - lo) as nat) == v
  {
  }

  /** random.choice(xs): IndexError on an empty list, otherwise one of its elements. */
  function Choice<T>(xs: seq<T>, raw: nat): (r: Result<T>)
    ensures r.Err? <==> |xs| == 0
    ensures r.Err? ==> r.error == IndexError
    ensures r.Ok? ==> r.value in xs
  {
    if |xs| == 0 then Err(IndexError) else Ok(xs[raw % |xs|])
  }

  /** Every element of the list is some draw's choice. */
  lemma ChoiceOnto<T>(xs: seq<T>, i: nat)
    requires i < |xs|
    ensures Choice(xs, i) == Ok(xs[i])
  {
  }

  /** faker's unique proxy: the first of the underlying provider's
      candidates that has not been returned before, or UniquenessException
      when every attempt repeats an earlier value. */
  method UniqueValue(seen: set<string>, attempt: nat -> string) returns (r: Result<string>)
    ensures r.Ok? ==> r.value !in seen
    ensures r.Ok? ==> exists k :: (0 <= k < UniqueAttempts && attempt(k) == r.value
      && forall j :: 0 <= j < k ==> attempt(j) in seen)
    ensures r.Err? <==> forall k :: 0 <= k < UniqueAttempts ==> attempt(k) in seen
    ensures r.Err? ==> r.error == UniquenessException
    ensures attempt(0) !in seen ==> r == Ok(attempt(0))
  {
    var k := 0;
    while k < UniqueAttempts
      invariant 0 <= k <= UniqueAttempts
      invariant forall j :: 0 <= j < k ==> attempt(j) in seen
    {
      var v := attempt(k);
      if v !in seen {
        return Ok(v);
      }
      k := k + 1;
    }
    return Err(UniquenessException);
  }

  /** The first candidate of every iteration differs from every other
      iteration's first candidate (then the unique proxy never retries). */
  /** v is one of the unique proxy's candidates in iteration i. */
  predicate FromAttempts(v: string, attempt: (nat, nat) -> string, i: nat) {
    exists k :: 0 <= k < UniqueAttempts && attempt(i, k) == v
  }

  predicate FirstAttemptsDistinct(attempt: (nat, nat) -> string, count: nat) {
    forall i, j :: 0 <= i < j < count ==> attempt(i, 0) != attempt(j, 0)
  }

  // ---------------------------------------------------------------------
  // Suppliers and customers

  /** What one iteration of generate_suppliers draws, besides the email. */
  datatype SupplierDraw = SupplierDraw(company: string, contactName: string, phone: string, address: string)

  /** The emails handed out so far: the memory of fake.unique.company_email. */
  function SupplierEmails(suppliers: seq<Supplier>): set<string> {
    set s | s in suppliers :: s.email
  }

  /** generate_suppliers: count suppliers with pairwise different emails. */
  method GenerateSuppliers(count: nat, draw: nat -> SupplierDraw, emailAttempt: (nat, nat) -> string, firstId: int)
    returns (r: Result<seq<Supplier>>)
    ensures r.Err? ==> r.error == UniquenessException
    ensures FirstAttemptsDistinct(emailAttempt, count) ==> r.Ok?
    ensures r.Ok? ==> |r.value| == count
    ensures r.Ok? ==> forall i :: 0 <= i < count ==>
      r.value[i] == Supplier(firstId + i, draw(i).company, draw(i).contactName, r.value[i].email, draw(i).phone, draw(i).address)
    ensures r.Ok? ==> forall i :: 0 <= i < count ==> FromAttempts(r.value[i].email, emailAttempt, i)
    ensures r.Ok? ==> forall i, j :: 0 <= i < j < count ==> r.value[i].email != r.value[j].email
  {
    var suppliers: seq<Supplier> := [];
    var i := 0;
    while i < count
      invariant 0 <= i <= count && |suppliers| == i
      invariant forall j :: 0 <= j < i ==>
        suppliers[j] == Supplier(firstId + j, draw(j).company, draw(j).contactName, suppliers[j].email, draw(j).phone, draw(j).address)
      invariant forall j :: 0 <= j < i ==> FromAttempts(suppliers[j].email, emailAttempt, j)
      invariant forall j, k :: 0 <= j < k < i ==> suppliers[j].email != suppliers[k].email
      invariant FirstAttemptsDistinct(emailAttempt, count) ==>
        forall j :: 0 <= j < i ==> suppliers[j].email == emailAttempt(j, 0)
    {
      var d := draw(i);
      var attempt := (k: nat) => emailAttempt(i, k);
      if FirstAttemptsDistinct(emailAttempt, count) {
        forall s | s in suppliers ensures s.email != attempt(0) {
          var j :| 0 <= j < i && suppliers[j] == s;
        }
      }
      var email := UniqueValue(SupplierEmails(suppliers), attempt);
      if email.Err? {
        return Err(email.error);
      }
      var k :| 0 <= k < UniqueAttempts && attempt(k) == email.value;
      assert FromAttempts(email.value, emailAttempt, i) by {
        assert emailAttempt(i, k) == email.value;
      }
      forall j | 0 <= j < i ensures suppliers[j].email != email.value {
        assert suppliers[j] in suppliers;
      }
      suppliers := suppliers + [Supplier(firstId + i, d.company, d.contactName, email.value, d.phone, d.address)];
      i := i + 1;
    }
    return Ok(suppliers);
  }

  /** What one iteration of generate_customers draws, besides the email. */
  datatype CustomerDraw = CustomerDraw(name: string, phone: string, address: string)

  /** The emails handed out so far: the memory of fake.unique.email. */
  function CustomerEmails(customers: seq<Customer>): set<string> {
    set c | c in customers :: c.email
  }

  /** generate_customers: count customers with pairwise different emails. */
  method GenerateCustomers(count: nat, draw: nat -> CustomerDraw, emailAttempt: (nat, nat) -> string, firstId: int)
    returns (r: Result<seq<Customer>>)
    ensures r.Err? ==> r.error == UniquenessException
    ensures FirstAttemptsDistinct(emailAttempt, count) ==> r.Ok?
    ensures r.Ok? ==> |r.value| == count
    ensures r.Ok? ==> forall i :: 0 <= i < count ==>
      r.value[i] == Customer(firstId + i, draw(i).name, r.value[i].email, draw(i).phone, draw(i).address)
    ensures r.Ok? ==> forall i :: 0 <= i < count ==> FromAttempts(r.value[i].email, emailAttempt, i)
    ensures r.Ok? ==> forall i, j :: 0 <= i < j < count ==> r.value[i].email != r.value[j].email
  {
    var customers: seq<Customer> := [];
    var i := 0;
    while i < count
      invariant 0 <= i <= count && |customers| == i
      invariant forall j :: 0 <= j < i ==>
        customers[j] == Customer(firstId + j, draw(j).name, customers[j].email, draw(j).phone, draw(j).address)
      invariant forall j :: 0 <= j < i ==> FromAttempts(customers[j].email, emailAttempt, j)
      invariant forall j, k :: 0 <= j < k < i ==> customers[j].email != customers[k].email
      invariant FirstAttemptsDistinct(emailAttempt, count) ==>
        forall j :: 0 <= j < i ==> customers[j].email == emailAttempt(j, 0)
    {
      var d := draw(i);
      var attempt := (k: nat) => emailAttempt(i, k);
      if FirstAttemptsDistinct(emailAttempt, count) {
        forall c | c in customers ensures c.email != attempt(0) {
          var j :| 0 <= j < i && customers[j] == c;
        }
      }
      var email := UniqueValue(CustomerEmails(customers), attempt);
      if email.Err? {
        return Err(email.error);
      }
      var k :| 0 <= k < UniqueAttempts && attempt(k) == email.value;
      assert FromAttempts(email.value, emailAttempt, i) by {
        assert emailAttempt(i, k) == email.value;
      }
      forall j | 0 <= j < i ensures customers[j].email != email.value {
        assert customers[j] in customers;
      }
      customers := customers + [Customer(firstId + i, d.name, email.value, d.phone, d.address)];
      i := i + 1;
    }
    return Ok(customers);
  }

  // ---------------------------------------------------------------------
  // Products

  /** What one iteration of generate_products draws, besides the SKU. */
  datatype ProductDraw = ProductDraw(
    productName: string, text: string, priceRaw: nat, stockRaw: nat, reorderRaw: nat,
    categoryRaw: nat, supplierRaw: nat)

  /** The SKUs handed out so far: the memory of fake.unique.ean13. */
  function ProductSkus(products: seq<Product>): set<string> {
    set p | p in products :: p.sku
  }

  /** When the first candidates never repeat, the next first candidate is fresh. */
  lemma {:induction false} FirstSkuFresh(products: seq<Product>, skuAttempt: (nat, nat) -> string, count: nat)
    requires |products| < count && FirstAttemptsDistinct(skuAttempt, count)
    requires forall j :: 0 <= j < |products| ==> products[j].sku == skuAttempt(j, 0)
    ensures skuAttempt(|products|, 0) !in ProductSkus(products)
  {
    forall q | q in products ensures q.sku != skuAttempt(|products|, 0) {
      var j :| 0 <= j < |products| && products[j] == q;
    }
  }

  /** A product with a SKU not handed out before keeps the SKUs unique. */
  lemma {:induction false} AppendFreshSku(products: seq<Product>, p: Product)
    requires UniqueSkus(products) && p.sku !in ProductSkus(products)
    ensures UniqueSkus(products + [p])
  {
    forall j | 0 <= j < |products| ensures products[j].sku != p.sku {
      assert products[j] in products;
    }
  }

  /** The value ranges generate_products promises for a product. The price
      is uniform(10, 1000) rounded to 2 decimals, i.e. 1000..100000 cents. */
  predicate InGeneratedRanges(p: Product, suppliers: seq<Supplier>) {
    && 1000 <= p.unitPrice <= 100000
    && 0 <= p.stockQuantity <= 1000
    && 10 <= p.reorderPoint <= 100
    && p.category in ProductCategories
    && exists s :: s in suppliers && s.id == p.supplierId
  }

  /** The fields of the product that one iteration builds from draw d. */
  predicate ProductFromDraw(p: Product, d: ProductDraw, suppliers: seq<Supplier>) {
    && p.name == d.productName
    && p.description == d.text
    && p.unitPrice == RandInt(1000, 100000, d.priceRaw)
    && p.stockQuantity == RandInt(0, 1000, d.stockRaw)
    && p.reorderPoint == RandInt(10, 100, d.reorderRaw)
    && p.category == ProductCategories[d.categoryRaw % |ProductCategories|]
    && |suppliers| > 0 && p.supplierId == suppliers[d.supplierRaw % |suppliers|].id
  }

  /** A product built from any draw lies within the generator's ranges. */
  lemma ProductFromDrawRanges(p: Product, d: ProductDraw, suppliers: seq<Supplier>)
    requires ProductFromDraw(p, d, suppliers)
    ensures InGeneratedRanges(p, suppliers)
  {
    assert suppliers[d.supplierRaw % |suppliers|] in suppliers;
  }

  /** The Product(...) call of one generate_products iteration, once the
      SKU is drawn: IndexError when there is no supplier to choose from. */
  function NewProduct(d: ProductDraw, sku: string, suppliers: seq<Supplier>): (r: Result<Product>)
    ensures r.Err? <==> |suppliers| == 0
    ensures r.Err? ==> r.error == IndexError
    ensures r.Ok? ==> r.value.sku == sku && ProductFromDraw(r.value, d, suppliers) && InGeneratedRanges(r.value, suppliers)
  {
    var price := RandInt(1000, 100000, d.priceRaw);
    var stock := RandInt(0, 1000, d.stockRaw);
    var reorder := RandInt(10, 100, d.reorderRaw);
    var category := Choice(ProductCategories, d.categoryRaw);
    var supplier := Choice(suppliers, d.supplierRaw);
    if supplier.Err? then Err(supplier.error)
    else
      var p := Product(d.productName, sku, d.text, price, stock, reorder, category.value, supplier.value.id);
      ProductFromDrawRanges(p, d, suppliers);
      Ok(p)
  }

  /** The state after n iterations of generate_products: n products with
      unique SKUs, each built from its draw and one of its SKU candidates. */
  predicate ProductsBuilt(
    products: seq<Product>, n: nat, draw: nat -> ProductDraw, suppliers: seq<Supplier>,
    skuAttempt: (nat, nat) -> string, count: nat)
  {
    && |products| == n
    && UniqueSkus(products)
    && (forall j :: 0 <= j < n ==> ProductFromDraw(products[j], draw(j), suppliers))
    && (forall j :: 0 <= j < n ==> FromAttempts(products[j].sku, skuAttempt, j))
    && (FirstAttemptsDistinct(skuAttempt, count) ==> forall j :: 0 <= j < n ==> products[j].sku == skuAttempt(j, 0))
  }

  /** generate_products: count products with pairwise different SKUs, each
      within the generator's ranges. */
  method GenerateProducts(suppliers: seq<Supplier>, count: nat, draw: nat -> ProductDraw, skuAttempt: (nat, nat) -> string)
    returns (r: Result<seq<Product>>)
    ensures count > 0 && |suppliers| == 0 ==> r == Err(IndexError)
    ensures r.Err? ==> r.error == UniquenessException || (r.error == IndexError && |suppliers| == 0)
    ensures |suppliers| > 0 && FirstAttemptsDistinct(skuAttempt, count) ==> r.Ok?
    ensures r.Ok? ==> |r.value| == count && UniqueSkus(r.value)
    ensures r.Ok? ==> forall i :: 0 <= i < count ==> InGeneratedRanges(r.value[i], suppliers)
    ensures r.Ok? ==> forall i :: 0 <= i < count ==> ProductFromDraw(r.value[i], draw(i), suppliers)
    ensures r.Ok? ==> forall i :: 0 <= i < count ==> FromAttempts(r.value[i].sku, skuAttempt, i)
  {
    var products: seq<Product> := [];
    var i := 0;
    while i < count
      invariant 0 <= i <= count
      invariant i > 0 ==> |suppliers| > 0
      invariant ProductsBuilt(products, i, draw, suppliers, skuAttempt, count)
    {
      var d := draw(i);
      var attempt := (k: nat) => skuAttempt(i, k);
      if FirstAttemptsDistinct(skuAttempt, count) {
        FirstSkuFresh(products, skuAttempt, count);
      }
      var sku := UniqueValue(ProductSkus(products), attempt);
      if sku.Err? {
        return Err(sku.error);
      }
      var k :| 0 <= k < UniqueAttempts && attempt(k) == sku.value;
      assert FromAttempts(sku.value, skuAttempt, i) by {
        assert skuAttempt(i, k) == sku.value;
      }
      var product := NewProduct(d, sku.value, suppliers);
      if product.Err? {
        return Err(product.error);
      }
      ProductStep(products, product.value, draw, suppliers, skuAttempt, count);
      products := products + [product.value];
      i := i + 1;
    }
    forall j | 0 <= j < count ensures InGeneratedRanges(products[j], suppliers) {
      ProductFromDrawRanges(products[j], draw(j), suppliers);
    }
    return Ok(products);
  }

  /** One iteration of generate_products keeps the state well built. */
  lemma {:induction false} ProductStep(
    products: seq<Product>, p: Product, draw: nat -> ProductDraw, suppliers: seq<Supplier>,
    skuAttempt: (nat, nat) -> string, count: nat)
    requires ProductsBuilt(products, |products|, draw, suppliers, skuAttempt, count)
    requires ProductFromDraw(p, draw(|products|), suppliers)
    requires FromAttempts(p.sku, skuAttempt, |products|)
    requires p.sku !in ProductSkus(products)
    requires FirstAttemptsDistinct(skuAttempt, count) ==> p.sku == skuAttempt(|products|, 0)
    ensures ProductsBuilt(products + [p], |products| + 1, draw, suppliers, skuAttempt, count)
  {
    AppendFreshSku(products, p);
    var n := |products|;
    forall j | 0 <= j < n + 1
      ensures ProductFromDraw((products + [p])[j], draw(j), suppliers)
      ensures FromAttempts((products + [p])[j].sku, skuAttempt, j)
    {
      if j < n { assert (products + [p])[j] == products[j]; }
    }
  }

  // ---------------------------------------------------------------------
  // Orders and order items

  /** The raw values of one order iteration of generate_orders. */
  datatype OrderDraw = OrderDraw(
    orderDate: int, statusRaw: nat, customerRaw: nat, shippingAddress: string, itemCountRaw: nat)

  /** The raw values of one line item of an order. */
  datatype ItemDraw = ItemDraw(productRaw: nat, quantityRaw: nat)

  /** The number of line items random.randint(1, 5) gives an order. */
  function ItemCount(d: OrderDraw): (n: int)
    ensures 1 <= n <= 5
  {
    RandInt(1, 5, d.itemCountRaw)
  }

  /** The number of line items of the first n orders. */
  function ItemTotal(draw: nat -> OrderDraw, n: nat): (t: int)
    ensures n <= t <= 5 * n
  {
    if n == 0 then 0 else ItemTotal(draw, n - 1) + ItemCount(draw(n - 1))
  }

  /** What generate_orders promises of a line item: it belongs to the
      order, its quantity is 1..10, its SKU and unit price are those of a
      fetched product, and its total is quantity times unit price. */
  predicate GeneratedItem(it: OrderItem, orderId: int, products: seq<Product>) {
    && it.orderId == orderId
    && 1 <= it.quantity <= 10
    && it.totalPrice == it.quantity * it.unitPrice
    && exists p :: p in products && p.sku == it.productSku && p.unitPrice == it.unitPrice
  }

  /** The inner loop of generate_orders: n line items of one order, with
      the running total_amount. */
  method BuildItems(orderId: int, products: seq<Product>, n: nat, draw: nat -> ItemDraw)
    returns (r: Result<seq<OrderItem>>, total: int)
    ensures r.Err? <==> n > 0 && |products| == 0
    ensures r.Err? ==> r.error == IndexError
    ensures r.Ok? ==> |r.value| == n && total == SumTotalPrice(r.value)
    ensures r.Ok? ==> forall j :: 0 <= j < n ==> GeneratedItem(r.value[j], orderId, products)
    ensures r.Ok? ==> forall j :: 0 <= j < n ==>
      && |products| > 0
      && r.value[j].productSku == products[draw(j).productRaw % |products|].sku
      && r.value[j].quantity == RandInt(1, 10, draw(j).quantityRaw)
  {
    var items: seq<OrderItem> := [];
    total := 0;
    var j := 0;
    while j < n
      invariant 0 <= j <= n && |items| == j
      invariant j > 0 ==> |products| > 0
      invariant total == SumTotalPrice(items)
      invariant forall k :: 0 <= k < j ==> GeneratedItem(items[k], orderId, products)
      invariant forall k :: 0 <= k < j ==>
        && |products| > 0
        && items[k].productSku == products[draw(k).productRaw % |products|].sku
        && items[k].quantity == RandInt(1, 10, draw(k).quantityRaw)
    {
      var d := draw(j);
      var product := Choice(products, d.productRaw);
      if product.Err? {
        return Err(product.error), total;
      }
      var p := product.value;
      var quantity := RandInt(1, 10, d.quantityRaw);
      var totalPrice := quantity * p.unitPrice;
      total := total + totalPrice;
      var it := OrderItem(orderId, p.sku, quantity, p.unitPrice, totalPrice);
      assert (items + [it])[..j] == items;
      items := items + [it];
      j := j + 1;
    }
    return Ok(items), total;
  }

  /** What generate_orders promises of an order built from draw d. */
  predicate GeneratedOrder(o: Order, orderId: int, d: OrderDraw, customers: seq<Customer>) {
    && o.id == orderId
    && o.orderDate == d.orderDate
    && o.shippingAddress == d.shippingAddress
    && o.status == OrderStatuses[d.statusRaw % |OrderStatuses|]
    && o.status in OrderStatuses
    && |customers| > 0 && o.customerId == customers[d.customerRaw % |customers|].id
    && exists c :: c in customers && c.id == o.customerId
  }

  /** The Order(...) call of one generate_orders iteration, with the total
      the item loop accumulated: IndexError when there is no customer. */
  function NewOrder(orderId: int, d: OrderDraw, customers: seq<Customer>, total: int): (r: Result<Order>)
    ensures r.Err? <==> |customers| == 0
    ensures r.Err? ==> r.error == IndexError
    ensures r.Ok? ==> GeneratedOrder(r.value, orderId, d, customers) && r.value.totalAmount == total
  {
    var status := Choice(OrderStatuses, d.statusRaw);
    var customer := Choice(customers, d.customerRaw);
    if customer.Err? then Err(customer.error)
    else Ok(Order(orderId, customer.value.id, status.value, d.orderDate, total, d.shippingAddress))
  }

  datatype Generated = Generated(orders: seq<Order>, items: seq<OrderItem>)

  /** The state after n iterations of generate_orders: n orders built from
      their draws, each with its own ItemCount items and the sum of their
      totals as total_amount, and no item that belongs to no order. */
  predicate OrdersBuilt(
    orders: seq<Order>, items: seq<OrderItem>, n: nat, firstOrderId: int,
    draw: nat -> OrderDraw, customers: seq<Customer>, products: seq<Product>)
  {
    && |orders| == n
    && |items| == ItemTotal(draw, n)
    && (forall k :: 0 <= k < n ==> GeneratedOrder(orders[k], firstOrderId + k, draw(k), customers))
    && (forall k :: 0 <= k < n ==>
          && |ItemsOf(items, firstOrderId + k)| == ItemCount(draw(k))
          && orders[k].totalAmount == SumTotalPrice(ItemsOf(items, firstOrderId + k)))
    && (forall j :: 0 <= j < |items| ==>
          && firstOrderId <= items[j].orderId < firstOrderId + n
          && GeneratedItem(items[j], items[j].orderId, products))
    && SumTotalAmount(orders) == SumTotalPrice(items)
  }

  /** generate_orders: count orders with 1..5 items each, every order's
      total_amount the sum of its items' totals. */
  method GenerateOrders(
    customers: seq<Customer>, products: seq<Product>, count: nat,
    draw: nat -> OrderDraw, itemDraw: (nat, nat) -> ItemDraw, firstOrderId: int)
    returns (r: Result<Generated>)
    ensures r.Err? <==> count > 0 && (|customers| == 0 || |products| == 0)
    ensures r.Err? ==> r.error == IndexError
    ensures r.Ok? ==> OrdersBuilt(r.value.orders, r.value.items, count, firstOrderId, draw, customers, products)
  {
    var orders: seq<Order> := [];
    var items: seq<OrderItem> := [];
    var i := 0;
    while i < count
      invariant 0 <= i <= count
      invariant i > 0 ==> |customers| > 0 && |products| > 0
      invariant OrdersBuilt(orders, items, i, firstOrderId, draw, customers, products)
    {
      var d := draw(i);
      var orderId := firstOrderId + i;
      var shell := NewOrder(orderId, d, customers, 0);
      if shell.Err? {
        return Err(shell.error);
      }
      var batch, total := BuildItems(orderId, products, ItemCount(d), (j: nat) => itemDraw(i, j));
      if batch.Err? {
        return Err(batch.error);
      }
      var o := shell.value.(totalAmount := total);
      OrderStep(orders, items, batch.value, o, i, firstOrderId, draw, customers, products);
      orders := orders + [o];
      items := items + batch.value;
      i := i + 1;
    }
    return Ok(Generated(orders, items));
  }

  /** One iteration of generate_orders: appending an order built from the
      next draw and its batch of items keeps the state well built. */
  lemma {:induction false} OrderStep(
    orders: seq<Order>, items: seq<OrderItem>, batch: seq<OrderItem>, o: Order, i: nat,
    firstOrderId: int, draw: nat -> OrderDraw, customers: seq<Customer>, products: seq<Product>)
    requires OrdersBuilt(orders, items, i, firstOrderId, draw, customers, products)
    requires GeneratedOrder(o, firstOrderId + i, draw(i), customers)
    requires |batch| == ItemCount(draw(i))
    requires forall j :: 0 <= j < |batch| ==> GeneratedItem(batch[j], o.id, products)
    requires o.totalAmount == SumTotalPrice(batch)
    ensures OrdersBuilt(orders + [o], items + batch, i + 1, firstOrderId, draw, customers, products)
  {
    StepKeepsOrders(orders, o, i, firstOrderId, draw, customers);
    StepKeepsTotals(orders, items, batch, o, i, firstOrderId, draw, products);
    StepKeepsItemFacts(items, batch, o.id, firstOrderId, i, products);
    StepKeepsSums(orders, items, batch, o);
  }

  /** Revenue over orders stays equal to the sum of item totals. */
  lemma {:induction false} StepKeepsSums(orders: seq<Order>, items: seq<OrderItem>, batch: seq<OrderItem>, o: Order)
    requires SumTotalAmount(orders) == SumTotalPrice(items)
    requires o.totalAmount == SumTotalPrice(batch)
    ensures SumTotalAmount(orders + [o]) == SumTotalPrice(items + batch)
  {
    assert (orders + [o])[..|orders|] == orders;
    SumTotalPriceAppend(items, batch);
  }

  lemma {:induction false} StepKeepsOrders(
    orders: seq<Order>, o: Order, i: nat, firstOrderId: int, draw: nat -> OrderDraw, customers: seq<Customer>)
    requires |orders| == i
    requires forall k :: 0 <= k < i ==> GeneratedOrder(orders[k], firstOrderId + k, draw(k), customers)
    requires GeneratedOrder(o, firstOrderId + i, draw(i), customers)
    ensures forall k :: 0 <= k < i + 1 ==> GeneratedOrder((orders + [o])[k], firstOrderId + k, draw(k), customers)
  {
    forall k | 0 <= k < i + 1
      ensures GeneratedOrder((orders + [o])[k], firstOrderId + k, draw(k), customers)
    {
      if k < i { assert (orders + [o])[k] == orders[k]; } else { assert (orders + [o])[k] == o; }
    }
  }

  /** Each order, old or new, keeps ItemCount items whose totals sum to its total_amount. */
  lemma {:induction false} StepKeepsTotals(
    orders: seq<Order>, items: seq<OrderItem>, batch: seq<OrderItem>, o: Order, i: nat,
    firstOrderId: int, draw: nat -> OrderDraw, products: seq<Product>)
    requires |orders| == i && o.id == firstOrderId + i
    requires forall k :: 0 <= k < i ==>
      && |ItemsOf(items, firstOrderId + k)| == ItemCount(draw(k))
      && orders[k].totalAmount == SumTotalPrice(ItemsOf(items, firstOrderId + k))
    requires forall j :: 0 <= j < |items| ==> firstOrderId <= items[j].orderId < firstOrderId + i
    requires forall j :: 0 <= j < |batch| ==> GeneratedItem(batch[j], o.id, products)
    requires |batch| == ItemCount(draw(i)) && o.totalAmount == SumTotalPrice(batch)
    ensures forall k :: 0 <= k < i + 1 ==>
      && |ItemsOf(items + batch, firstOrderId + k)| == ItemCount(draw(k))
      && (orders + [o])[k].totalAmount == SumTotalPrice(ItemsOf(items + batch, firstOrderId + k))
  {
    ItemsOfNew(items, batch, o.id);
    StepKeepsEarlierItems(items, batch, o.id, firstOrderId, i);
    forall k | 0 <= k < i + 1
      ensures |ItemsOf(items + batch, firstOrderId + k)| == ItemCount(draw(k))
      ensures (orders + [o])[k].totalAmount == SumTotalPrice(ItemsOf(items + batch, firstOrderId + k))
    {
      if k < i {
        assert (orders + [o])[k] == orders[k];
        assert ItemsOf(items + batch, firstOrderId + k) == ItemsOf(items, firstOrderId + k);
      } else {
        assert (orders + [o])[k] == o;
      }
    }
  }

  /** Appending the new order's batch leaves the items of every earlier order as they were. */
  lemma {:induction false} StepKeepsEarlierItems(items: seq<OrderItem>, batch: seq<OrderItem>, orderId: int, firstOrderId: int, i: nat)
    requires orderId == firstOrderId + i
    requires forall j :: 0 <= j < |batch| ==> batch[j].orderId == orderId
    ensures forall id :: firstOrderId <= id < orderId ==> ItemsOf(items + batch, id) == ItemsOf(items, id)
  {
    forall id | firstOrderId <= id < orderId ensures ItemsOf(items + batch, id) == ItemsOf(items, id) {
      ItemsOfExtend(items, batch, orderId, id);
    }
  }

  /** Every item after the append, old or new, belongs to one of the first
      i + 1 orders and is a generated item. */
  lemma {:induction false} StepKeepsItemFacts(
    items: seq<OrderItem>, batch: seq<OrderItem>, orderId: int, firstOrderId: int, i: nat, products: seq<Product>)
    requires orderId == firstOrderId + i
    requires forall j :: 0 <= j < |items| ==>
      && firstOrderId <= items[j].orderId < firstOrderId + i
      && GeneratedItem(items[j], items[j].orderId, products)
    requires forall j :: 0 <= j < |batch| ==> GeneratedItem(batch[j], orderId, products)
    ensures forall j :: 0 <= j < |items + batch| ==>
      && firstOrderId <= (items + batch)[j].orderId < firstOrderId + i + 1
      && GeneratedItem((items + batch)[j], (items + batch)[j].orderId, products)
  {
    forall j | 0 <= j < |items + batch|
      ensures firstOrderId <= (items + batch)[j].orderId < firstOrderId + i + 1
      ensures GeneratedItem((items + batch)[j], (items + batch)[j].orderId, products)
    {
      if j < |items| {
        assert (items + batch)[j] == items[j];
      } else {
        assert (items + batch)[j] == batch[j - |items|];
      }
    }
  }
}
