# Supply-chain sample data and analytics, modelled in Dafny

The system has two stores. The inventory store holds suppliers and
products. The order store holds customers, orders and order items; an
order item names its product by SKU only. Two parts of the system are
modelled here:

- The sample-data generator (`generate_data.py`) fills both stores.
  It builds suppliers and customers with unique emails, and products with
  unique SKUs, prices, stock levels, categories and suppliers. It then
  builds orders with one to five line items each. An order's
  `total_amount` is the sum of its items' `total_price`.
- The analysis script (`analysis_template.py`) reads the stores into data
  frames and reports three things:
  - inventory statistics: the product count, the sum and mean of the unit
    prices, the category distribution and the number of low-stock products;
  - order statistics: the order count, the revenue and its mean, the
    status distribution, and the ten products with the highest revenue,
    found by joining order items to products on their SKU;
  - customer statistics: the number of customers who ordered, and the
    mean order count and lifetime value per customer.

The model has five modules:

- `Records` (`records.dfy`): the stored entities, the errors the code
  can raise, and sums and filters over items and orders.
- `Frames` (`frames.dfy`): the data-frame operations the analysis uses.
  These are a group-by that counts rows and sums two columns
  (`groupby().agg`, `value_counts`), a descending sort on one aggregate
  (`sort_values`), `head(n)`, and the column mean. Each is defined
  recursively and proved against reference definitions over the input
  rows: `BucketOf`, `RowKeys`, the column sums and the row counts.
- `Analysis` (`analysis.dfy`): the three analyses as functions from the
  rows of the stores to the reported figures. It also holds the
  SKU join and the top-ten table.
- `Generator` (`generator.dfy`): the four generator loops, as methods
  with `while` loops and their invariants. An injected draw function
  supplies each iteration's random and faker values.
  - `RandInt` models `random.randint` and `Choice` models
    `random.choice`. Each can yield every value in its range and nothing
    else.
  - `UniqueValue` models faker's unique proxy. It takes the first
    candidate not handed out before, and gives up after 1000 candidates
    with `UniquenessException`.
  - Database ids are consecutive from a first id given as a parameter.
- `Consistency` (`consistency.dfy`): what the analysis reports when it
  is run on generated data. It proves this, for example:
  - every generated item survives the join;
  - the per-product revenues add up to the total revenue;
  - every status and category that is reported is one the generator
    uses.

Money is in integer cents. A mean is `Option<real>`, where `None` is
pandas' NaN, the mean of an empty column.

## Model

| member | source | states |
|---|---|---|
| Records.ItemsOfNew | generate_data.py:82-100 | the items appended for a freshly flushed order are exactly that order's items |
| Records.ItemsOfExtend | generate_data.py:93-100 | appending one order's items leaves every other order's items unchanged |
| Records.SumTotalPriceAppend | generate_data.py:86-91 | the running total over items is additive over concatenation |
| Frames.GroupBy | analysis_template.py:150-153 | one group per distinct key, each equal to the reference bucket of that key; counts sum to the number of rows and the group sums to the column sums |
| Frames.InsertDesc | analysis_template.py:153 | inserting into a descending sequence keeps it descending, adds the element to the multiset and adds its sums to the totals |
| Frames.SortDesc | analysis_template.py:153 | sort_values(ascending=False): a permutation, sorted descending on the measure, with the same totals |
| Frames.SortedGroups | analysis_template.py:84 | groups sorted descending: distinct keys, exactly the row keys, each the reference bucket, totals preserved |
| Frames.HeadIsTop | analysis_template.py:153 | a group that head(n) drops ranks no higher than any group it keeps |
| Frames.TopGroups | analysis_template.py:150-153 | min(keys, n) groups, sorted, distinct, each a reference bucket, and every excluded key ranks no higher than every kept group |
| Frames.Mean | analysis_template.py:80 | NaN exactly on an empty column; otherwise mean times count equals the total |
| Frames.PermutationKeys | analysis_template.py:153 | sorting does not change the set of keys |
| Analysis.LowStock | analysis_template.py:99 | the mask keeps exactly the products whose stock is at or below their reorder point |
| Analysis.LowStockCount | analysis_template.py:99-100 | the low-stock count equals the number of low-stock positions |
| Analysis.ValueCounts | analysis_template.py:84 | value_counts: one entry per distinct label, its count the label's multiplicity; count descending; counts sum to the column length |
| Analysis.CategoriesPresent | analysis_template.py:84 | a category is in the category column iff some product has it |
| Analysis.CategoryDistribution | analysis_template.py:84 | keys are exactly the categories present, each counted by its multiplicity, most frequent first, counts sum to the product count |
| Analysis.InventoryAnalysis | analysis_template.py:72-100 | product count, sum of unit prices, its mean, a category distribution covering every product and only present categories, and the low-stock count, at most the product count |
| Analysis.InventoryValueAppend | analysis_template.py:79 | the total inventory value is additive over concatenation |
| Analysis.InventoryValueIgnoresStock | analysis_template.py:79 | the reported inventory value depends only on unit prices, not on stock quantities |
| Analysis.Matches | analysis_template.py:146-148 | an item's merged rows are exactly its pairings with the products of the same SKU |
| Analysis.Merge | analysis_template.py:146-148 | the inner join yields exactly the (item, product) pairs whose SKUs agree, carrying the product's sku, name and category |
| Analysis.MatchesNone | analysis_template.py:146-148 | an item whose SKU names no product has no merged row |
| Analysis.MatchesUnique | analysis_template.py:146-148 | under the unique SKU constraint an item joins at most one product, and exactly one when its SKU is known |
| Analysis.MergeSkipsUnmatched | analysis_template.py:146-148 | the inner join drops an item whose SKU is unknown |
| Analysis.MergeBound | analysis_template.py:146-148 | with unique SKUs, the join has at most as many rows as there are items |
| Analysis.MergeKeepsItems | analysis_template.py:146-148 | with unique SKUs and every SKU known, the join keeps every item exactly once, in order |
| Analysis.MatchesKeepItem | analysis_template.py:146-148 | a known SKU yields exactly one merged row for the item |
| Analysis.NameRowKeys | analysis_template.py:150 | the group keys of the product-performance rows are exactly the product names in the join |
| Analysis.TopProducts | analysis_template.py:150-153 | at most ten products by name: sorted by revenue, distinct, each with its summed quantity and revenue, and no product left out earns more than one kept |
| Analysis.SelectColumns | analysis_template.py:146 | selecting columns succeeds iff all exist; otherwise KeyError names a missing wanted column |
| Analysis.StatusesPresent | analysis_template.py:123 | a status is in the status column iff some order has it |
| Analysis.StatusDistribution | analysis_template.py:123 | keys are exactly the statuses present, each counted by its multiplicity, most frequent first, counts sum to the order count |
| Analysis.OrderAnalysis | analysis_template.py:111-153 | order count, revenue as the sum of total_amount, its mean, a status distribution over all orders, and the top-products table of the join, at most ten and sorted |
| Analysis.OrderAnalysisAsWritten | analysis_template.py:146 | the code as written selects 'name' from a frame whose column is 'product_name' (line 21), so it always raises KeyError('name') |
| Analysis.CustomerRowsFacts | analysis_template.py:173-176 | the customer rows have as keys the customers with orders, and per customer the number and total of that customer's orders |
| Analysis.CustomerOrders | analysis_template.py:173-176 | one group per customer who ordered, holding the number of that customer's orders (at least one) and their total; counts sum to the order count |
| Analysis.CustomerAnalysis | analysis_template.py:168-181 | number of customers who ordered (zero iff there are no orders), mean orders per customer and mean lifetime value |
| Generator.RandInt | generate_data.py:37-38 | randint results lie within the inclusive bounds |
| Generator.RandIntOnto | generate_data.py:37-38 | every value within the bounds is reachable |
| Generator.Choice | generate_data.py:39-40 | choice raises IndexError exactly on an empty list and otherwise returns an element of it |
| Generator.ChoiceOnto | generate_data.py:39-40 | every element is reachable |
| Generator.UniqueValue | generate_data.py:16 | the value returned was not handed out before and is the first fresh candidate; UniquenessException iff all 1000 candidates repeat; a fresh first candidate is returned as is |
| Generator.GenerateSuppliers | generate_data.py:10-24 | count suppliers with consecutive ids, fields from their draws and pairwise distinct emails; fails only with UniquenessException, never when the first candidates are distinct |
| Generator.GenerateCustomers | generate_data.py:48-61 | count customers with consecutive ids, fields from their draws and pairwise distinct emails; fails only with UniquenessException, never when the first candidates are distinct |
| Generator.FirstSkuFresh | generate_data.py:34 | with distinct first candidates, the next first candidate is not yet taken |
| Generator.AppendFreshSku | generate_data.py:34 | appending a product with an untaken SKU keeps SKUs unique |
| Generator.ProductFromDrawRanges | generate_data.py:31-40 | every product built from a draw has price 10.00..1000.00, stock 0..1000, reorder point 10..100, a listed category and an existing supplier |
| Generator.NewProduct | generate_data.py:32-41 | building a product fails with IndexError iff there is no supplier; otherwise it has the given SKU and the draw's fields |
| Generator.GenerateProducts | generate_data.py:26-46 | IndexError when products are wanted but no supplier exists; otherwise count products with unique SKUs, each within the generator's ranges and built from its draw |
| Generator.ProductStep | generate_data.py:30-42 | one loop iteration keeps the product-loop invariant |
| Generator.ItemCount | generate_data.py:87 | an order gets one to five items |
| Generator.ItemTotal | generate_data.py:87 | n orders have between n and 5n items |
| Generator.BuildItems | generate_data.py:86-101 | IndexError iff items are wanted and no product exists; otherwise n items of the order, each with quantity 1..10, a product's SKU and price, total = quantity times price, and the running total equals their sum |
| Generator.NewOrder | generate_data.py:72-81 | building an order fails with IndexError iff there is no customer; otherwise it has the draw's status, date, address and customer and the given total |
| Generator.GenerateOrders | generate_data.py:63-107 | IndexError iff orders are wanted and customers or products are missing; otherwise count orders with consecutive ids, each with its 1..5 items and total_amount the sum of their totals, and no item outside an order |
| Generator.OrderStep | generate_data.py:70-103 | one loop iteration keeps the order-loop invariant |
| Generator.StepKeepsSums | generate_data.py:91-103 | revenue over orders equals the sum of item totals after each iteration |
| Generator.StepKeepsTotals | generate_data.py:86-102 | earlier orders keep their item count and total when a new order's items are appended |
| Consistency.NameRowsAmount | analysis_template.py:150-152 | the revenue column of the product-performance rows sums to the item totals of the join |
| Consistency.GeneratedItemsSurviveJoin | analysis_template.py:146-148 | on generated data every item joins its product, so the join keeps them all in order |
| Consistency.GeneratedRevenueByProduct | analysis_template.py:150-153 | on generated data the per-product revenues sum to the reported total revenue |
| Consistency.GeneratedItemCount | generate_data.py:87 | on generated data there are between one and five items per reported order |
| Consistency.GeneratedStatusKeys | generate_data.py:73 | every reported status is one of the five generator statuses |
| Consistency.GeneratedCategoryKeys | generate_data.py:27 | every reported category is one of the eight generator categories |
| Consistency.GeneratedInventoryValue | generate_data.py:31 | the reported inventory value lies within 10.00 and 1000.00 per product |
| Consistency.CustomerIdSetCard | generate_data.py:48-61 | there are no more customer ids than customers |
| Consistency.GeneratedCustomerIds | generate_data.py:76 | every customer id of a generated order is the id of a generated customer |
| Consistency.GeneratedCustomerCount | analysis_template.py:179 | on generated data, the reported customer count is at most the number of generated customers |

## Left out

- Reading the stores (`load_data`, analysis_template.py:12-70) is not modelled. The analysis takes the rows as sequences, with every column non-null.
- The LEFT JOIN supplier and customer columns are not modelled, because nothing in the analysis reads them.
- Printing and number formatting are not modelled. The reports are values, not text.
- Plots (`matplotlib`, `seaborn`) and the stock histogram are not modelled, because they are output only.
- The daily revenue resample (analysis_template.py:134-143) is not modelled. It only feeds a plot, and dates are kept as opaque integers.
- Float prices are modelled as integer cents. `round(random.uniform(10, 1000), 2)` becomes a uniform draw of 1000..100000 cents, and sums and means are exact.
- Frames.SortDesc and Frames.TopGroups: the order among groups with equal measure is not stated, and pandas' sort stability is not modelled. The contracts give only the descending order.
- Frames.GroupBy: pandas returns groups sorted by key. The model keeps the keys in first-seen order, and nothing in the analysis depends on this order.
- The random sources (`random`, `faker`) and the clock are inputs to the model, as draw functions. Faker strings are opaque values.
- Generator.UniqueValue: the retry count is 1000, as in faker's unique proxy. That proxy also remembers its values across generator calls, which the model does not. Each loop gets only the values of its own run as already seen.
- Database ids are assumed to be handed out consecutively from a given first id. The model has no autoincrement and no database.
- Committing, flushing and rollback are not modelled. Neither are the sessions, `generate_sample_data` and `main`.
- `created_at`, `Product.id` and `OrderItem.id` are not modelled, because neither modelled part reads them.
- The generators return the created records, and no store state is modelled between the generator and the analysis.
- database.py, schemas.py and main.py are not part of this model.

## Findings

| source | as written | input that shows it | evidently intended | confidence | as-written member | corrected member |
|---|---|---|---|---|---|---|
| analysis_template.py:146 | the join selects column 'name' from products_df, but load_data (analysis_template.py:21) renames that column to 'product_name', so the selection raises KeyError('name') and the top-products report is never produced | any data at all, even empty tables | select 'product_name' (or keep the column as 'name') and group the joined rows by product name | not executed | Analysis.OrderAnalysisAsWritten | Analysis.OrderAnalysis |
