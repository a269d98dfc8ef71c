/** The whole-column data-frame operations the analysis is built from:
    a group-by that counts rows and sums two columns (pandas groupby().agg
    and value_counts), a descending sort on one aggregate (sort_values),
    head(n), and the mean of a column. */
module Frames {

  /** A column mean; None stands for pandas' NaN, the mean of an empty column. */
  datatype Option<T> = None | Some(value: T)

  /** One input row of a group-by: the key and the two columns to be summed. */
  datatype Row<K> = Row(key: K, quantity: int, amount: int)

  /** One group of a group-by: its key, its number of rows and the two sums. */
  datatype Bucket<K> = Bucket(key: K, count: nat, quantity: int, amount: int)

  /** The aggregate a descending sort orders the groups by. */
  datatype Measure = ByCount | ByAmount

  function MeasureOf<K>(b: Bucket<K>, measure: Measure): int {
    match measure
    case ByCount => b.count
    case ByAmount => b.amount
  }

  // Reference definitions over rows, each by recursion on the last row.

  function QuantitySum<K>(rows: seq<Row<K>>): int {
    if |rows| == 0 then 0 else QuantitySum(rows[..|rows| - 1]) + rows[|rows| - 1].quantity
  }

  function AmountSum<K>(rows: seq<Row<K>>): int {
    if |rows| == 0 then 0 else AmountSum(rows[..|rows| - 1]) + rows[|rows| - 1].amount
  }

  /** The rows whose key is k, in their original order. */
  function Select<K(==)>(rows: seq<Row<K>>, k: K): seq<Row<K>> {
    if |rows| == 0 then []
    else Select(rows[..|rows| - 1], k) + (if rows[|rows| - 1].key == k then [rows[|rows| - 1]] else [])
  }

  function RowKeys<K>(rows: seq<Row<K>>): set<K> {
    set r | r in rows :: r.key
  }

  /** The group that a group-by must report for key k: the number of rows
      with that key and the sums of their two columns. */
  function BucketOf<K(==)>(rows: seq<Row<K>>, k: K): Bucket<K> {
    var sel := Select(rows, k);
    Bucket(k, |sel|, QuantitySum(sel), AmountSum(sel))
  }

  // Sums and keys over groups, by recursion on the first group.

  function Keys<K>(g: seq<Bucket<K>>): set<K> {
    set b | b in g :: b.key
  }

  predicate DistinctKeys<K(==)>(g: seq<Bucket<K>>) {
    forall i, j :: 0 <= i < j < |g| ==> g[i].key != g[j].key
  }

  function TotalCount<K>(g: seq<Bucket<K>>): nat {
    if |g| == 0 then 0 else g[0].count + TotalCount(g[1..])
  }

  function TotalQuantity<K>(g: seq<Bucket<K>>): int {
    if |g| == 0 then 0 else g[0].quantity + TotalQuantity(g[1..])
  }

  function TotalAmount<K>(g: seq<Bucket<K>>): int {
    if |g| == 0 then 0 else g[0].amount + TotalAmount(g[1..])
  }

  // The group-by itself: rows are folded in one at a time, so groups appear
  // in the order their key first appears.

  function Bump<K>(b: Bucket<K>, r: Row<K>): Bucket<K> {
    Bucket(b.key, b.count + 1, b.quantity + r.quantity, b.amount + r.amount)
  }

  function Insert<K(==)>(g: seq<Bucket<K>>, r: Row<K>): seq<Bucket<K>> {
    if |g| == 0 then [Bucket(r.key, 1, r.quantity, r.amount)]
    else if g[0].key == r.key then [Bump(g[0], r)] + g[1..]
    else [g[0]] + Insert(g[1..], r)
  }

  lemma {:induction false} KeysCons<K>(b: Bucket<K>, g: seq<Bucket<K>>)
    ensures Keys([b] + g) == {b.key} + Keys(g)
  {
    forall k | k in Keys([b] + g) ensures k in {b.key} + Keys(g) {
      var x :| x in [b] + g && x.key == k;
      if x != b { assert x in g; }
    }
    forall k | k in Keys(g) ensures k in Keys([b] + g) {
      var x :| x in g && x.key == k;
      assert x in [b] + g;
    }
  }

  /** With distinct keys, the first group's key occurs nowhere after it. */
  lemma {:induction false} HeadKeyFresh<K>(g: seq<Bucket<K>>)
    requires |g| > 0 && DistinctKeys(g)
    ensures g[0].key !in Keys(g[1..])
  {
    forall x | x in g[1..] ensures x.key != g[0].key {
      var j :| 0 <= j < |g[1..]| && g[1..][j] == x;
      assert g[j + 1] == x;
    }
  }

  /** A group with a fresh key in front of groups with distinct keys. */
  lemma {:induction false} ConsDistinct<K>(b: Bucket<K>, t: seq<Bucket<K>>)
    requires DistinctKeys(t) && b.key !in Keys(t)
    ensures DistinctKeys([b] + t)
  {
    forall i, j | 0 <= i < j < |[b] + t| ensures ([b] + t)[i].key != ([b] + t)[j].key {
      assert ([b] + t)[j] == t[j - 1];
      assert t[j - 1] in t;
      if i > 0 { assert ([b] + t)[i] == t[i - 1]; }
    }
  }

  lemma {:induction false} InsertKeys<K>(g: seq<Bucket<K>>, r: Row<K>)
    ensures Keys(Insert(g, r)) == Keys(g) + {r.key}
    decreases |g|
  {
    if |g| == 0 {
      assert Insert(g, r) == [Bucket(r.key, 1, r.quantity, r.amount)];
      assert g == [];
    } else if g[0].key == r.key {
      assert g == [g[0]] + g[1..];
      KeysCons(g[0], g[1..]);
      KeysCons(Bump(g[0], r), g[1..]);
    } else {
      InsertKeys(g[1..], r);
      assert g == [g[0]] + g[1..];
      KeysCons(g[0], g[1..]);
      KeysCons(g[0], Insert(g[1..], r));
    }
  }

  lemma {:induction false} InsertTotals<K>(g: seq<Bucket<K>>, r: Row<K>)
    ensures TotalCount(Insert(g, r)) == TotalCount(g) + 1
    ensures TotalQuantity(Insert(g, r)) == TotalQuantity(g) + r.quantity
    ensures TotalAmount(Insert(g, r)) == TotalAmount(g) + r.amount
    decreases |g|
  {
    if |g| > 0 && g[0].key != r.key {
      InsertTotals(g[1..], r);
    }
  }

  lemma {:induction false} InsertDistinct<K>(g: seq<Bucket<K>>, r: Row<K>)
    requires DistinctKeys(g)
    ensures DistinctKeys(Insert(g, r))
    decreases |g|
  {
    if |g| > 0 {
      HeadKeyFresh(g);
      if g[0].key == r.key {
        ConsDistinct(Bump(g[0], r), g[1..]);
      } else {
        InsertDistinct(g[1..], r);
        InsertKeys(g[1..], r);
        ConsDistinct(g[0], Insert(g[1..], r));
      }
    }
  }

  lemma {:induction false} InsertNonEmpty<K>(g: seq<Bucket<K>>, r: Row<K>)
    requires forall i :: 0 <= i < |g| ==> g[i].count >= 1
    ensures forall i :: 0 <= i < |Insert(g, r)| ==> Insert(g, r)[i].count >= 1
    decreases |g|
  {
    if |g| > 0 && g[0].key != r.key {
      InsertNonEmpty(g[1..], r);
      var t := Insert(g[1..], r);
      assert forall i :: 1 <= i < |[g[0]] + t| ==> ([g[0]] + t)[i] == t[i - 1];
    }
  }

  lemma {:induction false} SelectSnoc<K>(rows: seq<Row<K>>, r: Row<K>, k: K)
    ensures Select(rows + [r], k) == Select(rows, k) + (if r.key == k then [r] else [])
  {
    assert (rows + [r])[..|rows|] == rows;
  }

  lemma {:induction false} SumsSnoc<K>(rows: seq<Row<K>>, r: Row<K>)
    ensures QuantitySum(rows + [r]) == QuantitySum(rows) + r.quantity
    ensures AmountSum(rows + [r]) == AmountSum(rows) + r.amount
  {
    assert (rows + [r])[..|rows|] == rows;
  }

  lemma {:induction false} BucketOfSnoc<K>(rows: seq<Row<K>>, r: Row<K>, k: K)
    ensures BucketOf(rows + [r], k) == if r.key == k then Bump(BucketOf(rows, k), r) else BucketOf(rows, k)
  {
    if r.key == k {
      BucketOfSnocHit(rows, r);
    } else {
      SelectSnoc(rows, r, k);
      assert Select(rows, k) + [] == Select(rows, k);
    }
  }

  lemma {:induction false} BucketOfSnocHit<K>(rows: seq<Row<K>>, r: Row<K>)
    ensures BucketOf(rows + [r], r.key) == Bump(BucketOf(rows, r.key), r)
  {
    var s := Select(rows, r.key);
    SelectSnoc(rows, r, r.key);
    SumsSnoc(s, r);
  }

  lemma {:induction false} RowKeysSnoc<K>(rows: seq<Row<K>>, r: Row<K>)
    ensures RowKeys(rows + [r]) == RowKeys(rows) + {r.key}
  {
    var ext := rows + [r];
    forall x | x in RowKeys(ext) ensures x in RowKeys(rows) + {r.key} {
      var y :| y in ext && y.key == x;
      if y != r {
        var j :| 0 <= j < |ext| && ext[j] == y;
        assert j < |rows| && rows[j] == y;
      }
    }
    forall x | x in RowKeys(rows) ensures x in RowKeys(ext) {
      var y :| y in rows && y.key == x;
      assert y in ext;
    }
    assert r in ext;
  }

  lemma {:induction false} SelectAbsent<K>(rows: seq<Row<K>>, k: K)
    requires k !in RowKeys(rows)
    ensures Select(rows, k) == []
    decreases |rows|
  {
    if |rows| > 0 {
      var init := rows[..|rows| - 1];
      assert RowKeys(init) <= RowKeys(rows) by {
        forall x | x in RowKeys(init) ensures x in RowKeys(rows) {
          var y :| y in init && y.key == x;
          assert y in rows;
        }
      }
      SelectAbsent(init, k);
      assert rows[|rows| - 1] in rows;
    }
  }

  lemma {:induction false} InsertPointwise<K>(g: seq<Bucket<K>>, rows: seq<Row<K>>, r: Row<K>)
    requires DistinctKeys(g)
    requires forall i :: 0 <= i < |g| ==> g[i] == BucketOf(rows, g[i].key)
    requires r.key !in Keys(g) ==> Select(rows, r.key) == []
    ensures forall i :: 0 <= i < |Insert(g, r)| ==> Insert(g, r)[i] == BucketOf(rows + [r], Insert(g, r)[i].key)
    decreases |g|
  {
    var ins := Insert(g, r);
    if |g| == 0 {
      BucketOfSnoc(rows, r, r.key);
      SumsSnoc([], r);
    } else if g[0].key == r.key {
      forall i | 0 <= i < |ins| ensures ins[i] == BucketOf(rows + [r], ins[i].key) {
        if i == 0 {
          BucketOfSnoc(rows, r, r.key);
        } else {
          assert ins[i] == g[i];
          assert g[i].key != r.key;
          BucketOfSnoc(rows, r, g[i].key);
        }
      }
    } else {
      var t := Insert(g[1..], r);
      assert r.key !in Keys(g[1..]) ==> r.key !in Keys(g) by {
        assert g == [g[0]] + g[1..];
        KeysCons(g[0], g[1..]);
      }
      InsertPointwise(g[1..], rows, r);
      forall i | 0 <= i < |ins| ensures ins[i] == BucketOf(rows + [r], ins[i].key) {
        if i == 0 {
          BucketOfSnoc(rows, r, g[0].key);
        } else {
          assert ins[i] == t[i - 1];
        }
      }
    }
  }

  lemma {:induction false} DistinctCard<K>(g: seq<Bucket<K>>)
    requires DistinctKeys(g)
    ensures |Keys(g)| == |g|
    decreases |g|
  {
    if |g| > 0 {
      assert g == [g[0]] + g[1..];
      KeysCons(g[0], g[1..]);
      DistinctCard(g[1..]);
      HeadKeyFresh(g);
    }
  }

  /** One step of the group-by: folding row r into the groups of rows gives
      the groups of rows + [r]. */
  lemma {:induction false} GroupByStep<K>(g: seq<Bucket<K>>, rows: seq<Row<K>>, r: Row<K>)
    requires DistinctKeys(g) && Keys(g) == RowKeys(rows)
    requires forall i :: 0 <= i < |g| ==> g[i] == BucketOf(rows, g[i].key) && g[i].count >= 1
    requires TotalCount(g) == |rows|
    requires TotalQuantity(g) == QuantitySum(rows) && TotalAmount(g) == AmountSum(rows)
    ensures var ins, ext := Insert(g, r), rows + [r];
      && DistinctKeys(ins) && Keys(ins) == RowKeys(ext) && |ins| == |RowKeys(ext)|
      && (forall i :: 0 <= i < |ins| ==> ins[i] == BucketOf(ext, ins[i].key) && ins[i].count >= 1)
      && TotalCount(ins) == |ext|
      && TotalQuantity(ins) == QuantitySum(ext)
      && TotalAmount(ins) == AmountSum(ext)
  {
    GroupByStepKeys(g, rows, r);
    GroupByStepGroups(g, rows, r);
    InsertTotals(g, r);
    SumsSnoc(rows, r);
  }

  lemma {:induction false} GroupByStepKeys<K>(g: seq<Bucket<K>>, rows: seq<Row<K>>, r: Row<K>)
    requires DistinctKeys(g) && Keys(g) == RowKeys(rows)
    ensures DistinctKeys(Insert(g, r)) && Keys(Insert(g, r)) == RowKeys(rows + [r])
    ensures |Insert(g, r)| == |RowKeys(rows + [r])|
  {
    InsertKeys(g, r);
    InsertDistinct(g, r);
    DistinctCard(Insert(g, r));
    RowKeysSnoc(rows, r);
  }

  lemma {:induction false} GroupByStepGroups<K>(g: seq<Bucket<K>>, rows: seq<Row<K>>, r: Row<K>)
    requires DistinctKeys(g) && Keys(g) == RowKeys(rows)
    requires forall i :: 0 <= i < |g| ==> g[i] == BucketOf(rows, g[i].key) && g[i].count >= 1
    ensures var ins := Insert(g, r);
      forall i :: 0 <= i < |ins| ==> ins[i] == BucketOf(rows + [r], ins[i].key) && ins[i].count >= 1
  {
    InsertNonEmpty(g, r);
    if r.key !in Keys(g) { SelectAbsent(rows, r.key); }
    InsertPointwise(g, rows, r);
  }

  /** Group the rows by key: one group per distinct key, each holding the
      number of rows with that key and the sums of their two columns. */
  function GroupBy<K(==)>(rows: seq<Row<K>>): (g: seq<Bucket<K>>)
    ensures DistinctKeys(g)
    ensures Keys(g) == RowKeys(rows)
    ensures |g| == |RowKeys(rows)|
    ensures forall i :: 0 <= i < |g| ==> g[i] == BucketOf(rows, g[i].key) && g[i].count >= 1
    ensures TotalCount(g) == |rows|
    ensures TotalQuantity(g) == QuantitySum(rows)
    ensures TotalAmount(g) == AmountSum(rows)
    decreases |rows|
  {
    if |rows| == 0 then []
    else
      var g0 := GroupBy(rows[..|rows| - 1]);
      GroupByLast(g0, rows);
      Insert(g0, rows[|rows| - 1])
  }

  /** GroupByStep, stated for the last row of rows. */
  lemma {:induction false} GroupByLast<K>(g: seq<Bucket<K>>, rows: seq<Row<K>>)
    requires |rows| > 0
    requires var init := rows[..|rows| - 1];
      && DistinctKeys(g) && Keys(g) == RowKeys(init)
      && (forall i :: 0 <= i < |g| ==> g[i] == BucketOf(init, g[i].key) && g[i].count >= 1)
      && TotalCount(g) == |init|
      && TotalQuantity(g) == QuantitySum(init) && TotalAmount(g) == AmountSum(init)
    ensures var ins := Insert(g, rows[|rows| - 1]);
      && DistinctKeys(ins) && Keys(ins) == RowKeys(rows) && |ins| == |RowKeys(rows)|
      && (forall i :: 0 <= i < |ins| ==> ins[i] == BucketOf(rows, ins[i].key) && ins[i].count >= 1)
      && TotalCount(ins) == |rows|
      && TotalQuantity(ins) == QuantitySum(rows)
      && TotalAmount(ins) == AmountSum(rows)
  {
    var init, last := rows[..|rows| - 1], rows[|rows| - 1];
    assert rows == init + [last];
    GroupByStep(g, init, last);
  }

  // Descending sort on one aggregate (insertion sort).

  predicate SortedDesc<K>(s: seq<Bucket<K>>, measure: Measure) {
    forall i, j :: 0 <= i < j < |s| ==> MeasureOf(s[i], measure) >= MeasureOf(s[j], measure)
  }

  /** Putting x in front of a sorted sequence whose elements all rank no
      higher than x keeps it sorted; the totals grow by x's. */
  lemma {:induction false} ConsSorted<K>(x: Bucket<K>, t: seq<Bucket<K>>, measure: Measure)
    requires SortedDesc(t, measure)
    requires forall j :: 0 <= j < |t| ==> MeasureOf(t[j], measure) <= MeasureOf(x, measure)
    ensures SortedDesc([x] + t, measure)
    ensures TotalCount([x] + t) == x.count + TotalCount(t)
    ensures TotalQuantity([x] + t) == x.quantity + TotalQuantity(t)
    ensures TotalAmount([x] + t) == x.amount + TotalAmount(t)
  {
    var r := [x] + t;
    assert r[1..] == t;
    forall i, j | 0 <= i < j < |r| ensures MeasureOf(r[i], measure) >= MeasureOf(r[j], measure) {
      assert r[j] == t[j - 1];
      if i > 0 { assert r[i] == t[i - 1]; }
    }
  }

  /** Every element of a sorted sequence ranks no higher than x when its
      first element does not. */
  lemma {:induction false} SortedBelow<K>(x: Bucket<K>, s: seq<Bucket<K>>, measure: Measure)
    requires SortedDesc(s, measure)
    requires |s| == 0 || MeasureOf(x, measure) >= MeasureOf(s[0], measure)
    ensures forall j :: 0 <= j < |s| ==> MeasureOf(s[j], measure) <= MeasureOf(x, measure)
  {
    forall j | 0 <= j < |s| ensures MeasureOf(s[j], measure) <= MeasureOf(x, measure) {
      if j > 0 { assert MeasureOf(s[0], measure) >= MeasureOf(s[j], measure); }
    }
  }

  /** The elements of a rearrangement of b and the tail of s all rank no
      higher than s[0], when b ranks below s[0]. */
  lemma {:induction false} InsertDescBound<K>(b: Bucket<K>, s: seq<Bucket<K>>, t: seq<Bucket<K>>, measure: Measure)
    requires SortedDesc(s, measure) && |s| > 0
    requires MeasureOf(b, measure) < MeasureOf(s[0], measure)
    requires multiset(t) == multiset(s[1..]) + multiset{b}
    ensures forall j :: 0 <= j < |t| ==> MeasureOf(t[j], measure) <= MeasureOf(s[0], measure)
  {
    forall j | 0 <= j < |t| ensures MeasureOf(t[j], measure) <= MeasureOf(s[0], measure) {
      assert t[j] in multiset(t);
      if t[j] != b {
        assert t[j] in multiset(s[1..]);
        var m :| 0 <= m < |s[1..]| && s[1..][m] == t[j];
        assert s[m + 1] == t[j];
      }
    }
  }

  /** b ranks at least as high as the head of s: it goes in front. */
  lemma {:induction false} InsertDescFront<K>(b: Bucket<K>, s: seq<Bucket<K>>, measure: Measure)
    requires SortedDesc(s, measure)
    requires |s| == 0 || MeasureOf(b, measure) >= MeasureOf(s[0], measure)
    ensures var r := [b] + s;
      && |r| == |s| + 1
      && multiset(r) == multiset(s) + multiset{b}
      && SortedDesc(r, measure)
      && TotalCount(r) == TotalCount(s) + b.count
      && TotalQuantity(r) == TotalQuantity(s) + b.quantity
      && TotalAmount(r) == TotalAmount(s) + b.amount
  {
    SortedBelow(b, s, measure);
    ConsSorted(b, s, measure);
  }

  /** b ranks below the head of s: the head stays in front of t, the
      insertion of b into the rest of s. */
  lemma {:induction false} InsertDescBehind<K>(b: Bucket<K>, s: seq<Bucket<K>>, t: seq<Bucket<K>>, measure: Measure)
    requires SortedDesc(s, measure) && |s| > 0
    requires MeasureOf(b, measure) < MeasureOf(s[0], measure)
    requires |t| == |s[1..]| + 1
    requires multiset(t) == multiset(s[1..]) + multiset{b}
    requires SortedDesc(t, measure)
    requires TotalCount(t) == TotalCount(s[1..]) + b.count
    requires TotalQuantity(t) == TotalQuantity(s[1..]) + b.quantity
    requires TotalAmount(t) == TotalAmount(s[1..]) + b.amount
    ensures var r := [s[0]] + t;
      && |r| == |s| + 1
      && multiset(r) == multiset(s) + multiset{b}
      && SortedDesc(r, measure)
      && TotalCount(r) == TotalCount(s) + b.count
      && TotalQuantity(r) == TotalQuantity(s) + b.quantity
      && TotalAmount(r) == TotalAmount(s) + b.amount
  {
    assert s == [s[0]] + s[1..];
    InsertDescBound(b, s, t, measure);
    ConsSorted(s[0], t, measure);
  }

  /** Insert b into a sorted sequence at its place. */
  function InsertDesc<K>(b: Bucket<K>, s: seq<Bucket<K>>, measure: Measure): (r: seq<Bucket<K>>)
    requires SortedDesc(s, measure)
    ensures |r| == |s| + 1
    ensures multiset(r) == multiset(s) + multiset{b}
    ensures SortedDesc(r, measure)
    ensures TotalCount(r) == TotalCount(s) + b.count
    ensures TotalQuantity(r) == TotalQuantity(s) + b.quantity
    ensures TotalAmount(r) == TotalAmount(s) + b.amount
    decreases |s|
  {
    if |s| == 0 || MeasureOf(b, measure) >= MeasureOf(s[0], measure) then
      InsertDescFront(b, s, measure);
      [b] + s
    else
      var t := InsertDesc(b, s[1..], measure);
      InsertDescBehind(b, s, t, measure);
      [s[0]] + t
  }

  /** The groups reordered so that the chosen aggregate is non-increasing;
      the groups themselves and their totals are unchanged. */
  function SortDesc<K>(g: seq<Bucket<K>>, measure: Measure): (r: seq<Bucket<K>>)
    ensures |r| == |g|
    ensures multiset(r) == multiset(g)
    ensures SortedDesc(r, measure)
    ensures TotalCount(r) == TotalCount(g)
    ensures TotalQuantity(r) == TotalQuantity(g)
    ensures TotalAmount(r) == TotalAmount(g)
    decreases |g|
  {
    if |g| == 0 then []
    else
      assert g == [g[0]] + g[1..];
      InsertDesc(g[0], SortDesc(g[1..], measure), measure)
  }

  lemma {:induction false} PermutationKeys<K>(a: seq<Bucket<K>>, b: seq<Bucket<K>>)
    requires multiset(a) == multiset(b)
    ensures Keys(a) == Keys(b)
  {
    forall k | k in Keys(a) ensures k in Keys(b) {
      var x :| x in a && x.key == k;
      assert x in multiset(a);
      assert x in b;
    }
    forall k | k in Keys(b) ensures k in Keys(a) {
      var x :| x in b && x.key == k;
      assert x in multiset(b);
      assert x in a;
    }
  }

  /** A permutation of groups with distinct keys still has distinct keys. */
  lemma {:induction false} PermutationDistinct<K>(a: seq<Bucket<K>>, b: seq<Bucket<K>>)
    requires multiset(a) == multiset(b)
    requires DistinctKeys(a)
    ensures DistinctKeys(b)
  {
    PermutationKeys(a, b);
    DistinctCard(a);
    assert |a| == |b| by {
      assert |multiset(a)| == |a| && |multiset(b)| == |b|;
    }
    forall i, j | 0 <= i < j < |b| ensures b[i].key != b[j].key {
      if b[i].key == b[j].key {
        DropDuplicateKey(b, i, j);
        assert false;
      }
    }
  }

  /** Dropping a group whose key also occurs earlier leaves the keys unchanged,
      so the keys then number fewer than the groups. */
  lemma {:induction false} DropDuplicateKey<K>(b: seq<Bucket<K>>, i: nat, j: nat)
    requires i < j < |b| && b[i].key == b[j].key
    ensures |Keys(b)| < |b|
  {
    var c := b[..j] + b[j + 1..];
    assert |c| == |b| - 1;
    forall k | k in Keys(b) ensures k in Keys(c) {
      var x :| x in b && x.key == k;
      var m :| 0 <= m < |b| && b[m] == x;
      if m < j {
        assert c[m] == x;
      } else if m == j {
        assert c[i] == b[i];
      } else {
        assert c[m - 1] == x;
      }
    }
    forall k | k in Keys(c) ensures k in Keys(b) {
      var x :| x in c && x.key == k;
      var m :| 0 <= m < |c| && c[m] == x;
      if m < j { assert b[m] == x; } else { assert b[m + 1] == x; }
    }
    assert Keys(b) == Keys(c);
    KeysCardBound(c);
  }

  lemma {:induction false} KeysCardBound<K>(g: seq<Bucket<K>>)
    ensures |Keys(g)| <= |g|
    decreases |g|
  {
    if |g| > 0 {
      assert g == [g[0]] + g[1..];
      KeysCons(g[0], g[1..]);
      KeysCardBound(g[1..]);
    }
  }

  /** Every group of a permutation of correct groups is still correct. */
  lemma {:induction false} PermutationPointwise<K>(a: seq<Bucket<K>>, b: seq<Bucket<K>>, rows: seq<Row<K>>)
    requires multiset(a) == multiset(b)
    requires forall i :: 0 <= i < |a| ==> a[i] == BucketOf(rows, a[i].key) && a[i].count >= 1
    ensures forall i :: 0 <= i < |b| ==> b[i] == BucketOf(rows, b[i].key) && b[i].count >= 1
  {
    forall i | 0 <= i < |b| ensures b[i] == BucketOf(rows, b[i].key) && b[i].count >= 1 {
      assert b[i] in multiset(b);
      assert b[i] in a;
      var j :| 0 <= j < |a| && a[j] == b[i];
    }
  }

  /** groupby followed by sort_values(ascending=False) on one aggregate. */
  function SortedGroups<K(==)>(rows: seq<Row<K>>, measure: Measure): (r: seq<Bucket<K>>)
    ensures SortedDesc(r, measure)
    ensures DistinctKeys(r) && Keys(r) == RowKeys(rows) && |r| == |RowKeys(rows)|
    ensures forall i :: 0 <= i < |r| ==> r[i] == BucketOf(rows, r[i].key) && r[i].count >= 1
    ensures TotalCount(r) == |rows|
    ensures TotalQuantity(r) == QuantitySum(rows)
    ensures TotalAmount(r) == AmountSum(rows)
  {
    var g := GroupBy(rows);
    var r := SortDesc(g, measure);
    PermutationKeys(g, r);
    PermutationDistinct(g, r);
    PermutationPointwise(g, r, rows);
    r
  }

  /** The groups left out of the first n of a descending sort rank no
      higher than any group kept. */
  lemma {:induction false} HeadIsTop<K>(s: seq<Bucket<K>>, n: nat, measure: Measure, b: Bucket<K>)
    requires SortedDesc(s, measure)
    requires b in s && b !in Head(s, n)
    ensures forall i :: 0 <= i < |Head(s, n)| ==> MeasureOf(Head(s, n)[i], measure) >= MeasureOf(b, measure)
  {
    var m :| 0 <= m < |s| && s[m] == b;
    var h := Head(s, n);
    assert m >= |h|;
    forall i | 0 <= i < |h| ensures MeasureOf(h[i], measure) >= MeasureOf(b, measure) {
      assert h[i] == s[i];
    }
  }

  /** A prefix of sorted, correct groups with distinct keys is again sorted
      and correct, with distinct keys. */
  lemma {:induction false} HeadFacts<K>(s: seq<Bucket<K>>, rows: seq<Row<K>>, n: nat, measure: Measure)
    requires SortedDesc(s, measure) && DistinctKeys(s) && Keys(s) == RowKeys(rows)
    requires forall i :: 0 <= i < |s| ==> s[i] == BucketOf(rows, s[i].key)
    ensures var h := Head(s, n);
      && SortedDesc(h, measure) && DistinctKeys(h)
      && forall i :: 0 <= i < |h| ==> h[i].key in RowKeys(rows) && h[i] == BucketOf(rows, h[i].key)
  {
    var h := Head(s, n);
    assert forall i :: 0 <= i < |h| ==> h[i] == s[i];
    forall i | 0 <= i < |h| ensures h[i].key in RowKeys(rows) {
      assert s[i] in s;
    }
  }

  /** A key of the rows missing from the first n sorted groups ranks no
      higher than any group kept. */
  lemma {:induction false} HeadExcluded<K>(s: seq<Bucket<K>>, rows: seq<Row<K>>, n: nat, measure: Measure, k: K)
    requires SortedDesc(s, measure) && Keys(s) == RowKeys(rows)
    requires forall i :: 0 <= i < |s| ==> s[i] == BucketOf(rows, s[i].key)
    requires k in RowKeys(rows) && k !in Keys(Head(s, n))
    ensures forall i :: 0 <= i < |Head(s, n)| ==>
      MeasureOf(Head(s, n)[i], measure) >= MeasureOf(BucketOf(rows, k), measure)
  {
    var b :| b in s && b.key == k;
    var j :| 0 <= j < |s| && s[j] == b;
    assert b in Head(s, n) ==> b.key in Keys(Head(s, n));
    HeadIsTop(s, n, measure, b);
  }

  /** groupby, sort_values(ascending=False) on one aggregate, then head(n):
      the n best-ranked groups, each correct, with every group left out
      ranking no higher than any group kept. */
  function TopGroups<K(==)>(rows: seq<Row<K>>, n: nat, measure: Measure): (r: seq<Bucket<K>>)
    ensures |r| == if |RowKeys(rows)| < n then |RowKeys(rows)| else n
    ensures SortedDesc(r, measure) && DistinctKeys(r)
    ensures forall i :: 0 <= i < |r| ==> r[i].key in RowKeys(rows) && r[i] == BucketOf(rows, r[i].key)
    ensures forall k :: k in RowKeys(rows) && k !in Keys(r) ==>
      forall i :: 0 <= i < |r| ==> MeasureOf(r[i], measure) >= MeasureOf(BucketOf(rows, k), measure)
  {
    var s := SortedGroups(rows, measure);
    HeadFacts(s, rows, n, measure);
    forall k | k in RowKeys(rows) && k !in Keys(Head(s, n))
      ensures forall i :: 0 <= i < |Head(s, n)| ==>
        MeasureOf(Head(s, n)[i], measure) >= MeasureOf(BucketOf(rows, k), measure)
    {
      HeadExcluded(s, rows, n, measure, k);
    }
    Head(s, n)
  }

  /** The first n elements, or all of them when there are fewer (pandas head). */
  function Head<T>(s: seq<T>, n: nat): seq<T> {
    s[..if n < |s| then n else |s|]
  }

  /** The mean of a column whose values sum to total over n rows. */
  function Mean(total: int, n: nat): (r: Option<real>)
    ensures r.None? <==> n == 0
    ensures r.Some? ==> r.value * (n as real) == total as real
  {
    if n == 0 then None else Some(total as real / n as real)
  }
}
