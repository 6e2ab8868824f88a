/** The purchase-pattern time series: the filtered transactions left-joined to
    the customer clusters, bucketed by calendar month and cluster, with the
    revenue, mean order value, active customers and order count of each
    bucket. */
module Rollup {
  import opened Dataset
  import opened Metrics

  /** A row of the left join: the transaction and the cluster attached to it,
      None when no customer row has its id. */
  datatype JoinedRow = JoinedRow(t: Transaction, cluster: Option<int>)

  /** The clusters of the customer rows with this id, in table order. */
  function MatchingClusters(customers: seq<Customer>, id: int): (r: seq<int>)
    ensures forall k :: k in r <==> exists c :: c in customers && c.customerId == id && c.cluster == k
    ensures r == [] <==> id !in CustomerIds(customers)
  {
    if customers == [] then []
    else if customers[0].customerId == id then [customers[0].cluster] + MatchingClusters(customers[1..], id)
    else
      assert id in CustomerIds(customers) <==> id in CustomerIds(customers[1..]) by {
        assert forall c :: c in customers <==> c == customers[0] || c in customers[1..];
      }
      MatchingClusters(customers[1..], id)
  }

  /** One joined row per cluster in `ms`, all for transaction `t`. */
  function Attach(t: Transaction, ms: seq<int>): (r: seq<JoinedRow>)
    ensures |r| == |ms|
    ensures forall i :: 0 <= i < |ms| ==> r[i] == JoinedRow(t, Some(ms[i]))
  {
    if ms == [] then [] else [JoinedRow(t, Some(ms[0]))] + Attach(t, ms[1..])
  }

  /** The rows `merge(how='left')` makes of one transaction: one per matching
      customer row, or a single row with no cluster. */
  function JoinOne(t: Transaction, customers: seq<Customer>): (r: seq<JoinedRow>)
    ensures r != []
    ensures forall row :: row in r ==> row.t == t
    ensures t.customerId !in CustomerIds(customers) ==> r == [JoinedRow(t, None)]
    ensures forall c :: c in customers && c.customerId == t.customerId ==> JoinedRow(t, Some(c.cluster)) in r
    ensures forall row :: row in r && row.cluster.None? ==> t.customerId !in CustomerIds(customers)
    ensures forall row :: row in r && row.cluster.Some? ==>
      exists c :: c in customers && c.customerId == t.customerId && c.cluster == row.cluster.value
  {
    var ms := MatchingClusters(customers, t.customerId);
    if ms == [] then [JoinedRow(t, None)]
    else
      var r := Attach(t, ms);
      AttachedRows(t, customers, ms, r);
      r
  }

  lemma AttachedRows(t: Transaction, customers: seq<Customer>, ms: seq<int>, r: seq<JoinedRow>)
    requires ms == MatchingClusters(customers, t.customerId) && r == Attach(t, ms)
    ensures forall c :: c in customers && c.customerId == t.customerId ==> JoinedRow(t, Some(c.cluster)) in r
    ensures forall row :: row in r ==> row.cluster.Some? && row.cluster.value in ms
  {
    forall c | c in customers && c.customerId == t.customerId ensures JoinedRow(t, Some(c.cluster)) in r {
      assert c.cluster in ms;
      var i :| 0 <= i < |ms| && ms[i] == c.cluster;
      assert r[i] == JoinedRow(t, Some(c.cluster));
    }
  }

  /** `filtered_data.merge(customers[['customer_id', 'cluster']], how='left')`:
      the transactions in order, each with the cluster of its customer, or
      None when its customer is not in the table. */
  function LeftJoin(ts: seq<Transaction>, customers: seq<Customer>): (r: seq<JoinedRow>)
    ensures |r| >= |ts|
    ensures forall row :: row in r ==> row.t in ts
    ensures forall t :: t in ts ==> exists row :: row in r && row.t == t
    ensures forall t :: t in ts && t.customerId !in CustomerIds(customers) ==> JoinedRow(t, None) in r
    ensures forall t, c :: t in ts && c in customers && c.customerId == t.customerId ==>
      JoinedRow(t, Some(c.cluster)) in r
    ensures forall row :: row in r && row.cluster.None? ==> row.t.customerId !in CustomerIds(customers)
    ensures forall row :: row in r && row.cluster.Some? ==>
      exists c :: c in customers && c.customerId == row.t.customerId && c.cluster == row.cluster.value
  {
    if ts == [] then []
    else
      var head := JoinOne(ts[0], customers);
      var tail := LeftJoin(ts[1..], customers);
      assert forall row :: row in head + tail <==> row in head || row in tail;
      assert forall t :: t in ts <==> t == ts[0] || t in ts[1..];
      assert head[0] in head;
      head + tail
  }

  /** A group key of `groupby(['year_month', 'cluster'])`. */
  datatype BucketKey = BucketKey(year: int, month: int, cluster: int)

  /** The order in which pandas sorts the group keys: by month, then cluster. */
  predicate KeyLt(a: BucketKey, b: BucketKey) {
    || a.year < b.year
    || (a.year == b.year && a.month < b.month)
    || (a.year == b.year && a.month == b.month && a.cluster < b.cluster)
  }

  predicate KeysIncreasing(ks: seq<BucketKey>) {
    forall i, j :: 0 <= i < j < |ks| ==> KeyLt(ks[i], ks[j])
  }

  /** The bucket of a joined row: the calendar month of its order date and its
      cluster; None for a row without a cluster, which `groupby` drops. */
  function KeyOf(row: JoinedRow): Option<BucketKey> {
    if row.cluster.None? then None
    else Some(BucketKey(row.t.orderDate.date.year, row.t.orderDate.date.month, row.cluster.value))
  }

  /** The keys that occur among the joined rows. */
  function KeySet(rows: seq<JoinedRow>): set<BucketKey> {
    set row | row in rows && KeyOf(row).Some? :: KeyOf(row).value
  }

  function InsertKey(k: BucketKey, ks: seq<BucketKey>): (r: seq<BucketKey>)
    requires KeysIncreasing(ks)
    ensures KeysIncreasing(r)
    ensures forall x :: x in r <==> x == k || x in ks
  {
    if ks == [] then [k]
    else if k == ks[0] then ks
    else if KeyLt(k, ks[0]) then [k] + ks
    else
      var tail := InsertKey(k, ks[1..]);
      assert forall x :: x in tail ==> KeyLt(ks[0], x) by {
        forall x | x in tail ensures KeyLt(ks[0], x) {
          if x != k {
            var j :| 0 <= j < |ks[1..]| && ks[1..][j] == x;
            assert KeyLt(ks[0], ks[j + 1]);
          }
        }
      }
      [ks[0]] + tail
  }

  /** The groups `groupby` forms: each occurring key once, in sorted order. */
  function GroupKeys(rows: seq<JoinedRow>): (r: seq<BucketKey>)
    ensures KeysIncreasing(r)
    ensures forall k :: k in r <==> k in KeySet(rows)
  {
    if rows == [] then []
    else
      assert forall k :: k in KeySet(rows) <==> KeyOf(rows[0]) == Some(k) || k in KeySet(rows[1..]) by {
        assert forall row :: row in rows <==> row == rows[0] || row in rows[1..];
      }
      var rest := GroupKeys(rows[1..]);
      if KeyOf(rows[0]).None? then rest else InsertKey(KeyOf(rows[0]).value, rest)
  }

  /** The transactions of one bucket, in order. */
  function InBucket(rows: seq<JoinedRow>, k: BucketKey): (r: seq<Transaction>)
    ensures forall t :: t in r ==> exists row :: row in rows && row.t == t && KeyOf(row) == Some(k)
    ensures forall t :: multiset(r)[t] ==
                        if t.orderDate.date.year == k.year && t.orderDate.date.month == k.month
                        then multiset(rows)[JoinedRow(t, Some(k.cluster))] else 0
    ensures k in KeySet(rows) ==> r != []
  {
    if rows == [] then []
    else
      assert forall row :: row in rows <==> row == rows[0] || row in rows[1..];
      assert rows == [rows[0]] + rows[1..];
      assert KeyOf(rows[0]) == Some(k) ==> rows[0] == JoinedRow(rows[0].t, Some(k.cluster));
      if KeyOf(rows[0]) == Some(k) then [rows[0].t] + InBucket(rows[1..], k)
      else InBucket(rows[1..], k)
  }

  /** One row of `monthly_data`. */
  datatype MonthlyBucket = MonthlyBucket(
    yearMonth: Timestamp,
    cluster: int,
    totalRevenue: real,
    avgOrderValue: real,
    uniqueCustomers: nat,
    orderCount: nat)

  /** `to_period('M').to_timestamp()`: midnight on the first of the month. */
  function MonthStart(year: int, month: int): Timestamp {
    Timestamp(Date(year, month, 1), 0)
  }

  function BucketKeyOf(b: MonthlyBucket): BucketKey {
    BucketKey(b.yearMonth.date.year, b.yearMonth.date.month, b.cluster)
  }

  /** The `agg` of one non-empty group: sum and mean of `purchase_amount`,
      distinct `customer_id`s and row count. */
  function Aggregate(k: BucketKey, g: seq<Transaction>): (b: MonthlyBucket)
    requires g != []
    ensures BucketKeyOf(b) == k && b.yearMonth == MonthStart(k.year, k.month)
    ensures b.totalRevenue == Revenue(g) && b.orderCount == |g|
    ensures b.uniqueCustomers == |TransactionCustomerIds(g)|
    ensures b.avgOrderValue == AvgOrderValue(g).value
    ensures b.orderCount >= 1 && b.uniqueCustomers <= b.orderCount
    ensures b.avgOrderValue * (b.orderCount as real) == b.totalRevenue
  {
    DistinctIdsAtMostRows(g);
    MonthlyBucket(MonthStart(k.year, k.month), k.cluster, Revenue(g), AvgOrderValue(g).value,
                  |TransactionCustomerIds(g)|, |g|)
  }

  function Buckets(rows: seq<JoinedRow>, ks: seq<BucketKey>): (r: seq<MonthlyBucket>)
    requires forall k :: k in ks ==> k in KeySet(rows)
    ensures |r| == |ks|
    ensures forall i :: 0 <= i < |ks| ==> InBucket(rows, ks[i]) != [] && r[i] == Aggregate(ks[i], InBucket(rows, ks[i]))
  {
    if ks == [] then []
    else
      var b := Aggregate(ks[0], InBucket(rows, ks[0]));
      var tail := Buckets(rows, ks[1..]);
      BucketsCons(rows, ks, b, tail);
      [b] + tail
  }

  lemma BucketsCons(rows: seq<JoinedRow>, ks: seq<BucketKey>, b: MonthlyBucket, tail: seq<MonthlyBucket>)
    requires ks != [] && ks[0] in KeySet(rows)
    requires InBucket(rows, ks[0]) != [] && b == Aggregate(ks[0], InBucket(rows, ks[0]))
    requires |tail| == |ks| - 1
    requires forall i :: 0 <= i < |ks| - 1 ==>
      InBucket(rows, ks[1..][i]) != [] && tail[i] == Aggregate(ks[1..][i], InBucket(rows, ks[1..][i]))
    ensures forall i :: 0 <= i < |ks| ==>
      InBucket(rows, ks[i]) != [] && ([b] + tail)[i] == Aggregate(ks[i], InBucket(rows, ks[i]))
  {
    forall i | 0 <= i < |ks|
      ensures InBucket(rows, ks[i]) != [] && ([b] + tail)[i] == Aggregate(ks[i], InBucket(rows, ks[i]))
    {
      if i > 0 {
        assert ks[i] == ks[1..][i - 1];
      }
    }
  }

  /** `monthly_data`: one bucket per (month, cluster) pair that occurs among
      the joined rows with a cluster, sorted by month then cluster, no empty
      months added. */
  function MonthlyRollup(filtered: seq<Transaction>, customers: seq<Customer>): (r: seq<MonthlyBucket>)
    ensures forall i, j :: 0 <= i < j < |r| ==> KeyLt(BucketKeyOf(r[i]), BucketKeyOf(r[j]))
    ensures forall k :: k in KeySet(LeftJoin(filtered, customers)) <==>
      exists i :: 0 <= i < |r| && BucketKeyOf(r[i]) == k
    ensures forall i :: 0 <= i < |r| ==>
      var g := InBucket(LeftJoin(filtered, customers), BucketKeyOf(r[i]));
      g != [] && r[i] == Aggregate(BucketKeyOf(r[i]), g)
  {
    var rows := LeftJoin(filtered, customers);
    var ks := GroupKeys(rows);
    var r := Buckets(rows, ks);
    BucketsFollowKeys(rows, ks, r);
    r
  }

  lemma BucketsFollowKeys(rows: seq<JoinedRow>, ks: seq<BucketKey>, r: seq<MonthlyBucket>)
    requires ks == GroupKeys(rows) && r == Buckets(rows, ks)
    ensures forall i, j :: 0 <= i < j < |r| ==> KeyLt(BucketKeyOf(r[i]), BucketKeyOf(r[j]))
    ensures forall k :: k in KeySet(rows) <==> exists i :: 0 <= i < |r| && BucketKeyOf(r[i]) == k
    ensures forall i :: 0 <= i < |r| ==>
      var g := InBucket(rows, BucketKeyOf(r[i]));
      g != [] && r[i] == Aggregate(BucketKeyOf(r[i]), g)
  {
    assert forall i :: 0 <= i < |r| ==> BucketKeyOf(r[i]) == ks[i];
    assert forall k :: k in ks ==> exists i :: 0 <= i < |ks| && ks[i] == k;
  }

  /** Every transaction of a bucket is a filtered transaction of the bucket's
      calendar month whose customer carries the bucket's cluster. */
  lemma BucketRowsMatchKey(filtered: seq<Transaction>, customers: seq<Customer>, k: BucketKey)
    ensures forall t :: t in InBucket(LeftJoin(filtered, customers), k) ==>
      && t in filtered
      && t.orderDate.date.year == k.year
      && t.orderDate.date.month == k.month
      && k.cluster in MatchingClusters(customers, t.customerId)
  {
    var rows := LeftJoin(filtered, customers);
    forall t | t in InBucket(rows, k)
      ensures t in filtered && t.orderDate.date.year == k.year && t.orderDate.date.month == k.month
      ensures k.cluster in MatchingClusters(customers, t.customerId)
    {
      var row :| row in rows && row.t == t && KeyOf(row) == Some(k);
      assert row.cluster == Some(k.cluster);
      var c :| c in customers && c.customerId == t.customerId && c.cluster == k.cluster;
    }
  }

  /** Each bucket's figures agree with its rows: the revenue is their amount
      sum, the order count their number, the mean order value their mean
      amount, there are no more active customers than orders, the
      month is stamped on its first day, and every row lies in the bucket's
      calendar month and cluster. */
  lemma BucketFigures(filtered: seq<Transaction>, customers: seq<Customer>, i: int)
    requires 0 <= i < |MonthlyRollup(filtered, customers)|
    ensures var b := MonthlyRollup(filtered, customers)[i];
      var g := InBucket(LeftJoin(filtered, customers), BucketKeyOf(b));
      && b.totalRevenue == Revenue(g)
      && b.orderCount == |g| >= 1
      && b.uniqueCustomers == |TransactionCustomerIds(g)| <= b.orderCount
      && b.avgOrderValue == AvgOrderValue(g).value
      && b.yearMonth == MonthStart(b.yearMonth.date.year, b.yearMonth.date.month)
      && forall t :: t in g ==>
           t in filtered
           && t.orderDate.date.year == b.yearMonth.date.year
           && t.orderDate.date.month == b.yearMonth.date.month
           && b.cluster in MatchingClusters(customers, t.customerId)
  {
    var b := MonthlyRollup(filtered, customers)[i];
    var k := BucketKeyOf(b);
    var g := InBucket(LeftJoin(filtered, customers), k);
    assert g != [] && b == Aggregate(k, g);
    BucketRowsMatchKey(filtered, customers, k);
  }

  // ----- Revenue conservation -----

  /** The transactions of the joined rows that have a cluster: the rows the
      grouping keeps. */
  function Keyed(rows: seq<JoinedRow>): seq<Transaction> {
    if rows == [] then []
    else if rows[0].cluster.Some? then [rows[0].t] + Keyed(rows[1..])
    else Keyed(rows[1..])
  }

  /** The transactions whose customer is in `ids`. */
  function Matched(ts: seq<Transaction>, ids: set<int>): seq<Transaction> {
    if ts == [] then []
    else if ts[0].customerId in ids then [ts[0]] + Matched(ts[1..], ids)
    else Matched(ts[1..], ids)
  }

  /** The `total_revenue` column summed. */
  function TotalRevenue(buckets: seq<MonthlyBucket>): real {
    if buckets == [] then 0.0 else buckets[0].totalRevenue + TotalRevenue(buckets[1..])
  }

  function BucketRevenue(rows: seq<JoinedRow>, ks: seq<BucketKey>): real {
    if ks == [] then 0.0 else Revenue(InBucket(rows, ks[0])) + BucketRevenue(rows, ks[1..])
  }

  lemma {:induction false} TotalOfBuckets(rows: seq<JoinedRow>, ks: seq<BucketKey>)
    requires forall k :: k in ks ==> k in KeySet(rows)
    ensures TotalRevenue(Buckets(rows, ks)) == BucketRevenue(rows, ks)
    decreases |ks|
  {
    if ks != [] {
      TotalOfBuckets(rows, ks[1..]);
    }
  }

  /** The amount `row` adds to the buckets of `ks`. */
  function Hits(ks: seq<BucketKey>, row: JoinedRow): real {
    if ks == [] then 0.0
    else (if KeyOf(row) == Some(ks[0]) then row.t.purchaseAmount else 0.0) + Hits(ks[1..], row)
  }

  lemma {:induction false} HitsOnce(ks: seq<BucketKey>, row: JoinedRow)
    requires KeysIncreasing(ks)
    ensures Hits(ks, row) == if KeyOf(row).Some? && KeyOf(row).value in ks then row.t.purchaseAmount else 0.0
    decreases |ks|
  {
    if ks != [] {
      assert KeysIncreasing(ks[1..]);
      HitsOnce(ks[1..], row);
      if KeyOf(row) == Some(ks[0]) {
        assert ks[0] !in ks[1..] by {
          forall j | 0 <= j < |ks[1..]| ensures ks[1..][j] != ks[0] { assert KeyLt(ks[0], ks[j + 1]); }
        }
      }
    }
  }

  lemma {:induction false} BucketRevenueOfCons(row: JoinedRow, rest: seq<JoinedRow>, ks: seq<BucketKey>)
    ensures BucketRevenue([row] + rest, ks) == Hits(ks, row) + BucketRevenue(rest, ks)
    decreases |ks|
  {
    if ks != [] {
      assert ([row] + rest)[1..] == rest;
      BucketRevenueOfCons(row, rest, ks[1..]);
    }
  }

  lemma {:induction false} BucketRevenueOfEmpty(ks: seq<BucketKey>)
    ensures BucketRevenue([], ks) == 0.0
    decreases |ks|
  {
    if ks != [] {
      BucketRevenueOfEmpty(ks[1..]);
    }
  }

  /** The buckets partition the rows that have a cluster: over sorted keys
      covering every such row, bucket revenues add up to their revenue. */
  lemma {:induction false} BucketsPartitionKeyedRows(rows: seq<JoinedRow>, ks: seq<BucketKey>)
    requires KeysIncreasing(ks)
    requires forall k :: k in KeySet(rows) ==> k in ks
    ensures BucketRevenue(rows, ks) == Revenue(Keyed(rows))
    decreases |rows|
  {
    if rows == [] {
      BucketRevenueOfEmpty(ks);
    } else {
      assert rows == [rows[0]] + rows[1..];
      KeySetOfCons(rows);
      BucketRevenueOfCons(rows[0], rows[1..], ks);
      HitsOnce(ks, rows[0]);
      BucketsPartitionKeyedRows(rows[1..], ks);
    }
  }

  lemma KeySetOfCons(rows: seq<JoinedRow>)
    requires rows != []
    ensures forall k :: k in KeySet(rows[1..]) ==> k in KeySet(rows)
    ensures KeyOf(rows[0]).Some? ==> KeyOf(rows[0]).value in KeySet(rows)
  {
    assert forall row :: row in rows[1..] ==> row in rows;
    assert rows[0] in rows;
  }

  lemma {:induction false} KeyedAppend(a: seq<JoinedRow>, b: seq<JoinedRow>)
    ensures Keyed(a + b) == Keyed(a) + Keyed(b)
    decreases |a|
  {
    if a == [] {
      assert a + b == b;
    } else {
      assert (a + b)[1..] == a[1..] + b;
      KeyedAppend(a[1..], b);
    }
  }

  lemma {:induction false} UniqueMatch(customers: seq<Customer>, id: int)
    requires UniqueCustomerIds(customers)
    ensures |MatchingClusters(customers, id)| == if id in CustomerIds(customers) then 1 else 0
    decreases |customers|
  {
    if customers != [] {
      var rest := customers[1..];
      assert UniqueCustomerIds(rest) by {
        forall i, j | 0 <= i < j < |rest| ensures rest[i].customerId != rest[j].customerId {
          assert rest[i] == customers[i + 1] && rest[j] == customers[j + 1];
        }
      }
      if customers[0].customerId == id {
        assert id !in CustomerIds(rest) by {
          forall c | c in rest ensures c.customerId != id {
            var j :| 0 <= j < |rest| && rest[j] == c;
            assert customers[j + 1] == c;
          }
        }
      }
      UniqueMatch(rest, id);
    }
  }

  /** With `customer_id` a key of the customer table, the rows the grouping
      keeps are exactly the transactions whose customer is in the table. */
  lemma {:induction false} JoinKeepsMatched(ts: seq<Transaction>, customers: seq<Customer>)
    requires UniqueCustomerIds(customers)
    ensures Keyed(LeftJoin(ts, customers)) == Matched(ts, CustomerIds(customers))
    decreases |ts|
  {
    if ts != [] {
      var ms := MatchingClusters(customers, ts[0].customerId);
      UniqueMatch(customers, ts[0].customerId);
      KeyedAppend(JoinOne(ts[0], customers), LeftJoin(ts[1..], customers));
      if ms != [] {
        assert JoinOne(ts[0], customers) == [JoinedRow(ts[0], Some(ms[0]))];
      }
      JoinKeepsMatched(ts[1..], customers);
    }
  }

  /** Summed over all buckets, the revenue equals that of the filtered
      transactions whose customer is in the customer table. */
  lemma RevenueOfRollup(filtered: seq<Transaction>, customers: seq<Customer>)
    requires UniqueCustomerIds(customers)
    ensures TotalRevenue(MonthlyRollup(filtered, customers)) == Revenue(Matched(filtered, CustomerIds(customers)))
  {
    var rows := LeftJoin(filtered, customers);
    var ks := GroupKeys(rows);
    TotalOfBuckets(rows, ks);
    BucketsPartitionKeyedRows(rows, ks);
    JoinKeepsMatched(filtered, customers);
  }

  lemma {:induction false} AllMatched(ts: seq<Transaction>, ids: set<int>)
    requires forall t :: t in ts ==> t.customerId in ids
    ensures Matched(ts, ids) == ts
    decreases |ts|
  {
    if ts != [] {
      assert ts[0] in ts;
      assert forall t :: t in ts[1..] ==> t in ts;
      AllMatched(ts[1..], ids);
    }
  }

  lemma {:induction false} MatchedRevenueBelow(ts: seq<Transaction>, ids: set<int>)
    requires forall t :: t in ts ==> t.purchaseAmount > 0.0
    ensures Revenue(Matched(ts, ids)) <= Revenue(ts)
    ensures (exists t :: t in ts && t.customerId !in ids) ==> Revenue(Matched(ts, ids)) < Revenue(ts)
    decreases |ts|
  {
    if ts != [] {
      assert ts[0] in ts;
      assert forall t :: t in ts <==> t == ts[0] || t in ts[1..];
      MatchedRevenueBelow(ts[1..], ids);
    }
  }

  /** Revenue is conserved exactly when every filtered transaction's customer
      is in the table; otherwise, with positive amounts, the buckets hold
      strictly less, because `groupby` drops the rows without a cluster. */
  lemma RevenueConservation(filtered: seq<Transaction>, customers: seq<Customer>)
    requires UniqueCustomerIds(customers)
    ensures (forall t :: t in filtered ==> t.customerId in CustomerIds(customers)) ==>
      TotalRevenue(MonthlyRollup(filtered, customers)) == Revenue(filtered)
    ensures (forall t :: t in filtered ==> t.purchaseAmount > 0.0) &&
            (exists t :: t in filtered && t.customerId !in CustomerIds(customers)) ==>
      TotalRevenue(MonthlyRollup(filtered, customers)) < Revenue(filtered)
  {
    RevenueOfRollup(filtered, customers);
    if forall t :: t in filtered ==> t.customerId in CustomerIds(customers) {
      AllMatched(filtered, CustomerIds(customers));
    }
    if forall t :: t in filtered ==> t.purchaseAmount > 0.0 {
      MatchedRevenueBelow(filtered, CustomerIds(customers));
    }
  }

  /** With `customer_id` a key of the customer table, the join neither
      duplicates nor drops a transaction: one joined row per transaction. */
  lemma {:induction false} JoinPreservesRowCount(ts: seq<Transaction>, customers: seq<Customer>)
    requires UniqueCustomerIds(customers)
    ensures |LeftJoin(ts, customers)| == |ts|
    decreases |ts|
  {
    if ts != [] {
      UniqueMatch(customers, ts[0].customerId);
      JoinPreservesRowCount(ts[1..], customers);
    }
  }

  /** Orders in January and March of one customer give a January and a March
      bucket and nothing for February. */
  lemma NoBucketForEmptyMonth(c: Customer, jan: Transaction, mar: Transaction)
    requires c.customerId == 7 && c.cluster == 2
    requires jan == Transaction(7, Timestamp(Date(2024, 1, 5), 3600), 10.0, "EUR")
    requires mar == Transaction(7, Timestamp(Date(2024, 3, 9), 7200), 30.0, "EUR")
    ensures MonthlyRollup([jan, mar], [c]) ==
      [MonthlyBucket(MonthStart(2024, 1), 2, 10.0, 10.0, 1, 1),
       MonthlyBucket(MonthStart(2024, 3), 2, 30.0, 30.0, 1, 1)]
  {
    var rows := [JoinedRow(jan, Some(2)), JoinedRow(mar, Some(2))];
    ExampleJoin(c, jan, mar);
    ExampleGroups(jan, mar, rows);
    var kj, km := BucketKey(2024, 1, 2), BucketKey(2024, 3, 2);
    RollupUnfolds([jan, mar], [c], rows, [kj, km]);
    ExampleBuckets(rows, kj, km, jan, mar);
    ExampleAggregate(kj, jan);
    ExampleAggregate(km, mar);
  }

  lemma RollupUnfolds(filtered: seq<Transaction>, customers: seq<Customer>, rows: seq<JoinedRow>, ks: seq<BucketKey>)
    requires rows == LeftJoin(filtered, customers) && ks == GroupKeys(rows)
    ensures MonthlyRollup(filtered, customers) == Buckets(rows, ks)
  {
  }

  lemma ExampleBuckets(rows: seq<JoinedRow>, kj: BucketKey, km: BucketKey, jan: Transaction, mar: Transaction)
    requires kj in KeySet(rows) && km in KeySet(rows)
    requires InBucket(rows, kj) == [jan] && InBucket(rows, km) == [mar]
    ensures Buckets(rows, [kj, km]) == [Aggregate(kj, [jan]), Aggregate(km, [mar])]
  {
    assert [kj, km][1..] == [km];
    assert Buckets(rows, [km]) == [Aggregate(km, [mar])];
  }

  lemma ExampleAggregate(k: BucketKey, t: Transaction)
    ensures Aggregate(k, [t]) ==
      MonthlyBucket(MonthStart(k.year, k.month), k.cluster, t.purchaseAmount, t.purchaseAmount, 1, 1)
  {
    assert TransactionCustomerIds([t]) == {t.customerId};
    assert Revenue([t]) == t.purchaseAmount;
  }

  lemma ExampleJoin(c: Customer, jan: Transaction, mar: Transaction)
    requires c.customerId == 7 && c.cluster == 2 && jan.customerId == 7 && mar.customerId == 7
    ensures LeftJoin([jan, mar], [c]) == [JoinedRow(jan, Some(2)), JoinedRow(mar, Some(2))]
  {
    assert MatchingClusters([c], 7) == [2];
    assert JoinOne(jan, [c]) == [JoinedRow(jan, Some(2))];
    assert JoinOne(mar, [c]) == [JoinedRow(mar, Some(2))];
    assert [jan, mar][1..] == [mar];
    assert LeftJoin([mar], [c]) == [JoinedRow(mar, Some(2))];
  }

  lemma ExampleGroups(jan: Transaction, mar: Transaction, rows: seq<JoinedRow>)
    requires jan.orderDate.date.year == 2024 && jan.orderDate.date.month == 1
    requires mar.orderDate.date.year == 2024 && mar.orderDate.date.month == 3
    requires rows == [JoinedRow(jan, Some(2)), JoinedRow(mar, Some(2))]
    ensures GroupKeys(rows) == [BucketKey(2024, 1, 2), BucketKey(2024, 3, 2)]
    ensures InBucket(rows, BucketKey(2024, 1, 2)) == [jan]
    ensures InBucket(rows, BucketKey(2024, 3, 2)) == [mar]
  {
    var kj, km := BucketKey(2024, 1, 2), BucketKey(2024, 3, 2);
    assert rows[1..] == [JoinedRow(mar, Some(2))];
    assert GroupKeys(rows[1..]) == [km];
    assert InBucket(rows[1..], kj) == [];
    assert InBucket(rows[1..], km) == [mar];
  }
}
