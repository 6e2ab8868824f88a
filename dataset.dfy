/** The two base tables of the dashboard, as already-typed records, and the
    column reductions that every derived view is built from. */
module Dataset {

  datatype Option<+T> = None | Some(value: T)

  /** A calendar date. */
  datatype Date = Date(year: int, month: int, day: int)

  /** A parsed `order_date` instant: its calendar date and the time of day,
      in seconds since midnight. */
  datatype Timestamp = Timestamp(date: Date, secondOfDay: int)

  /** Chronological order on calendar dates (year, then month, then day). */
  predicate DateLe(a: Date, b: Date) {
    || a.year < b.year
    || (a.year == b.year && a.month < b.month)
    || (a.year == b.year && a.month == b.month && a.day <= b.day)
  }

  /** One row of the transaction log. */
  datatype Transaction = Transaction(
    customerId: int,
    orderDate: Timestamp,
    purchaseAmount: real,
    currency: string)

  /** One row of the clustered customer-feature table. */
  datatype Customer = Customer(
    customerId: int,
    cluster: int,
    monetary: real,
    frequency: real,
    recency: real,
    purchaseVariability: real,
    tenureDays: real,
    purchasesPerDay: real,
    spendPerDay: real,
    recencyRatio: real,
    customerValueScore: real,
    firstPurchase: Timestamp,
    lastPurchase: Timestamp)

  /** The four customer columns that the segment profile averages. */
  datatype Metric = Monetary | Frequency | Recency | ValueScore

  function MetricOf(c: Customer, m: Metric): real {
    match m
    case Monetary => c.monetary
    case Frequency => c.frequency
    case Recency => c.recency
    case ValueScore => c.customerValueScore
  }

  /** `purchase_amount.sum()` over a transaction view. */
  function Revenue(ts: seq<Transaction>): real {
    if ts == [] then 0.0 else ts[0].purchaseAmount + Revenue(ts[1..])
  }

  /** The sum of one metric column over a customer view. */
  function MetricTotal(cs: seq<Customer>, m: Metric): real {
    if cs == [] then 0.0 else MetricOf(cs[0], m) + MetricTotal(cs[1..], m)
  }

  /** The distinct `customer_id`s of a transaction view (`unique()`). */
  function TransactionCustomerIds(ts: seq<Transaction>): set<int> {
    set t | t in ts :: t.customerId
  }

  /** The distinct `customer_id`s of a customer view. */
  function CustomerIds(cs: seq<Customer>): set<int> {
    set c | c in cs :: c.customerId
  }

  predicate NonNegativeAmounts(ts: seq<Transaction>) {
    forall t :: t in ts ==> t.purchaseAmount >= 0.0
  }

  /** `customer_id` is a key of the customer table. */
  predicate UniqueCustomerIds(cs: seq<Customer>) {
    forall i, j :: 0 <= i < j < |cs| ==> cs[i].customerId != cs[j].customerId
  }

  /** `r` keeps some of the elements of `s`, in their original order. */
  predicate IsSubsequence<T(==)>(r: seq<T>, s: seq<T>)
    decreases |s|
  {
    if s == [] then r == []
    else (r != [] && r[0] == s[0] && IsSubsequence(r[1..], s[1..])) || IsSubsequence(r, s[1..])
  }

  lemma {:induction false} SubsequenceLength<T>(r: seq<T>, s: seq<T>)
    requires IsSubsequence(r, s)
    ensures |r| <= |s|
    ensures forall x :: x in r ==> x in s
    decreases |s|
  {
    if s != [] {
      if r != [] && r[0] == s[0] && IsSubsequence(r[1..], s[1..]) {
        SubsequenceLength(r[1..], s[1..]);
        assert r == [r[0]] + r[1..];
      } else {
        SubsequenceLength(r, s[1..]);
      }
    }
  }

  /** Dropping rows never raises the revenue of a view whose amounts are
      non-negative. */
  lemma {:induction false} RevenueOfSubsequence(r: seq<Transaction>, s: seq<Transaction>)
    requires IsSubsequence(r, s)
    requires NonNegativeAmounts(s)
    ensures Revenue(r) <= Revenue(s)
    decreases |s|
  {
    if s != [] {
      assert s[0] in s;
      assert NonNegativeAmounts(s[1..]) by {
        forall t | t in s[1..] ensures t.purchaseAmount >= 0.0 { assert t in s; }
      }
      if r != [] && r[0] == s[0] && IsSubsequence(r[1..], s[1..]) {
        RevenueOfSubsequence(r[1..], s[1..]);
      } else {
        RevenueOfSubsequence(r, s[1..]);
      }
    }
  }

  /** Each row contributes at most one new id, so a view has at most as many
      distinct customers as rows. */
  lemma {:induction false} DistinctIdsAtMostRows(ts: seq<Transaction>)
    ensures |TransactionCustomerIds(ts)| <= |ts|
    decreases |ts|
  {
    if ts != [] {
      DistinctIdsAtMostRows(ts[1..]);
      assert TransactionCustomerIds(ts) == {ts[0].customerId} + TransactionCustomerIds(ts[1..]) by {
        assert ts == [ts[0]] + ts[1..];
      }
    }
  }
}
