/** The sidebar filters: a date range on the transaction log and a cluster
    selection on the customer table, giving the two views every chart reads. */
module Filter {
  import opened Dataset

  /** The calendar date of the order lies in `[start, end]`, both ends
      included; the time of day plays no part. */
  predicate InDateRange(t: Transaction, start: Date, end: Date) {
    DateLe(start, t.orderDate.date) && DateLe(t.orderDate.date, end)
  }

  /** `filtered_data` when two dates are selected. */
  function TransactionsBetween(data: seq<Transaction>, start: Date, end: Date): (r: seq<Transaction>)
    ensures forall t :: t in r <==> t in data && InDateRange(t, start, end)
    ensures forall t :: multiset(r)[t] == if InDateRange(t, start, end) then multiset(data)[t] else 0
    ensures IsSubsequence(r, data)
  {
    if data == [] then []
    else
      assert data == [data[0]] + data[1..];
      if InDateRange(data[0], start, end) then [data[0]] + TransactionsBetween(data[1..], start, end)
    else TransactionsBetween(data[1..], start, end)
  }

  /** The customer rows whose id is in `ids` and whose cluster is selected. */
  function ActiveCustomersIn(customers: seq<Customer>, ids: set<int>, clusterFilter: seq<int>): (r: seq<Customer>)
    ensures forall c :: c in r <==> c in customers && c.customerId in ids && c.cluster in clusterFilter
    ensures forall c :: multiset(r)[c] ==
                        if c.customerId in ids && c.cluster in clusterFilter then multiset(customers)[c] else 0
    ensures IsSubsequence(r, customers)
  {
    if customers == [] then []
    else
      assert customers == [customers[0]] + customers[1..];
      if customers[0].customerId in ids && customers[0].cluster in clusterFilter then
      [customers[0]] + ActiveCustomersIn(customers[1..], ids, clusterFilter)
    else ActiveCustomersIn(customers[1..], ids, clusterFilter)
  }

  /** The customer rows whose cluster is selected. */
  function CustomersIn(customers: seq<Customer>, clusterFilter: seq<int>): (r: seq<Customer>)
    ensures forall c :: c in r <==> c in customers && c.cluster in clusterFilter
    ensures forall c :: multiset(r)[c] == if c.cluster in clusterFilter then multiset(customers)[c] else 0
    ensures IsSubsequence(r, customers)
  {
    if customers == [] then []
    else
      assert customers == [customers[0]] + customers[1..];
      if customers[0].cluster in clusterFilter then
      [customers[0]] + CustomersIn(customers[1..], clusterFilter)
    else CustomersIn(customers[1..], clusterFilter)
  }

  /** `filtered_data` and `filtered_customers`. */
  datatype View = View(transactions: seq<Transaction>, customers: seq<Customer>)

  /** The filter block. `dateRange` is what the date widget returns: the
      range applies only when it holds exactly two dates; otherwise (nothing
      or only a start picked) the whole log is kept and customers are chosen
      by cluster alone. */
  function ApplyFilters(data: seq<Transaction>, customers: seq<Customer>,
                        dateRange: seq<Date>, clusterFilter: seq<int>): (v: View)
    ensures |dateRange| == 2 ==>
      forall t :: t in v.transactions <==> t in data && InDateRange(t, dateRange[0], dateRange[1])
    ensures |dateRange| == 2 ==>
      forall t :: multiset(v.transactions)[t] ==
                  if InDateRange(t, dateRange[0], dateRange[1]) then multiset(data)[t] else 0
    ensures |dateRange| != 2 ==> v.transactions == data
    ensures |dateRange| == 2 ==>
      forall c :: c in v.customers <==>
        c in customers && c.cluster in clusterFilter && c.customerId in TransactionCustomerIds(v.transactions)
    ensures |dateRange| != 2 ==>
      forall c :: c in v.customers <==> c in customers && c.cluster in clusterFilter
    ensures |dateRange| == 2 ==>
      forall c :: multiset(v.customers)[c] ==
                  if c.cluster in clusterFilter && c.customerId in TransactionCustomerIds(v.transactions)
                  then multiset(customers)[c] else 0
    ensures |dateRange| != 2 ==>
      forall c :: multiset(v.customers)[c] == if c.cluster in clusterFilter then multiset(customers)[c] else 0
    ensures IsSubsequence(v.transactions, data)
    ensures IsSubsequence(v.customers, customers)
  {
    if |dateRange| == 2 then
      var filteredData := TransactionsBetween(data, dateRange[0], dateRange[1]);
      View(filteredData, ActiveCustomersIn(customers, TransactionCustomerIds(filteredData), clusterFilter))
    else
      SubsequenceOfItself(data);
      View(data, CustomersIn(customers, clusterFilter))
  }

  lemma {:induction false} SubsequenceOfItself<T>(s: seq<T>)
    ensures IsSubsequence(s, s)
    decreases |s|
  {
    if s != [] {
      SubsequenceOfItself(s[1..]);
    }
  }

  /** The cluster selection never changes the transaction view. */
  lemma ClusterSelectionKeepsTransactions(data: seq<Transaction>, customers: seq<Customer>,
                                          dateRange: seq<Date>, k1: seq<int>, k2: seq<int>)
    ensures ApplyFilters(data, customers, dateRange, k1).transactions
         == ApplyFilters(data, customers, dateRange, k2).transactions
  {
  }

  /** Selecting no cluster leaves no customer, whatever the date range. */
  lemma EmptySelectionEmptiesCustomers(data: seq<Transaction>, customers: seq<Customer>, dateRange: seq<Date>)
    ensures ApplyFilters(data, customers, dateRange, []).customers == []
  {
    if |dateRange| == 2 {
      NothingSelected(customers, TransactionCustomerIds(TransactionsBetween(data, dateRange[0], dateRange[1])));
    } else {
      NothingSelected(customers, {});
    }
  }

  lemma {:induction false} NothingSelected(customers: seq<Customer>, ids: set<int>)
    ensures CustomersIn(customers, []) == []
    ensures ActiveCustomersIn(customers, ids, []) == []
    decreases |customers|
  {
    if customers != [] {
      NothingSelected(customers[1..], ids);
    }
  }

  /** Filtering an already filtered log by the same range changes nothing. */
  lemma {:induction false} TransactionsBetweenIdempotent(data: seq<Transaction>, start: Date, end: Date)
    ensures TransactionsBetween(TransactionsBetween(data, start, end), start, end)
         == TransactionsBetween(data, start, end)
    decreases |data|
  {
    if data != [] {
      TransactionsBetweenIdempotent(data[1..], start, end);
    }
  }

  /** Every customer left by an active date range has transacted in it. */
  lemma ActiveCustomersTransacted(data: seq<Transaction>, customers: seq<Customer>,
                                  start: Date, end: Date, clusterFilter: seq<int>, c: Customer)
    requires c in ApplyFilters(data, customers, [start, end], clusterFilter).customers
    ensures exists t :: t in data && InDateRange(t, start, end) && t.customerId == c.customerId
  {
    var v := ApplyFilters(data, customers, [start, end], clusterFilter);
    var t :| t in v.transactions && t.customerId == c.customerId;
    assert t in data && InDateRange(t, start, end);
  }
}
