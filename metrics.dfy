/** The four headline KPIs: a value over the filtered views and a percentage
    against the unfiltered tables. Where the dashboard divides by zero or
    averages an empty column, the model answers None. For the float figures
    pandas would show inf or NaN there; for the customer ratio, whose operands
    are `int` counts, an empty customer table raises ZeroDivisionError and
    None stands for that crash. */
module Metrics {
  import opened Dataset
  import opened Filter

  /** `part / whole * 100`: the figure shown under the customer and revenue
      KPIs, a share of the baseline rather than a change from it. */
  function Share(part: real, whole: real): (r: Option<real>)
    ensures r.None? <==> whole == 0.0
    ensures r.Some? ==> r.value * whole == part * 100.0
  {
    if whole == 0.0 then None else Some(part / whole * 100.0)
  }

  /** `(value - base) / base * 100`: the change shown under the average order
      value and average frequency KPIs. */
  function PercentChange(value: real, base: real): (r: Option<real>)
    ensures r.None? <==> base == 0.0
    ensures r.Some? ==> value == base + base * r.value / 100.0
  {
    if base == 0.0 then None else Some((value - base) / base * 100.0)
  }

  /** `purchase_amount.mean()`; undefined on an empty view. */
  function AvgOrderValue(ts: seq<Transaction>): (r: Option<real>)
    ensures r.None? <==> ts == []
    ensures r.Some? ==> r.value * (|ts| as real) == Revenue(ts)
  {
    if ts == [] then None else Some(Revenue(ts) / (|ts| as real))
  }

  /** The mean of one customer column; undefined on an empty view. */
  function AvgMetric(cs: seq<Customer>, m: Metric): (r: Option<real>)
    ensures r.None? <==> cs == []
    ensures r.Some? ==> r.value * (|cs| as real) == MetricTotal(cs, m)
  {
    if cs == [] then None else Some(MetricTotal(cs, m) / (|cs| as real))
  }

  /** The change between two means, available only when both are. */
  function MeanChange(value: Option<real>, base: Option<real>): (r: Option<real>)
    ensures r.Some? <==> value.Some? && base.Some? && base.value != 0.0
    ensures r.Some? ==> value.value == base.value + base.value * r.value / 100.0
  {
    if value.Some? && base.Some? then PercentChange(value.value, base.value) else None
  }

  /** The mean order value of a non-empty view is zero exactly when its
      revenue is. */
  lemma AvgOrderValueZero(ts: seq<Transaction>)
    ensures ts != [] ==> (AvgOrderValue(ts).value == 0.0 <==> Revenue(ts) == 0.0)
  {
  }

  /** The mean of a column over a non-empty view is zero exactly when its
      total is. */
  lemma AvgMetricZero(cs: seq<Customer>, m: Metric)
    ensures cs != [] ==> (AvgMetric(cs, m).value == 0.0 <==> MetricTotal(cs, m) == 0.0)
  {
  }

  datatype Kpis = Kpis(
    customerCount: nat,
    customerShare: Option<real>,
    totalRevenue: real,
    revenueShare: Option<real>,
    avgOrderValue: Option<real>,
    avgOrderValueChange: Option<real>,
    avgFrequency: Option<real>,
    avgFrequencyChange: Option<real>)

  /** The four `st.metric` figures for a filtered view `v` of the base tables
      `data` and `customers`. What each figure means is stated by the lemmas
      below, one per KPI. */
  function ComputeKpis(data: seq<Transaction>, customers: seq<Customer>, v: View): Kpis {
    var avgOrderValue := AvgOrderValue(v.transactions);
    var avgFrequency := AvgMetric(v.customers, Frequency);
    Kpis(|CustomerIds(v.customers)|,
         Share(|CustomerIds(v.customers)| as real, |CustomerIds(customers)| as real),
         Revenue(v.transactions), Share(Revenue(v.transactions), Revenue(data)),
         avgOrderValue, MeanChange(avgOrderValue, AvgOrderValue(data)),
         avgFrequency, MeanChange(avgFrequency, AvgMetric(customers, Frequency)))
  }

  /** The customer and revenue KPIs: the distinct customers and the revenue of
      the view (zero for an empty view), each with its ratio to the baseline
      table, missing exactly when the baseline is zero. */
  lemma CustomerAndRevenueKpis(data: seq<Transaction>, customers: seq<Customer>, v: View, k: Kpis)
    requires k == ComputeKpis(data, customers, v)
    ensures k.customerCount == |CustomerIds(v.customers)|
    ensures k.totalRevenue == Revenue(v.transactions)
    ensures v.customers == [] ==> k.customerCount == 0
    ensures v.transactions == [] ==> k.totalRevenue == 0.0
    ensures k.customerShare.None? <==> customers == []
    ensures k.revenueShare.None? <==> Revenue(data) == 0.0
    ensures k.customerShare.Some? ==>
      k.customerShare.value * (|CustomerIds(customers)| as real) == (k.customerCount as real) * 100.0
    ensures k.revenueShare.Some? ==> k.revenueShare.value * Revenue(data) == k.totalRevenue * 100.0
  {
    NoIdsOnlyWhenEmpty(customers);
  }

  /** The average order value KPI: the mean amount of the view, missing exactly
      when the view is empty, and its change from the baseline mean, missing
      exactly when either table is empty or the baseline revenue is zero. */
  lemma OrderValueKpi(data: seq<Transaction>, customers: seq<Customer>, v: View, k: Kpis)
    requires k == ComputeKpis(data, customers, v)
    ensures k.avgOrderValue == AvgOrderValue(v.transactions)
    ensures k.avgOrderValue.None? <==> v.transactions == []
    ensures k.avgOrderValueChange.Some? <==>
      v.transactions != [] && data != [] && Revenue(data) != 0.0
    ensures k.avgOrderValueChange.Some? ==>
      var o := AvgOrderValue(data).value;
      k.avgOrderValue.value == o + o * k.avgOrderValueChange.value / 100.0
  {
    AvgOrderValueZero(data);
  }

  /** The average frequency KPI: the mean frequency of the customer view,
      missing exactly when the view is empty, and its change from the baseline
      mean, missing exactly when either table is empty or the baseline total
      frequency is zero. */
  lemma FrequencyKpi(data: seq<Transaction>, customers: seq<Customer>, v: View, k: Kpis)
    requires k == ComputeKpis(data, customers, v)
    ensures k.avgFrequency == AvgMetric(v.customers, Frequency)
    ensures k.avgFrequency.None? <==> v.customers == []
    ensures k.avgFrequencyChange.Some? <==>
      v.customers != [] && customers != [] && MetricTotal(customers, Frequency) != 0.0
    ensures k.avgFrequencyChange.Some? ==>
      var o := AvgMetric(customers, Frequency).value;
      k.avgFrequency.value == o + o * k.avgFrequencyChange.value / 100.0
  {
    AvgMetricZero(customers, Frequency);
  }

  lemma SubsetCardinality(a: set<int>, b: set<int>)
    requires a <= b
    ensures |a| <= |b|
  {
    assert b == a + (b - a);
  }

  lemma NoIdsOnlyWhenEmpty(cs: seq<Customer>)
    ensures |CustomerIds(cs)| == 0 <==> cs == []
  {
    if cs != [] {
      assert cs[0].customerId in CustomerIds(cs);
    }
  }

  /** A value no larger than a positive baseline is at most 100 percent of it. */
  lemma ShareAtMostHundred(part: real, whole: real)
    requires 0.0 <= part <= whole && whole > 0.0
    ensures Share(part, whole).Some?
    ensures 0.0 <= Share(part, whole).value <= 100.0
  {
    assert part / whole <= 1.0;
    assert part / whole >= 0.0;
  }

  /** The customer and revenue figures never exceed 100 percent: the filtered
      views are drawn from the baseline tables. */
  lemma {:induction false} FilteredSharesAtMostHundred(data: seq<Transaction>, customers: seq<Customer>,
                                                       dateRange: seq<Date>, clusterFilter: seq<int>)
    ensures var k := ComputeKpis(data, customers, ApplyFilters(data, customers, dateRange, clusterFilter));
      customers != [] ==> k.customerShare.Some? && 0.0 <= k.customerShare.value <= 100.0
    ensures var k := ComputeKpis(data, customers, ApplyFilters(data, customers, dateRange, clusterFilter));
      NonNegativeAmounts(data) && Revenue(data) > 0.0 ==>
        k.revenueShare.Some? && 0.0 <= k.revenueShare.value <= 100.0
  {
    var v := ApplyFilters(data, customers, dateRange, clusterFilter);
    CustomerAndRevenueKpis(data, customers, v, ComputeKpis(data, customers, v));
    SubsequenceLength(v.customers, customers);
    SubsetCardinality(CustomerIds(v.customers), CustomerIds(customers));
    NoIdsOnlyWhenEmpty(customers);
    if customers != [] {
      ShareAtMostHundred(|CustomerIds(v.customers)| as real, |CustomerIds(customers)| as real);
    }
    if NonNegativeAmounts(data) && Revenue(data) > 0.0 {
      RevenueOfSubsequence(v.transactions, data);
      SubsequenceLength(v.transactions, data);
      NonNegativeRevenue(v.transactions);
      ShareAtMostHundred(Revenue(v.transactions), Revenue(data));
    }
  }

  lemma {:induction false} NonNegativeRevenue(ts: seq<Transaction>)
    requires NonNegativeAmounts(ts)
    ensures Revenue(ts) >= 0.0
    decreases |ts|
  {
    if ts != [] {
      assert ts[0] in ts;
      assert NonNegativeAmounts(ts[1..]) by {
        forall t | t in ts[1..] ensures t.purchaseAmount >= 0.0 { assert t in ts; }
      }
      NonNegativeRevenue(ts[1..]);
    }
  }

  /** The change figure is the share figure less 100. */
  lemma ChangeIsShareLessHundred(value: real, base: real)
    requires base != 0.0
    ensures PercentChange(value, base).value == Share(value, base).value - 100.0
  {
    assert base / base == 1.0;
    assert (value - base) / base == value / base - base / base;
  }

  /** A filtered revenue of 1200 against a baseline of 1000 is a 20 percent
      change (and a 120 percent share). */
  lemma ChangeExample()
    ensures PercentChange(1200.0, 1000.0) == Some(20.0)
    ensures Share(1200.0, 1000.0) == Some(120.0)
  {
  }

  /** With no date range and every cluster selected, each figure reports the
      baseline itself: shares of 100 and changes of 0. */
  lemma {:induction false} UnfilteredViewMatchesBaseline(data: seq<Transaction>, customers: seq<Customer>,
                                                         dateRange: seq<Date>, clusterFilter: seq<int>)
    requires |dateRange| != 2
    requires forall c :: c in customers ==> c.cluster in clusterFilter
    ensures var k := ComputeKpis(data, customers, ApplyFilters(data, customers, dateRange, clusterFilter));
      && (customers != [] ==> k.customerShare == Some(100.0))
      && (Revenue(data) != 0.0 ==> k.revenueShare == Some(100.0))
      && (data != [] && Revenue(data) != 0.0 ==> k.avgOrderValueChange == Some(0.0))
      && (customers != [] && MetricTotal(customers, Frequency) != 0.0 ==> k.avgFrequencyChange == Some(0.0))
  {
    var v := ApplyFilters(data, customers, dateRange, clusterFilter);
    NoIdsOnlyWhenEmpty(customers);
    AvgOrderValueZero(data);
    AvgMetricZero(customers, Frequency);
    assert CustomerIds(v.customers) == CustomerIds(customers);
    AllSelected(customers, clusterFilter);
    assert v.customers == customers;
  }

  lemma {:induction false} AllSelected(customers: seq<Customer>, clusterFilter: seq<int>)
    requires forall c :: c in customers ==> c.cluster in clusterFilter
    ensures CustomersIn(customers, clusterFilter) == customers
    decreases |customers|
  {
    if customers != [] {
      assert customers[0] in customers;
      assert forall c :: c in customers[1..] ==> c in customers;
      AllSelected(customers[1..], clusterFilter);
    }
  }
}
