/** The segment profile: per-cluster means of four customer metrics, and the
    radar chart's coordinates, each mean scaled by the largest mean of its
    metric over the clusters shown, with recency inverted. */
module Profile {
  import opened Dataset
  import opened Clusters

  /** One row of `cluster_metrics`: a cluster and its four means. */
  datatype ClusterMeans = ClusterMeans(cluster: int, monetary: real, frequency: real, recency: real, valueScore: real)
  {
    function Get(m: Metric): real {
      match m
      case Monetary => monetary
      case Frequency => frequency
      case Recency => recency
      case ValueScore => valueScore
    }
  }

  /** The arithmetic mean of one metric over a non-empty group. */
  function GroupMean(group: seq<Customer>, m: Metric): (r: real)
    requires group != []
    ensures r * (|group| as real) == MetricTotal(group, m)
  {
    MetricTotal(group, m) / (|group| as real)
  }

  /** The means of the rows of cluster `k`. */
  function MeansOf(cs: seq<Customer>, k: int): (r: ClusterMeans)
    requires k in ClusterSet(cs)
    ensures r.cluster == k && InCluster(cs, k) != []
    ensures forall m :: r.Get(m) == GroupMean(InCluster(cs, k), m)
  {
    PresentClusterNonEmpty(cs, k);
    var g := InCluster(cs, k);
    var r := ClusterMeans(k, GroupMean(g, Monetary), GroupMean(g, Frequency),
                          GroupMean(g, Recency), GroupMean(g, ValueScore));
    MeansEachMetric(g, r);
    r
  }

  lemma MeansEachMetric(g: seq<Customer>, r: ClusterMeans)
    requires g != []
    requires r.monetary == GroupMean(g, Monetary) && r.frequency == GroupMean(g, Frequency)
    requires r.recency == GroupMean(g, Recency) && r.valueScore == GroupMean(g, ValueScore)
    ensures forall m :: r.Get(m) == GroupMean(g, m)
  {
    forall m ensures r.Get(m) == GroupMean(g, m) {
      match m
      case Monetary =>
      case Frequency =>
      case Recency =>
      case ValueScore =>
    }
  }

  function MeansFor(cs: seq<Customer>, ks: seq<int>): (r: seq<ClusterMeans>)
    requires forall k :: k in ks ==> k in ClusterSet(cs)
    ensures |r| == |ks|
    ensures forall i :: 0 <= i < |ks| ==> r[i] == MeansOf(cs, ks[i])
  {
    if ks == [] then [] else [MeansOf(cs, ks[0])] + MeansFor(cs, ks[1..])
  }

  /** `filtered_customers.groupby('cluster').agg(mean)`: one row per cluster
      present, in ascending cluster order, holding that cluster's means. */
  function ClusterMetrics(cs: seq<Customer>): (rows: seq<ClusterMeans>)
    ensures |rows| == |ClustersPresent(cs)|
    ensures forall i :: 0 <= i < |rows| ==> rows[i].cluster == ClustersPresent(cs)[i]
    ensures forall i, j :: 0 <= i < j < |rows| ==> rows[i].cluster < rows[j].cluster
    ensures forall k :: k in ClusterSet(cs) <==> exists i :: 0 <= i < |rows| && rows[i].cluster == k
    ensures forall i :: 0 <= i < |rows| ==> InCluster(cs, rows[i].cluster) != []
    ensures forall i, m :: 0 <= i < |rows| ==> rows[i].Get(m) == GroupMean(InCluster(cs, rows[i].cluster), m)
  {
    var ks := ClustersPresent(cs);
    var rows := MeansFor(cs, ks);
    assert forall k :: k in ClusterSet(cs) ==> exists i :: 0 <= i < |ks| && ks[i] == k;
    rows
  }

  /** `cluster_metrics[m].max()`. */
  function ColumnMax(rows: seq<ClusterMeans>, m: Metric): (r: real)
    requires rows != []
    ensures forall i :: 0 <= i < |rows| ==> rows[i].Get(m) <= r
    ensures exists i :: 0 <= i < |rows| && rows[i].Get(m) == r
  {
    if |rows| == 1 then rows[0].Get(m)
    else
      var rest := ColumnMax(rows[1..], m);
      assert forall i :: 1 <= i < |rows| ==> rows[i] == rows[1..][i - 1];
      if rows[0].Get(m) >= rest then rows[0].Get(m) else rest
  }

  /** A radar point; a coordinate is None where the dashboard divides by a
      zero maximum. */
  datatype RadarPoint = RadarPoint(
    cluster: int, monetary: Option<real>, frequency: Option<real>,
    recency: Option<real>, valueScore: Option<real>)
  {
    function Get(m: Metric): Option<real> {
      match m
      case Monetary => monetary
      case Frequency => frequency
      case Recency => recency
      case ValueScore => valueScore
    }
  }

  /** `x / max`, or `1 - x / max` for recency, where lower is better. */
  function Scale(x: real, max: real, m: Metric): (r: Option<real>)
    ensures r.None? <==> max == 0.0
    ensures r.Some? ==> if m == Recency then (1.0 - r.value) * max == x else r.value * max == x
  {
    if max == 0.0 then None
    else if m == Recency then Some(1.0 - x / max)
    else Some(x / max)
  }

  function Normalise(row: ClusterMeans, rows: seq<ClusterMeans>): (p: RadarPoint)
    requires rows != []
    ensures p.cluster == row.cluster
    ensures forall m :: p.Get(m) == Scale(row.Get(m), ColumnMax(rows, m), m)
  {
    var p := RadarPoint(row.cluster,
      Scale(row.monetary, ColumnMax(rows, Monetary), Monetary),
      Scale(row.frequency, ColumnMax(rows, Frequency), Frequency),
      Scale(row.recency, ColumnMax(rows, Recency), Recency),
      Scale(row.valueScore, ColumnMax(rows, ValueScore), ValueScore));
    NormaliseEachMetric(row, rows, p);
    p
  }

  lemma NormaliseEachMetric(row: ClusterMeans, rows: seq<ClusterMeans>, p: RadarPoint)
    requires rows != []
    requires p == RadarPoint(row.cluster,
      Scale(row.monetary, ColumnMax(rows, Monetary), Monetary),
      Scale(row.frequency, ColumnMax(rows, Frequency), Frequency),
      Scale(row.recency, ColumnMax(rows, Recency), Recency),
      Scale(row.valueScore, ColumnMax(rows, ValueScore), ValueScore))
    ensures forall m :: p.Get(m) == Scale(row.Get(m), ColumnMax(rows, m), m)
  {
    forall m ensures p.Get(m) == Scale(row.Get(m), ColumnMax(rows, m), m) {
      match m
      case Monetary =>
      case Frequency =>
      case Recency =>
      case ValueScore =>
    }
  }

  function NormaliseAll(todo: seq<ClusterMeans>, rows: seq<ClusterMeans>): (r: seq<RadarPoint>)
    requires rows != []
    ensures |r| == |todo|
    ensures forall i :: 0 <= i < |todo| ==> r[i] == Normalise(todo[i], rows)
  {
    if todo == [] then [] else [Normalise(todo[0], rows)] + NormaliseAll(todo[1..], rows)
  }

  /** The radar chart: one point per cluster present, ascending by cluster,
      each metric scaled against the clusters of this view only. */
  function RadarProfile(cs: seq<Customer>): (r: seq<RadarPoint>)
    ensures |r| == |ClusterMetrics(cs)|
    ensures forall i :: 0 <= i < |r| ==> r[i].cluster == ClusterMetrics(cs)[i].cluster
    ensures forall i, m :: 0 <= i < |r| ==>
      r[i].Get(m) == Scale(ClusterMetrics(cs)[i].Get(m), ColumnMax(ClusterMetrics(cs), m), m)
  {
    var rows := ClusterMetrics(cs);
    if rows == [] then [] else NormaliseAll(rows, rows)
  }

  predicate AllMetricsNonNegative(cs: seq<Customer>) {
    forall c, m :: c in cs ==> MetricOf(c, m) >= 0.0
  }

  predicate InUnitInterval(o: Option<real>) {
    o.Some? ==> 0.0 <= o.value <= 1.0
  }

  lemma {:induction false} TotalNonNegative(cs: seq<Customer>, m: Metric)
    requires AllMetricsNonNegative(cs)
    ensures MetricTotal(cs, m) >= 0.0
    decreases |cs|
  {
    if cs != [] {
      assert cs[0] in cs;
      assert AllMetricsNonNegative(cs[1..]) by {
        forall c, m' | c in cs[1..] ensures MetricOf(c, m') >= 0.0 { assert c in cs; }
      }
      TotalNonNegative(cs[1..], m);
    }
  }

  /** A non-negative value scaled by a maximum at least as large lies in [0, 1]. */
  lemma ScaleInUnitInterval(x: real, max: real, m: Metric)
    requires 0.0 <= x <= max
    ensures InUnitInterval(Scale(x, max, m))
  {
    if max != 0.0 {
      assert 0.0 <= x / max <= 1.0;
      assert 0.0 <= 1.0 - x / max <= 1.0;
    }
  }

  lemma GroupMeanSign(g: seq<Customer>, m: Metric)
    requires g != []
    ensures MetricTotal(g, m) >= 0.0 ==> GroupMean(g, m) >= 0.0
    ensures MetricTotal(g, m) != 0.0 ==> GroupMean(g, m) != 0.0
  {
  }

  /** A mean that is its own maximum scales to 1 (to 0 for recency). */
  lemma ScaleOfMaximum(x: real, m: Metric)
    requires x != 0.0
    ensures Scale(x, x, m) == Some(if m == Recency then 0.0 else 1.0)
  {
    assert x / x == 1.0;
  }

  /** With non-negative customer metrics, every radar coordinate that is
      defined lies in [0, 1]. */
  lemma RadarCoordinatesInUnitInterval(cs: seq<Customer>)
    requires AllMetricsNonNegative(cs)
    ensures forall i, m :: 0 <= i < |RadarProfile(cs)| ==> InUnitInterval(RadarProfile(cs)[i].Get(m))
  {
    var rows := ClusterMetrics(cs);
    var r := RadarProfile(cs);
    forall i, m | 0 <= i < |r| ensures InUnitInterval(r[i].Get(m)) {
      var g := InCluster(cs, rows[i].cluster);
      assert AllMetricsNonNegative(g);
      TotalNonNegative(g, m);
      GroupMeanSign(g, m);
      ScaleInUnitInterval(rows[i].Get(m), ColumnMax(rows, m), m);
    }
  }

  /** The cluster with the largest mean of a metric scores 1 on it (0 on
      recency, which is inverted), whenever that maximum is not zero. */
  lemma MaximumScoresExtreme(cs: seq<Customer>, i: int, m: Metric)
    requires 0 <= i < |ClusterMetrics(cs)|
    requires ClusterMetrics(cs)[i].Get(m) == ColumnMax(ClusterMetrics(cs), m) != 0.0
    ensures RadarProfile(cs)[i].Get(m) == Some(if m == Recency then 0.0 else 1.0)
  {
    ScaleOfMaximum(ClusterMetrics(cs)[i].Get(m), m);
  }

  /** A view holding one cluster only is drawn as (1, 1, 0, 1): each mean is
      its own maximum, and recency is inverted. */
  lemma SingleClusterProfile(cs: seq<Customer>, k: int)
    requires cs != []
    requires forall c :: c in cs ==> c.cluster == k
    requires forall m :: MetricTotal(cs, m) != 0.0
    ensures RadarProfile(cs) == [RadarPoint(k, Some(1.0), Some(1.0), Some(0.0), Some(1.0))]
  {
    SingleClusterPresent(cs, k);
    WholeViewInOneCluster(cs, k);
    var rows := ClusterMetrics(cs);
    assert |rows| == 1 && rows[0].cluster == k;
    var p := RadarProfile(cs);
    forall m ensures p[0].Get(m) == Some(if m == Recency then 0.0 else 1.0) {
      GroupMeanSign(cs, m);
      MaximumScoresExtreme(cs, 0, m);
    }
    assert p[0].monetary == p[0].Get(Monetary);
    assert p[0].frequency == p[0].Get(Frequency);
    assert p[0].recency == p[0].Get(Recency);
    assert p[0].valueScore == p[0].Get(ValueScore);
  }
}
