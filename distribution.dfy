/** The segment distribution: `value_counts()` of the cluster column of the
    filtered customers, and each cluster's percentage of the counted rows. */
module Distribution {
  import opened Dataset
  import opened Clusters

  datatype ClusterCount = ClusterCount(cluster: int, count: nat)

  /** One `(Cluster, Count)` row per cluster of `ks`, in the order of `ks`. */
  function Tally(cs: seq<Customer>, ks: seq<int>): (r: seq<ClusterCount>)
    ensures |r| == |ks|
    ensures forall i :: 0 <= i < |ks| ==> r[i] == ClusterCount(ks[i], |InCluster(cs, ks[i])|)
  {
    if ks == [] then [] else [ClusterCount(ks[0], |InCluster(cs, ks[0])|)] + Tally(cs, ks[1..])
  }

  /** The `Count` column summed. */
  function CountSum(rows: seq<ClusterCount>): nat {
    if rows == [] then 0 else rows[0].count + CountSum(rows[1..])
  }

  predicate CountsDescending(rows: seq<ClusterCount>) {
    forall i, j :: 0 <= i < j < |rows| ==> rows[i].count >= rows[j].count
  }

  /** A row with a count at least that of every row of a descending list
      can go in front of it. */
  lemma ConsDescending(y: ClusterCount, rows: seq<ClusterCount>)
    requires CountsDescending(rows)
    requires forall z :: z in rows ==> y.count >= z.count
    ensures CountsDescending([y] + rows)
  {
    forall i, j | 0 <= i < j < |[y] + rows| ensures ([y] + rows)[i].count >= ([y] + rows)[j].count {
      assert ([y] + rows)[j] == rows[j - 1];
      if i == 0 {
        assert rows[j - 1] in rows;
      } else {
        assert ([y] + rows)[i] == rows[i - 1];
      }
    }
  }

  /** Places `x` before the first row with a smaller count. */
  function InsertByCount(x: ClusterCount, rows: seq<ClusterCount>): (r: seq<ClusterCount>)
    requires CountsDescending(rows)
    ensures CountsDescending(r)
    ensures multiset(r) == multiset(rows) + multiset{x}
    ensures CountSum(r) == x.count + CountSum(rows)
  {
    if rows == [] || x.count >= rows[0].count then
      InsertInFront(x, rows);
      [x] + rows
    else
      var tail := InsertByCount(x, rows[1..]);
      InsertBehind(x, rows, tail);
      [rows[0]] + tail
  }

  lemma InsertInFront(x: ClusterCount, rows: seq<ClusterCount>)
    requires CountsDescending(rows)
    requires rows == [] || x.count >= rows[0].count
    ensures CountsDescending([x] + rows)
    ensures CountSum([x] + rows) == x.count + CountSum(rows)
  {
    assert forall z :: z in rows ==> x.count >= z.count by {
      forall z | z in rows ensures x.count >= z.count {
        var j :| 0 <= j < |rows| && rows[j] == z;
      }
    }
    ConsDescending(x, rows);
    assert ([x] + rows)[1..] == rows;
  }

  lemma InsertBehind(x: ClusterCount, rows: seq<ClusterCount>, tail: seq<ClusterCount>)
    requires CountsDescending(rows) && rows != [] && x.count < rows[0].count
    requires CountsDescending(tail)
    requires multiset(tail) == multiset(rows[1..]) + multiset{x}
    requires CountSum(tail) == x.count + CountSum(rows[1..])
    ensures CountsDescending([rows[0]] + tail)
    ensures multiset([rows[0]] + tail) == multiset(rows) + multiset{x}
    ensures CountSum([rows[0]] + tail) == x.count + CountSum(rows)
  {
    HeadAboveTail(x, rows, tail);
    ConsDescending(rows[0], tail);
    assert ([rows[0]] + tail)[1..] == tail;
    calc {
      multiset([rows[0]] + tail);
      multiset{rows[0]} + multiset(tail);
      multiset{rows[0]} + multiset(rows[1..]) + multiset{x};
      { assert rows == [rows[0]] + rows[1..]; }
      multiset(rows) + multiset{x};
    }
  }

  /** Every row of the tail, being either `x` or a later row of `rows`, has a
      count no larger than the head of `rows`. */
  lemma HeadAboveTail(x: ClusterCount, rows: seq<ClusterCount>, tail: seq<ClusterCount>)
    requires CountsDescending(rows) && rows != [] && x.count < rows[0].count
    requires multiset(tail) == multiset(rows[1..]) + multiset{x}
    ensures forall y :: y in tail ==> rows[0].count >= y.count
  {
    forall y | y in tail ensures rows[0].count >= y.count {
      assert y in multiset(tail);
      if y != x {
        assert y in multiset(rows[1..]);
        var j :| 0 <= j < |rows[1..]| && rows[1..][j] == y;
        assert rows[j + 1] == y;
      }
    }
  }

  /** Orders count rows by descending count. */
  function SortByCount(rows: seq<ClusterCount>): (r: seq<ClusterCount>)
    ensures CountsDescending(r)
    ensures multiset(r) == multiset(rows)
    ensures CountSum(r) == CountSum(rows)
  {
    if rows == [] then []
    else
      assert rows == [rows[0]] + rows[1..];
      InsertByCount(rows[0], SortByCount(rows[1..]))
  }

  /** `filtered_customers['cluster'].value_counts()`: one row per cluster
      present, with its number of rows, largest count first. */
  function ValueCounts(cs: seq<Customer>): (r: seq<ClusterCount>)
    ensures CountsDescending(r)
    ensures |r| == |ClustersPresent(cs)|
    ensures forall x :: x in r ==> x.cluster in ClusterSet(cs) && x.count == |InCluster(cs, x.cluster)| && x.count >= 1
    ensures forall k :: k in ClusterSet(cs) ==> ClusterCount(k, |InCluster(cs, k)|) in r
    ensures forall i, j :: 0 <= i < j < |r| ==> r[i].cluster != r[j].cluster
  {
    var ks := ClustersPresent(cs);
    var tally := Tally(cs, ks);
    var r := SortByCount(tally);
    SortedTallyRows(cs, ks, tally, r);
    DistinctClusters(cs, tally, r);
    r
  }

  lemma SortedTallyRows(cs: seq<Customer>, ks: seq<int>, tally: seq<ClusterCount>, r: seq<ClusterCount>)
    requires ks == ClustersPresent(cs) && tally == Tally(cs, ks)
    requires multiset(r) == multiset(tally)
    ensures |r| == |ks|
    ensures forall x :: x in r ==> x.cluster in ClusterSet(cs) && x.count == |InCluster(cs, x.cluster)| && x.count >= 1
    ensures forall k :: k in ClusterSet(cs) ==> ClusterCount(k, |InCluster(cs, k)|) in r
    ensures forall i, j :: 0 <= i < j < |tally| ==> tally[i].cluster != tally[j].cluster
  {
    assert |r| == |tally| by {
      assert |multiset(r)| == |multiset(tally)|;
    }
    forall x | x in r
      ensures x.cluster in ClusterSet(cs) && x.count == |InCluster(cs, x.cluster)| && x.count >= 1
    {
      assert x in multiset(tally);
      var i :| 0 <= i < |tally| && tally[i] == x;
      assert ks[i] in ks;
      PresentClusterNonEmpty(cs, ks[i]);
    }
    forall k | k in ClusterSet(cs) ensures ClusterCount(k, |InCluster(cs, k)|) in r {
      var i :| 0 <= i < |ks| && ks[i] == k;
      assert tally[i] in multiset(r);
    }
  }

  /** A reordering of rows with distinct clusters, each row's count fixed by
      its cluster, still has distinct clusters. */
  lemma DistinctClusters(cs: seq<Customer>, tally: seq<ClusterCount>, r: seq<ClusterCount>)
    requires forall i, j :: 0 <= i < j < |tally| ==> tally[i].cluster != tally[j].cluster
    requires multiset(r) == multiset(tally)
    requires forall x :: x in r ==> x.count == |InCluster(cs, x.cluster)|
    ensures forall i, j :: 0 <= i < j < |r| ==> r[i].cluster != r[j].cluster
  {
    NoRepeats(tally);
    forall i, j | 0 <= i < j < |r| ensures r[i].cluster != r[j].cluster {
      TwoPositions(r, i, j);
      assert r[i] in r && r[j] in r;
    }
  }

  /** A list without repeated rows holds each row at most once. */
  lemma {:induction false} NoRepeats(s: seq<ClusterCount>)
    requires forall i, j :: 0 <= i < j < |s| ==> s[i].cluster != s[j].cluster
    ensures forall x :: multiset(s)[x] <= 1
    decreases |s|
  {
    if s != [] {
      assert s == [s[0]] + s[1..];
      assert s[0] !in s[1..] by {
        forall j | 0 <= j < |s[1..]| ensures s[1..][j] != s[0] {
          assert s[j + 1].cluster != s[0].cluster;
        }
      }
      NoRepeats(s[1..]);
    }
  }

  /** Two positions holding the same row make it occur twice. */
  lemma TwoPositions(s: seq<ClusterCount>, i: int, j: int)
    requires 0 <= i < j < |s|
    ensures multiset(s)[s[i]] >= 1 + (if s[j] == s[i] then 1 else 0)
  {
    assert s == s[..j] + [s[j]] + s[j + 1..];
    assert s[..j][i] == s[i];
  }

  /** The number of positions of `ks` holding `k`. */
  function Occurrences(ks: seq<int>, k: int): nat {
    if ks == [] then 0 else (if ks[0] == k then 1 else 0) + Occurrences(ks[1..], k)
  }

  lemma {:induction false} OccursOnce(ks: seq<int>, k: int)
    requires StrictlyIncreasing(ks)
    ensures Occurrences(ks, k) == (if k in ks then 1 else 0)
    decreases |ks|
  {
    if ks != [] {
      OccursOnce(ks[1..], k);
      if ks[0] == k {
        assert k !in ks[1..] by {
          forall j | 0 <= j < |ks[1..]| ensures ks[1..][j] != k { assert ks[0] < ks[j + 1]; }
        }
      }
    }
  }

  /** Adding a row `c` in front of a view adds one to the tally of its cluster. */
  lemma {:induction false} TallyOfCons(c: Customer, rest: seq<Customer>, ks: seq<int>)
    ensures CountSum(Tally([c] + rest, ks)) == Occurrences(ks, c.cluster) + CountSum(Tally(rest, ks))
    decreases |ks|
  {
    if ks != [] {
      assert ([c] + rest)[1..] == rest;
      TallyOfCons(c, rest, ks[1..]);
    }
  }

  lemma {:induction false} TallyOfEmpty(ks: seq<int>)
    ensures CountSum(Tally([], ks)) == 0
    decreases |ks|
  {
    if ks != [] {
      TallyOfEmpty(ks[1..]);
    }
  }

  /** The per-cluster groups partition the view: tallied over any ascending
      list of clusters that covers the view, the counts add up to its rows. */
  lemma {:induction false} TallyCoversView(cs: seq<Customer>, ks: seq<int>)
    requires StrictlyIncreasing(ks)
    requires forall c :: c in cs ==> c.cluster in ks
    ensures CountSum(Tally(cs, ks)) == |cs|
    decreases |cs|
  {
    if cs == [] {
      TallyOfEmpty(ks);
    } else {
      assert cs == [cs[0]] + cs[1..];
      assert cs[0] in cs;
      assert forall c :: c in cs[1..] ==> c in cs;
      TallyOfCons(cs[0], cs[1..], ks);
      OccursOnce(ks, cs[0].cluster);
      TallyCoversView(cs[1..], ks);
    }
  }

  /** The counts of `value_counts()` add up to the number of filtered customers. */
  lemma CountsSumToView(cs: seq<Customer>)
    ensures CountSum(ValueCounts(cs)) == |cs|
  {
    var ks := ClustersPresent(cs);
    assert forall c :: c in cs ==> c.cluster in ks;
    TallyCoversView(cs, ks);
  }

  datatype SegmentShare = SegmentShare(cluster: int, count: nat, percentage: real)

  /** `count / total * 100`. */
  function Percent(count: nat, total: nat): (p: real)
    requires total > 0
    ensures p * (total as real) == (count as real) * 100.0
    ensures 0.0 <= p && (count <= total ==> p <= 100.0)
  {
    (count as real) / (total as real) * 100.0
  }

  /** Attaches `Count / total * 100` to each row. */
  function WithPercentages(rows: seq<ClusterCount>, total: nat): (r: seq<SegmentShare>)
    requires total > 0
    ensures |r| == |rows|
    ensures forall i :: 0 <= i < |rows| ==>
      r[i] == SegmentShare(rows[i].cluster, rows[i].count, Percent(rows[i].count, total))
  {
    if rows == [] then []
    else [SegmentShare(rows[0].cluster, rows[0].count, Percent(rows[0].count, total))]
         + WithPercentages(rows[1..], total)
  }

  function PercentageSum(rows: seq<SegmentShare>): real {
    if rows == [] then 0.0 else rows[0].percentage + PercentageSum(rows[1..])
  }

  lemma PercentAdds(a: nat, b: nat, total: nat)
    requires total > 0
    ensures Percent(a, total) + Percent(b, total) == Percent(a + b, total)
  {
    var x, y, t := a as real, b as real, total as real;
    assert (x + y) / t == x / t + y / t;
  }

  lemma {:induction false} PercentagesAddUp(rows: seq<ClusterCount>, total: nat)
    requires total > 0
    ensures PercentageSum(WithPercentages(rows, total)) == Percent(CountSum(rows), total)
    decreases |rows|
  {
    if rows == [] {
      assert Percent(0, total) == 0.0;
    } else {
      PercentagesAddUp(rows[1..], total);
      PercentAdds(rows[0].count, CountSum(rows[1..]), total);
    }
  }

  /** The table behind the donut chart: `value_counts()` with a percentage
      column, each row's share of the counted customers. */
  function SegmentDistribution(cs: seq<Customer>): (r: seq<SegmentShare>)
    ensures |r| == |ClustersPresent(cs)|
    ensures forall i :: 0 <= i < |r| ==>
      r[i].cluster in ClusterSet(cs) && r[i].count == |InCluster(cs, r[i].cluster)|
      && r[i].percentage == Percent(r[i].count, |cs|)
    ensures forall k :: k in ClusterSet(cs) ==> exists i :: 0 <= i < |r| && r[i].cluster == k
    ensures forall i, j :: 0 <= i < j < |r| ==> r[i].cluster != r[j].cluster && r[i].count >= r[j].count
  {
    if cs == [] then []
    else
      var counts := ValueCounts(cs);
      var r := WithPercentages(counts, |cs|);
      DistributionRows(cs, counts, r);
      r
  }

  lemma DistributionRows(cs: seq<Customer>, counts: seq<ClusterCount>, r: seq<SegmentShare>)
    requires counts == ValueCounts(cs) && |cs| > 0
    requires r == WithPercentages(counts, |cs|)
    ensures |r| == |ClustersPresent(cs)|
    ensures forall i :: 0 <= i < |r| ==>
      r[i].cluster in ClusterSet(cs) && r[i].count == |InCluster(cs, r[i].cluster)|
      && r[i].percentage == Percent(r[i].count, |cs|)
    ensures forall k :: k in ClusterSet(cs) ==> exists i :: 0 <= i < |r| && r[i].cluster == k
    ensures forall i, j :: 0 <= i < j < |r| ==> r[i].cluster != r[j].cluster && r[i].count >= r[j].count
  {
    forall k | k in ClusterSet(cs) ensures exists i :: 0 <= i < |r| && r[i].cluster == k {
      var i :| 0 <= i < |counts| && counts[i] == ClusterCount(k, |InCluster(cs, k)|);
      assert r[i].cluster == k;
    }
    forall i | 0 <= i < |r|
      ensures r[i].cluster in ClusterSet(cs) && r[i].count == |InCluster(cs, r[i].cluster)|
    {
      var x := counts[i];
      assert x in counts;
      assert x.cluster in ClusterSet(cs) && x.count == |InCluster(cs, x.cluster)|;
    }
  }

  /** The percentages of a non-empty view add up to 100. */
  lemma PercentagesSumToHundred(cs: seq<Customer>)
    requires cs != []
    ensures PercentageSum(SegmentDistribution(cs)) == 100.0
  {
    var counts := ValueCounts(cs);
    CountsSumToView(cs);
    assert SegmentDistribution(cs) == WithPercentages(counts, |cs|);
    PercentagesAddUp(counts, |cs|);
    WholeIsHundredPercent(|cs|);
  }

  lemma WholeIsHundredPercent(n: nat)
    requires n > 0
    ensures Percent(n, n) == 100.0
  {
    assert (n as real) / (n as real) == 1.0;
  }
}
