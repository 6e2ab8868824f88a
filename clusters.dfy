/** Grouping a customer view by its `cluster` column, as `groupby('cluster')`
    and `value_counts()` do: which clusters are present, and which rows fall
    in each. */
module Clusters {
  import opened Dataset

  /** The clusters that occur in a customer view. */
  function ClusterSet(cs: seq<Customer>): set<int> {
    set c | c in cs :: c.cluster
  }

  predicate StrictlyIncreasing(s: seq<int>) {
    forall i, j :: 0 <= i < j < |s| ==> s[i] < s[j]
  }

  /** A cluster below every cluster of an ascending list can go in front of it. */
  lemma ConsIncreasing(y: int, s: seq<int>)
    requires StrictlyIncreasing(s)
    requires forall z :: z in s ==> y < z
    ensures StrictlyIncreasing([y] + s)
  {
    forall i, j | 0 <= i < j < |[y] + s| ensures ([y] + s)[i] < ([y] + s)[j] {
      assert ([y] + s)[j] == s[j - 1];
      if i == 0 {
        assert s[j - 1] in s;
      } else {
        assert ([y] + s)[i] == s[i - 1];
      }
    }
  }

  /** Adds `k` to an ascending list of distinct clusters. */
  function InsertCluster(k: int, s: seq<int>): (r: seq<int>)
    requires StrictlyIncreasing(s)
    ensures StrictlyIncreasing(r)
    ensures forall x :: x in r <==> x == k || x in s
  {
    if s == [] then [k]
    else if k == s[0] then s
    else if k < s[0] then
      InsertBelow(k, s);
      [k] + s
    else
      var tail := InsertCluster(k, s[1..]);
      InsertAbove(k, s, tail);
      [s[0]] + tail
  }

  lemma InsertBelow(k: int, s: seq<int>)
    requires StrictlyIncreasing(s) && s != [] && k < s[0]
    ensures StrictlyIncreasing([k] + s)
  {
    assert forall z :: z in s ==> k < z by {
      forall z | z in s ensures k < z {
        var j :| 0 <= j < |s| && s[j] == z;
        if j > 0 { assert s[0] < s[j]; }
      }
    }
    ConsIncreasing(k, s);
  }

  lemma InsertAbove(k: int, s: seq<int>, tail: seq<int>)
    requires StrictlyIncreasing(s) && s != [] && s[0] < k
    requires StrictlyIncreasing(tail)
    requires forall x :: x in tail <==> x == k || x in s[1..]
    ensures StrictlyIncreasing([s[0]] + tail)
    ensures forall x :: x in [s[0]] + tail <==> x == k || x in s
  {
    assert s == [s[0]] + s[1..];
    assert forall x :: x in tail ==> s[0] < x by {
      forall x | x in tail ensures s[0] < x {
        if x != k {
          var j :| 0 <= j < |s[1..]| && s[1..][j] == x;
          assert s[0] < s[j + 1];
        }
      }
    }
    ConsIncreasing(s[0], tail);
  }

  /** The group keys of `groupby('cluster')` (sorted, the pandas default):
      every cluster present in the view exactly once, in ascending order. */
  function ClustersPresent(cs: seq<Customer>): (r: seq<int>)
    ensures StrictlyIncreasing(r)
    ensures forall k :: k in r <==> k in ClusterSet(cs)
  {
    if cs == [] then []
    else
      assert forall k :: k in ClusterSet(cs) <==> k == cs[0].cluster || k in ClusterSet(cs[1..]) by {
        assert cs == [cs[0]] + cs[1..];
      }
      InsertCluster(cs[0].cluster, ClustersPresent(cs[1..]))
  }

  /** The rows of one cluster, in their original order. */
  function InCluster(cs: seq<Customer>, k: int): (r: seq<Customer>)
    ensures forall c :: c in r <==> c in cs && c.cluster == k
    ensures forall c :: multiset(r)[c] == if c.cluster == k then multiset(cs)[c] else 0
    ensures IsSubsequence(r, cs)
    ensures |r| <= |cs|
  {
    if cs == [] then []
    else
      assert cs == [cs[0]] + cs[1..];
      if cs[0].cluster == k then [cs[0]] + InCluster(cs[1..], k)
    else InCluster(cs[1..], k)
  }

  /** A present cluster has at least one row. */
  lemma PresentClusterNonEmpty(cs: seq<Customer>, k: int)
    requires k in ClusterSet(cs)
    ensures InCluster(cs, k) != []
  {
    var c :| c in cs && c.cluster == k;
    assert c in InCluster(cs, k);
  }

  /** When every row is in cluster `k`, the group of `k` is the whole view. */
  lemma {:induction false} WholeViewInOneCluster(cs: seq<Customer>, k: int)
    requires forall c :: c in cs ==> c.cluster == k
    ensures InCluster(cs, k) == cs
    decreases |cs|
  {
    if cs != [] {
      assert cs[0] in cs;
      assert forall c :: c in cs[1..] ==> c in cs;
      WholeViewInOneCluster(cs[1..], k);
    }
  }

  /** A view whose rows all share cluster `k` has `k` as its only group key. */
  lemma {:induction false} SingleClusterPresent(cs: seq<Customer>, k: int)
    requires cs != []
    requires forall c :: c in cs ==> c.cluster == k
    ensures ClustersPresent(cs) == [k]
    decreases |cs|
  {
    assert cs[0] in cs;
    if cs[1..] != [] {
      assert forall c :: c in cs[1..] ==> c in cs;
      SingleClusterPresent(cs[1..], k);
    }
  }
}
