# Customer segmentation dashboard: query and aggregation layer

The dashboard reads two tables:

- a transaction log: customer id, order timestamp, purchase amount and currency;
- a clustered customer-feature table: one row per customer, holding its cluster label and derived features such as monetary value, frequency, recency and a customer value score.

Every chart and KPI is computed from two filtered views of these tables. The model covers the computation that turns the tables into those figures:

- **Filter** (`filter.dfy`): the date-range filter on the log and the cluster selection on the customers. With a date range, the customer view keeps only customers who ordered in that range.
- **KPIs** (`metrics.dfy`): the four headline figures.
  - distinct customers and total revenue, each with its ratio to the unfiltered table;
  - average order value and average purchase frequency, each with its percentage change from the unfiltered mean.
- **Segment distribution** (`clusters.dfy`, `distribution.dfy`): the number of customers per cluster (pandas `value_counts`) and each cluster's percentage.
- **Segment profile** (`profile.dfy`): the per-cluster means of monetary, frequency, recency and value score. The radar chart shows each mean divided by the largest mean of that metric, with recency inverted.
- **Monthly rollup** (`rollup.dfy`): the transactions left-joined to the customer clusters, bucketed by calendar month and cluster. Each bucket holds its revenue, mean order value, distinct customers and order count.

Everything is a pure function over `seq`s of records. Amounts and means are exact `real`s. Where the dashboard divides by zero or averages an empty column, the model returns `None`. For the float figures, pandas would show inf or NaN there. For the customer ratio (streamlit_app.py:84), both operands are Python `int`s from `nunique()`, so an empty customer table raises `ZeroDivisionError` and the page stops. In that case `None` stands for the crash, not for a displayed value.

## Model

| member | source | states |
|---|---|---|
| Filter.TransactionsBetween | streamlit_app.py:63-64 | A transaction is kept iff it is in the log and its calendar date lies in [start, end], both ends included and the time of day ignored. Each kept transaction occurs as many times as in the log, each other one not at all. The result keeps the log's order (a subsequence) |
| Filter.ApplyFilters | streamlit_app.py:61-74 | With exactly two dates: transactions as in TransactionsBetween, and a customer is kept iff its cluster is selected and its id occurs among the kept transactions. Otherwise: the whole log, and a customer is kept iff its cluster is selected. Kept rows keep their multiplicity from the table. Both views are order-preserving subsequences of their tables |
| Filter.ClusterSelectionKeepsTransactions | streamlit_app.py:61-74 | The cluster selection never changes the transaction view |
| Filter.EmptySelectionEmptiesCustomers | streamlit_app.py:66-69 | Selecting no cluster empties the customer view, with or without a date range |
| Filter.TransactionsBetweenIdempotent | streamlit_app.py:63-64 | Filtering by the same range twice gives the same view as filtering once |
| Filter.ActiveCustomersTransacted | streamlit_app.py:66-69 | Every customer kept under a date range has a transaction in the log inside that range |
| Dataset.RevenueOfSubsequence | streamlit_app.py:90-91 | Dropping rows never raises the revenue of a log with non-negative amounts |
| Dataset.DistinctIdsAtMostRows | streamlit_app.py:263-264 | A view has no more distinct customer ids than rows |
| Metrics.Share | streamlit_app.py:84 | `part / whole * 100`: None iff the baseline is zero; otherwise result * whole = part * 100 |
| Metrics.PercentChange | streamlit_app.py:100 | `(value - base) / base * 100`: None iff the base is zero; otherwise value = base + base * result / 100 |
| Metrics.AvgOrderValue | streamlit_app.py:95-96 | The mean purchase amount: None iff the view is empty; otherwise mean * rows = revenue |
| Metrics.AvgMetric | streamlit_app.py:104-105 | The mean of a customer column: None iff the view is empty; otherwise mean * rows = column total |
| Metrics.MeanChange | streamlit_app.py:100 | The change between two means: present iff both means are and the base is non-zero; then value = base + base * change / 100 |
| Metrics.CustomerAndRevenueKpis | streamlit_app.py:80-92 | The KPI figures are the view's distinct customers and its revenue, zero for an empty view. Customer ratio * base distinct customers = count * 100, missing iff the customer table is empty. Revenue ratio * base revenue = revenue * 100, missing iff the base revenue is zero |
| Metrics.OrderValueKpi | streamlit_app.py:94-101 | The figure is the view's mean amount, missing iff the view is empty. Its change is present iff the view and the log are non-empty and the log's revenue is non-zero; then the figure = base mean + base mean * change / 100 |
| Metrics.FrequencyKpi | streamlit_app.py:103-110 | The figure is the customer view's mean frequency, missing iff the view is empty. Its change is present iff both customer tables are non-empty and the base frequency total is non-zero; then the figure = base mean + base mean * change / 100 |
| Metrics.ShareAtMostHundred | streamlit_app.py:84 | A part between zero and a positive whole is a share between 0 and 100 |
| Metrics.FilteredSharesAtMostHundred | streamlit_app.py:83-84 | Under any filter, the customer ratio lies in [0, 100] when the customer table is non-empty. So does the revenue ratio when amounts are non-negative and the total revenue is positive |
| Metrics.ChangeIsShareLessHundred | streamlit_app.py:91-100 | For a non-zero base, the change figure is the ratio figure less 100 |
| Metrics.ChangeExample | streamlit_app.py:100 | A filtered value of 1200 against a baseline of 1000 is a change of 20 and a ratio of 120 |
| Metrics.UnfilteredViewMatchesBaseline | streamlit_app.py:70-110 | With no date range and every cluster selected, both ratios are 100 and both changes are 0, wherever they are defined |
| Clusters.ClustersPresent | streamlit_app.py:147 | The group keys of `groupby('cluster')`: strictly ascending, and holding exactly the clusters that occur in the view |
| Clusters.InCluster | streamlit_app.py:147 | A cluster's group holds exactly the view's rows of that cluster, each as many times as in the view, in view order |
| Clusters.SingleClusterPresent | streamlit_app.py:147 | A non-empty view whose rows all share one cluster has that cluster as its only group key |
| Distribution.ValueCounts | streamlit_app.py:119 | One row per cluster present, counts descending. Each row's count is the number of the cluster's rows and is at least 1. Every present cluster appears, and no cluster appears twice |
| Distribution.CountsSumToView | streamlit_app.py:119-125 | The counts add up to the number of rows in the customer view |
| Distribution.Percent | streamlit_app.py:125 | `count / total * 100`: result * total = count * 100, non-negative, at most 100 when count <= total |
| Distribution.SegmentDistribution | streamlit_app.py:119-125 | Exactly one row per cluster present: every present cluster appears, no cluster twice, counts descending. Each row carries the cluster's row count and its percentage of the view |
| Distribution.PercentagesSumToHundred | streamlit_app.py:125 | For a non-empty view the percentages add up to 100 |
| Profile.GroupMean | streamlit_app.py:147-152 | The mean of one metric over a non-empty group: mean * size = total |
| Profile.ClusterMetrics | streamlit_app.py:147-152 | One row per cluster present, in strictly ascending cluster order. Each row's four values are the means of that metric over the cluster's non-empty group |
| Profile.ColumnMax | streamlit_app.py:166-170 | The largest value of a metric column: an upper bound on every row, attained by some row |
| Profile.Scale | streamlit_app.py:166-170 | None iff the maximum is zero. Otherwise the result r satisfies r * max = x, or (1 - r) * max = x for recency (inverted) |
| Profile.RadarProfile | streamlit_app.py:164-170 | One point per cluster-mean row, in the same order. Each coordinate is that row's mean scaled by the column maximum (recency inverted) |
| Profile.RadarCoordinatesInUnitInterval | streamlit_app.py:164-170 | With non-negative customer metrics, every defined radar coordinate lies in [0, 1] |
| Profile.MaximumScoresExtreme | streamlit_app.py:166-170 | The cluster attaining a non-zero column maximum scores 1 on that metric, or 0 on recency |
| Profile.SingleClusterProfile | streamlit_app.py:147-170 | A view with one cluster and non-zero metric totals is drawn as the single point (1, 1, 0, 1) |
| Rollup.MatchingClusters | streamlit_app.py:254-258 | The clusters of the customer rows with a given id. Empty iff the id is not in the table |
| Rollup.JoinOne | streamlit_app.py:254-258 | The rows of one transaction: a single row without a cluster when its customer is absent; otherwise a row with the cluster of each customer row with that id, and only such clusters |
| Rollup.LeftJoin | streamlit_app.py:254-258 | Every transaction of the input appears and every row carries one. A transaction whose customer is absent gets a row without a cluster. A transaction gets a row with the cluster of each customer row with its id. A row without a cluster belongs to an absent customer; a row with a cluster carries the cluster of a customer row with that id |
| Rollup.JoinPreservesRowCount | streamlit_app.py:254-258 | When customer ids are unique, the join has exactly one row per transaction |
| Rollup.GroupKeys | streamlit_app.py:260-261 | The (month, cluster) keys: strictly ascending by year, month, then cluster, and holding exactly the keys of the rows with a cluster |
| Rollup.InBucket | streamlit_app.py:260-261 | A transaction occurs in a bucket as often as the joined row (transaction, bucket cluster) occurs when it falls in the bucket's month, and never otherwise. Every transaction of a bucket comes from a joined row with that key. A key that occurs has a non-empty bucket |
| Rollup.Aggregate | streamlit_app.py:261-265 | A non-empty group's row: it carries its key, stamped on the first of its month. Revenue is the group's revenue, order count its size (at least 1), distinct customers the number of its customer ids (at most its orders), and mean order value the group's mean, with mean * count = revenue |
| Rollup.MonthlyRollup | streamlit_app.py:254-268 | Buckets strictly ascending by (month, cluster). A key has a bucket iff some joined row with a cluster has it, so no empty month is added. Each bucket aggregates its own non-empty group of rows |
| Rollup.BucketRowsMatchKey | streamlit_app.py:254-261 | Every transaction in a bucket is a filtered transaction of the bucket's calendar month, and its customer has a row with the bucket's cluster |
| Rollup.BucketFigures | streamlit_app.py:261-268 | Each bucket's figures:<br>• revenue is the sum of its rows' amounts;<br>• order count is its row count (at least 1);<br>• distinct customers are at most its orders;<br>• mean order value is the mean of its amounts;<br>• the month is stamped on day 1 at midnight;<br>• every row is in the bucket's month and cluster |
| Rollup.UniqueMatch | streamlit_app.py:254-258 | When customer ids are unique, an id matches one customer row if present and none otherwise |
| Rollup.JoinKeepsMatched | streamlit_app.py:254-261 | When customer ids are unique, the rows the grouping keeps are exactly the transactions whose customer is in the table, in order |
| Rollup.BucketsPartitionKeyedRows | streamlit_app.py:261-265 | Over ascending keys that cover every row with a cluster, bucket revenues add up to the revenue of those rows |
| Rollup.RevenueOfRollup | streamlit_app.py:254-265 | When customer ids are unique, total bucket revenue equals the revenue of the filtered transactions whose customer is in the table |
| Rollup.RevenueConservation | streamlit_app.py:254-265 | Total bucket revenue equals the filtered revenue when every transaction's customer is in the table. With positive amounts and some customer missing, it is strictly smaller |
| Rollup.NoBucketForEmptyMonth | streamlit_app.py:260-268 | One customer's orders in January and March 2024 give exactly a January and a March bucket, with no February bucket |

## Left out

- Streamlit widgets, layout, `st.metric` display, tabs, the raw-data checkbox and the footer: these are user interface. The widget values become parameters (`dateRange`, `clusterFilter`).
- Plotly chart construction and styling. This includes the radar trace loop, the legend renaming and the feature histogram with its percent binning and box marginal, which Plotly computes and which is not part of this model.
- CSV loading and timestamp parsing. Records arrive already typed, and the default date range (the log's minimum and maximum order dates) is the caller's choice of `dateRange`.
- Display names of segments and of histogram features, and the `format_func` lookups: presentation only.
- Number formatting (`:,.2f`, `:.1f`) and IEEE floating point. Amounts are exact reals. A division by zero or the mean of an empty column gives `None` instead of inf or NaN.
- Metrics.CustomerAndRevenueKpis: `customerShare == None` (empty customer table) stands for the `ZeroDivisionError` that Python `int` division raises at streamlit_app.py:84. The model does not represent the page stopping.
- Distribution.ValueCounts: pandas does not fix the order of clusters with equal counts. The model keeps them in ascending cluster order, so only "counts descending" is stated.
- Rollup.LeftJoin: duplicate customer ids in the customer table are modelled as pandas does, with one joined row per matching customer. The lemmas about row count and revenue assume unique ids.
- Rows whose customer is not in the customer table are dropped from the monthly rollup, because `groupby` drops missing keys by default. The model follows this code behaviour. It has no "unknown" bucket.
- The customer and revenue KPI figures are ratios to the baseline (`x / base * 100`), not changes from it. The model follows the code. Metrics.ChangeIsShareLessHundred relates the two.
- Currency is carried on each transaction but plays no part in any figure. The code sums amounts regardless of currency, and so does the model.
