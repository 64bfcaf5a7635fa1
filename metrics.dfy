/**
 * ecs_monitor's CloudWatch metrics fetcher: it builds GetMetricData queries
 * for services and for the containers of running tasks, sends them in
 * batches of at most 500, folds each batch's answer (or its failure) into
 * an id-to-value map, and writes the values back onto the cluster.
 *
 * CloudWatch is an oracle: a function from a batch of queries to either a
 * failure or a list of results. Metric values are reals.
 */
module Metrics {
  import opened Strings
  import opened Models
  import Ids

  /** The largest number of queries GetMetricData takes in one call. */
  const MaxMetricsPerCall: nat := 500

  datatype Dimension = Dimension(name: string, value: string)

  /** One GetMetricData query: its id and its metric statistic (period 60 s, Average). */
  datatype MetricQuery = MetricQuery(
    id: string,
    namespace: string,
    metricName: string,
    dimensions: seq<Dimension>,
    period: nat,
    stat: string,
    returnData: bool)

  function ServiceCpuId(name: string): string { Ids.SanitizeMetricId("svc_cpu_" + name) }
  function ServiceMemId(name: string): string { Ids.SanitizeMetricId("svc_mem_" + name) }
  function ContainerCpuId(d: Display, t: Task, c: Container): string {
    Ids.SanitizeMetricId("cpu_" + d.shortId(t) + "_" + c.name)
  }
  function ContainerMemId(d: Display, t: Task, c: Container): string {
    Ids.SanitizeMetricId("mem_" + d.shortId(t) + "_" + c.name)
  }

  function ServiceQuery(id: string, metric: string, clusterName: string, s: Service): MetricQuery {
    MetricQuery(id, "AWS/ECS", metric,
      [Dimension("ClusterName", clusterName), Dimension("ServiceName", s.name)], 60, "Average", true)
  }

  function ContainerQuery(id: string, metric: string, clusterName: string, t: Task, c: Container): MetricQuery {
    MetricQuery(id, "ECS/ContainerInsights", metric,
      [Dimension("ClusterName", clusterName), Dimension("TaskId", t.id), Dimension("ContainerName", c.name)],
      60, "Average", true)
  }

  function ServiceCpuQuery(clusterName: string, s: Service): MetricQuery {
    ServiceQuery(ServiceCpuId(s.name), "CPUUtilization", clusterName, s)
  }
  function ServiceMemQuery(clusterName: string, s: Service): MetricQuery {
    ServiceQuery(ServiceMemId(s.name), "MemoryUtilization", clusterName, s)
  }
  function ContainerCpuQuery(d: Display, clusterName: string, t: Task, c: Container): MetricQuery {
    ContainerQuery(ContainerCpuId(d, t, c), "CpuUtilized", clusterName, t, c)
  }
  function ContainerMemQuery(d: Display, clusterName: string, t: Task, c: Container): MetricQuery {
    ContainerQuery(ContainerMemId(d, t, c), "MemoryUtilized", clusterName, t, c)
  }

  /** `_build_service_metric_queries`: a CPU then a memory query per service. */
  function BuildServiceMetricQueries(clusterName: string, services: seq<Service>): seq<MetricQuery>
    decreases |services|
  {
    if services == [] then []
    else
      var n := |services| - 1;
      BuildServiceMetricQueries(clusterName, services[..n])
        + [ServiceCpuQuery(clusterName, services[n]), ServiceMemQuery(clusterName, services[n])]
  }

  /** `_build_container_metric_queries`: a CPU then a memory query per (task, container) pair. */
  function BuildContainerMetricQueries(d: Display, clusterName: string, pairs: seq<(Task, Container)>): seq<MetricQuery>
    decreases |pairs|
  {
    if pairs == [] then []
    else
      var n := |pairs| - 1;
      BuildContainerMetricQueries(d, clusterName, pairs[..n])
        + [ContainerCpuQuery(d, clusterName, pairs[n].0, pairs[n].1),
           ContainerMemQuery(d, clusterName, pairs[n].0, pairs[n].1)]
  }

  /** Two queries per service, in service order: CPU at an even position, memory right after it. */
  lemma {:induction false} ServiceQueriesLayout(clusterName: string, services: seq<Service>)
    ensures |BuildServiceMetricQueries(clusterName, services)| == 2 * |services|
    ensures forall i :: 0 <= i < |services| ==>
      && BuildServiceMetricQueries(clusterName, services)[2 * i] == ServiceCpuQuery(clusterName, services[i])
      && BuildServiceMetricQueries(clusterName, services)[2 * i + 1] == ServiceMemQuery(clusterName, services[i])
    decreases |services|
  {
    if services != [] {
      var n := |services| - 1;
      ServiceQueriesLayout(clusterName, services[..n]);
      var q := BuildServiceMetricQueries(clusterName, services);
      var init := BuildServiceMetricQueries(clusterName, services[..n]);
      forall i | 0 <= i < |services|
        ensures q[2 * i] == ServiceCpuQuery(clusterName, services[i])
        ensures q[2 * i + 1] == ServiceMemQuery(clusterName, services[i])
      {
        if i < n {
          assert services[..n][i] == services[i];
          assert q[2 * i] == init[2 * i];
          assert q[2 * i + 1] == init[2 * i + 1];
        }
      }
    }
  }

  /** Two queries per (task, container) pair, in pair order. */
  lemma {:induction false} ContainerQueriesLayout(d: Display, clusterName: string, pairs: seq<(Task, Container)>)
    ensures |BuildContainerMetricQueries(d, clusterName, pairs)| == 2 * |pairs|
    ensures forall i :: 0 <= i < |pairs| ==>
      && BuildContainerMetricQueries(d, clusterName, pairs)[2 * i] == ContainerCpuQuery(d, clusterName, pairs[i].0, pairs[i].1)
      && BuildContainerMetricQueries(d, clusterName, pairs)[2 * i + 1] == ContainerMemQuery(d, clusterName, pairs[i].0, pairs[i].1)
    decreases |pairs|
  {
    if pairs != [] {
      var n := |pairs| - 1;
      ContainerQueriesLayout(d, clusterName, pairs[..n]);
      var q := BuildContainerMetricQueries(d, clusterName, pairs);
      var init := BuildContainerMetricQueries(d, clusterName, pairs[..n]);
      forall i | 0 <= i < |pairs|
        ensures q[2 * i] == ContainerCpuQuery(d, clusterName, pairs[i].0, pairs[i].1)
        ensures q[2 * i + 1] == ContainerMemQuery(d, clusterName, pairs[i].0, pairs[i].1)
      {
        if i < n {
          assert pairs[..n][i] == pairs[i];
          assert q[2 * i] == init[2 * i];
          assert q[2 * i + 1] == init[2 * i + 1];
        }
      }
    }
  }

  /**
   * Every query id is a legal CloudWatch id: the fixed prefixes start with a
   * letter, so the sanitized id keeps them without an `m_` prefix.
   */
  lemma QueryIdsLegal(d: Display, name: string, t: Task, c: Container)
    ensures Ids.IsMetricId(ServiceCpuId(name)) && Ids.IsMetricId(ServiceMemId(name))
    ensures Ids.IsMetricId(ContainerCpuId(d, t, c)) && Ids.IsMetricId(ContainerMemId(d, t, c))
    ensures ServiceCpuId(name)[..8] == "svc_cpu_" && ServiceMemId(name)[..8] == "svc_mem_"
  {
    Ids.SanitizeMetricIdSpec("svc_cpu_" + name);
    Ids.SanitizeMetricIdSpec("svc_mem_" + name);
    Ids.SanitizeMetricIdSpec("cpu_" + d.shortId(t) + "_" + c.name);
    Ids.SanitizeMetricIdSpec("mem_" + d.shortId(t) + "_" + c.name);
    var cpu := ServiceCpuId(name);
    var mem := ServiceMemId(name);
    assert forall i :: 0 <= i < 8 ==> cpu[i] == "svc_cpu_"[i];
    assert forall i :: 0 <= i < 8 ==> mem[i] == "svc_mem_"[i];
  }

  /**
   * Two service names that differ only in characters the sanitizer rewrites
   * share their query ids, so their metrics cannot be told apart.
   */
  lemma ServiceIdCollision()
    ensures ServiceCpuId("my-svc") == ServiceCpuId("my_svc")
    ensures ServiceMemId("My.Svc") == ServiceMemId("my_svc")
  {
    assert Ids.Rewrite("svc_cpu_my-svc") == Ids.Rewrite("svc_cpu_my_svc");
    assert Ids.Rewrite("svc_mem_My.Svc") == Ids.Rewrite("svc_mem_my_svc");
  }

  // ---------------------------------------------------------------------
  // Containers to fetch

  /** The (task, container) pairs of one task: all its containers when it is RUNNING, none otherwise. */
  function TaskPairs(t: Task): (pairs: seq<(Task, Container)>)
    ensures |pairs| == if t.status == "RUNNING" then |t.containers| else 0
    ensures forall i :: 0 <= i < |pairs| ==> pairs[i] == (t, t.containers[i])
  {
    if t.status == "RUNNING" then seq(|t.containers|, i requires 0 <= i < |t.containers| => (t, t.containers[i]))
    else []
  }

  function TasksPairs(ts: seq<Task>): seq<(Task, Container)>
    decreases |ts|
  {
    if ts == [] then [] else TasksPairs(ts[..|ts| - 1]) + TaskPairs(ts[|ts| - 1])
  }

  function ServicesPairs(ss: seq<Service>): seq<(Task, Container)>
    decreases |ss|
  {
    if ss == [] then [] else ServicesPairs(ss[..|ss| - 1]) + TasksPairs(ss[|ss| - 1].tasks)
  }

  /** The containers `_fetch_container_metrics` collects, walking services, tasks and containers in order. */
  function ContainersToFetch(c: Cluster): seq<(Task, Container)> {
    ServicesPairs(c.services)
  }

  /** A pair is collected exactly when its task is RUNNING and belongs to one of the given tasks. */
  lemma {:induction false} TasksPairsMembers(ts: seq<Task>, t: Task, c: Container)
    ensures (t, c) in TasksPairs(ts) <==> t in ts && t.status == "RUNNING" && c in t.containers
    decreases |ts|
  {
    if ts != [] {
      var init := ts[..|ts| - 1];
      var last := ts[|ts| - 1];
      TasksPairsMembers(init, t, c);
      assert ts == init + [last];
      if t == last && t.status == "RUNNING" && c in t.containers {
        var i :| 0 <= i < |t.containers| && t.containers[i] == c;
        assert TaskPairs(last)[i] == (t, c);
      }
    }
  }

  lemma {:induction false} ServicesPairsMembers(ss: seq<Service>, t: Task, c: Container)
    ensures (t, c) in ServicesPairs(ss) <==>
      (exists s :: s in ss && t in s.tasks) && t.status == "RUNNING" && c in t.containers
    decreases |ss|
  {
    if ss != [] {
      var init := ss[..|ss| - 1];
      var last := ss[|ss| - 1];
      ServicesPairsMembers(init, t, c);
      TasksPairsMembers(last.tasks, t, c);
      assert ss == init + [last];
      if (exists s :: s in ss && t in s.tasks) && t.status == "RUNNING" && c in t.containers {
        var s :| s in ss && t in s.tasks;
        if s != last {
          assert s in init;
        }
      }
    }
  }

  /** Only containers of RUNNING tasks reached through the cluster's services are queried, and all of them. */
  lemma ContainersToFetchMembers(cl: Cluster, t: Task, c: Container)
    ensures (t, c) in ContainersToFetch(cl) <==>
      (exists s :: s in cl.services && t in s.tasks) && t.status == "RUNNING" && c in t.containers
  {
    ServicesPairsMembers(cl.services, t, c);
  }

  // ---------------------------------------------------------------------
  // Batches

  /** `range(0, n, 500)` with `queries[i : i + 500]`: consecutive slices of at most 500 queries. */
  function Batches(queries: seq<MetricQuery>): seq<seq<MetricQuery>>
    decreases |queries|
  {
    if queries == [] then []
    else if |queries| <= MaxMetricsPerCall then [queries]
    else [queries[..MaxMetricsPerCall]] + Batches(queries[MaxMetricsPerCall..])
  }

  function Flatten(bs: seq<seq<MetricQuery>>): seq<MetricQuery> {
    if bs == [] then [] else bs[0] + Flatten(bs[1..])
  }

  /** The batches cover the list in order, each holds 1 to 500 queries, and there are ceil(n/500) of them. */
  lemma {:induction false} BatchesProperties(queries: seq<MetricQuery>)
    ensures Flatten(Batches(queries)) == queries
    ensures forall k :: 0 <= k < |Batches(queries)| ==> 1 <= |Batches(queries)[k]| <= MaxMetricsPerCall
    ensures |Batches(queries)| == (|queries| + MaxMetricsPerCall - 1) / MaxMetricsPerCall
    decreases |queries|
  {
    if |queries| > MaxMetricsPerCall {
      var rest := queries[MaxMetricsPerCall..];
      BatchesProperties(rest);
      assert queries == queries[..MaxMetricsPerCall] + rest;
      assert Batches(queries)[1..] == Batches(rest);
    } else if queries != [] {
      assert Flatten([queries]) == queries + Flatten([]);
    }
  }

  /** Batch `k` is the slice `[500k, min(500k + 500, n))`. */
  lemma {:induction false} BatchSlice(queries: seq<MetricQuery>, k: nat)
    requires k < |Batches(queries)|
    ensures 500 * k < |queries|
    ensures Batches(queries)[k] == queries[500 * k .. if 500 * k + 500 <= |queries| then 500 * k + 500 else |queries|]
    decreases k
  {
    if k > 0 {
      var rest := queries[MaxMetricsPerCall..];
      assert Batches(queries)[k] == Batches(rest)[k - 1];
      BatchSlice(rest, k - 1);
      assert rest[500 * (k - 1) ..] == queries[500 * k ..];
    }
  }

  /** The step of the batching loop: the remaining queries from offset `i` start with the batch at `i`. */
  lemma BatchesStep(queries: seq<MetricQuery>, i: nat)
    requires i < |queries|
    ensures Batches(queries[i..]) ==
      [queries[i .. if i + 500 <= |queries| then i + 500 else |queries|]]
      + Batches(queries[if i + 500 <= |queries| then i + 500 else |queries| ..])
  {
    var rest := queries[i..];
    if |rest| > MaxMetricsPerCall {
      assert rest[..MaxMetricsPerCall] == queries[i .. i + 500];
      assert rest[MaxMetricsPerCall..] == queries[i + 500 ..];
    } else {
      assert rest != [];
      assert Batches(rest) == [rest];
      assert queries[i .. |queries|] == rest;
      assert queries[|queries|..] == [];
    }
  }

  /** A query occurs in one of the batches exactly when it occurs in the list. */
  lemma {:induction false} FlattenMembers(bs: seq<seq<MetricQuery>>, q: MetricQuery)
    ensures q in Flatten(bs) <==> exists k :: 0 <= k < |bs| && q in bs[k]
    decreases |bs|
  {
    if bs != [] {
      FlattenMembers(bs[1..], q);
      if q in Flatten(bs[1..]) {
        var k :| 0 <= k < |bs[1..]| && q in bs[1..][k];
        assert q in bs[k + 1];
      }
      if exists k :: 0 <= k < |bs| && q in bs[k] {
        var k :| 0 <= k < |bs| && q in bs[k];
        if k > 0 { assert q in bs[1..][k - 1]; }
      }
    }
  }

  // ---------------------------------------------------------------------
  // Responses and the result map

  /** One entry of `MetricDataResults`: its `Id` (if present) and its `Values`, newest first. */
  datatype MetricResult = MetricResult(id: Option<string>, values: seq<real>)

  /** The answer to one GetMetricData call: an exception, or the results. */
  datatype Response = Failure | Answer(results: seq<MetricResult>)

  /** The id-to-value map `_fetch_metrics_batched` returns. */
  type Results = map<string, Option<real>>

  /** `result.get("Id", "")`. */
  function ResultId(r: MetricResult): string {
    if r.id.None? then "" else r.id.value
  }

  /** The newest value, or None for an empty `Values`. */
  function FirstValue(r: MetricResult): Option<real> {
    if r.values == [] then None else Some(r.values[0])
  }

  /** The results of a successful call written into `m`, one after another. */
  function ApplyResults(m: Results, rs: seq<MetricResult>): Results
    decreases |rs|
  {
    if rs == [] then m
    else ApplyResults(m, rs[..|rs| - 1])[ResultId(rs[|rs| - 1]) := FirstValue(rs[|rs| - 1])]
  }

  /** Every query id of a failed batch set to None in `m`. */
  function MarkNone(m: Results, batch: seq<MetricQuery>): Results
    decreases |batch|
  {
    if batch == [] then m
    else MarkNone(m, batch[..|batch| - 1])[batch[|batch| - 1].id := None]
  }

  function ApplyBatch(m: Results, batch: seq<MetricQuery>, response: Response): Results {
    match response
    case Failure => MarkNone(m, batch)
    case Answer(rs) => ApplyResults(m, rs)
  }

  /** The map after the calls for `bs`, in order, with `oracle` answering each. */
  function FoldBatches(bs: seq<seq<MetricQuery>>, oracle: seq<MetricQuery> -> Response): Results
    decreases |bs|
  {
    if bs == [] then map[]
    else
      var n := |bs| - 1;
      ApplyBatch(FoldBatches(bs[..n], oracle), bs[n], oracle(bs[n]))
  }

  /** What `_fetch_metrics_batched` returns for `queries`. */
  function FetchAll(queries: seq<MetricQuery>, oracle: seq<MetricQuery> -> Response): Results {
    FoldBatches(Batches(queries), oracle)
  }

  /** Position `j` holds the last result with id `k`. */
  predicate IsLastWithId(rs: seq<MetricResult>, k: string, j: int) {
    0 <= j < |rs| && ResultId(rs[j]) == k
    && forall j' :: j < j' < |rs| ==> ResultId(rs[j']) != k
  }

  /** In a successful batch, a returned id maps to the first value of the last result carrying it. */
  lemma {:induction false} ApplyResultsLast(m: Results, rs: seq<MetricResult>, k: string, j: nat)
    requires IsLastWithId(rs, k, j)
    ensures k in ApplyResults(m, rs) && ApplyResults(m, rs)[k] == FirstValue(rs[j])
    decreases |rs|
  {
    var n := |rs| - 1;
    if j < n {
      assert rs[..n][j] == rs[j];
      forall j' | j < j' < n ensures ResultId(rs[..n][j']) != k {
        assert rs[..n][j'] == rs[j'];
      }
      ApplyResultsLast(m, rs[..n], k, j);
    }
  }

  /** An id no result carries keeps its entry, or its absence. */
  lemma {:induction false} ApplyResultsOther(m: Results, rs: seq<MetricResult>, k: string)
    requires forall j :: 0 <= j < |rs| ==> ResultId(rs[j]) != k
    ensures (k in ApplyResults(m, rs) <==> k in m) && (k in m ==> ApplyResults(m, rs)[k] == m[k])
    decreases |rs|
  {
    if rs != [] {
      var n := |rs| - 1;
      forall j | 0 <= j < n ensures ResultId(rs[..n][j]) != k {
        assert rs[..n][j] == rs[j];
      }
      ApplyResultsOther(m, rs[..n], k);
    }
  }

  /** A failed batch maps each of its query ids to None and leaves every other id alone. */
  lemma {:induction false} MarkNoneLookup(m: Results, batch: seq<MetricQuery>, k: string)
    ensures (exists i :: 0 <= i < |batch| && batch[i].id == k) ==> k in MarkNone(m, batch) && MarkNone(m, batch)[k] == None
    ensures (forall i :: 0 <= i < |batch| ==> batch[i].id != k) ==>
      (k in MarkNone(m, batch) <==> k in m) && (k in m ==> MarkNone(m, batch)[k] == m[k])
    decreases |batch|
  {
    if batch != [] {
      var n := |batch| - 1;
      MarkNoneLookup(m, batch[..n], k);
      if exists i :: 0 <= i < |batch| && batch[i].id == k {
        var i :| 0 <= i < |batch| && batch[i].id == k;
        if i < n && batch[n].id != k {
          assert batch[..n][i].id == k;
        }
      }
      if forall i :: 0 <= i < |batch| ==> batch[i].id != k {
        assert forall i :: 0 <= i < n ==> batch[..n][i] == batch[i];
      }
    }
  }

  /** When every call fails, each query id maps to None, and the map holds query ids only. */
  lemma {:induction false} FoldAllFailed(bs: seq<seq<MetricQuery>>, oracle: seq<MetricQuery> -> Response, k: string)
    requires forall i :: 0 <= i < |bs| ==> oracle(bs[i]) == Failure
    ensures k in FoldBatches(bs, oracle) <==> exists i, j :: 0 <= i < |bs| && 0 <= j < |bs[i]| && bs[i][j].id == k
    ensures k in FoldBatches(bs, oracle) ==> FoldBatches(bs, oracle)[k] == None
    decreases |bs|
  {
    if bs != [] {
      var n := |bs| - 1;
      assert forall i :: 0 <= i < n ==> bs[..n][i] == bs[i];
      FoldAllFailed(bs[..n], oracle, k);
      MarkNoneLookup(FoldBatches(bs[..n], oracle), bs[n], k);
      if exists i, j :: 0 <= i < |bs| && 0 <= j < |bs[i]| && bs[i][j].id == k {
        var i, j :| 0 <= i < |bs| && 0 <= j < |bs[i]| && bs[i][j].id == k;
        if i < n {
          assert bs[..n][i][j].id == k;
        }
      }
    }
  }

  /** If CloudWatch fails on every batch, the fetch maps exactly the queries' ids, each to None. */
  lemma FetchAllFailed(queries: seq<MetricQuery>, oracle: seq<MetricQuery> -> Response)
    requires forall b :: oracle(b) == Failure
    ensures forall i :: 0 <= i < |queries| ==>
      queries[i].id in FetchAll(queries, oracle) && FetchAll(queries, oracle)[queries[i].id] == None
    ensures forall k :: k in FetchAll(queries, oracle) ==> exists i :: 0 <= i < |queries| && queries[i].id == k
  {
    var bs := Batches(queries);
    BatchesProperties(queries);
    forall i | 0 <= i < |queries|
      ensures queries[i].id in FetchAll(queries, oracle) && FetchAll(queries, oracle)[queries[i].id] == None
    {
      FlattenMembers(bs, queries[i]);
      var b :| 0 <= b < |bs| && queries[i] in bs[b];
      var j :| 0 <= j < |bs[b]| && bs[b][j] == queries[i];
      FoldAllFailed(bs, oracle, queries[i].id);
    }
    forall k | k in FetchAll(queries, oracle) ensures exists i :: 0 <= i < |queries| && queries[i].id == k {
      FoldAllFailed(bs, oracle, k);
      var b, j :| 0 <= b < |bs| && 0 <= j < |bs[b]| && bs[b][j].id == k;
      FlattenMembers(bs, bs[b][j]);
      var i :| 0 <= i < |queries| && queries[i] == bs[b][j];
    }
  }

  /** The call for `batch` writes id `k`: it failed and `k` is one of its query ids, or it answered with a result carrying `k`. */
  predicate Touches(batch: seq<MetricQuery>, response: Response, k: string) {
    match response
    case Failure => exists i :: 0 <= i < |batch| && batch[i].id == k
    case Answer(rs) => exists j :: 0 <= j < |rs| && ResultId(rs[j]) == k
  }

  /** A call that does not write `k` leaves its entry, or its absence, alone. */
  lemma ApplyBatchUntouched(m: Results, batch: seq<MetricQuery>, response: Response, k: string)
    requires !Touches(batch, response, k)
    ensures (k in ApplyBatch(m, batch, response) <==> k in m)
    ensures k in m ==> ApplyBatch(m, batch, response)[k] == m[k]
  {
    match response
    case Failure => MarkNoneLookup(m, batch, k);
    case Answer(rs) => ApplyResultsOther(m, rs, k);
  }

  /** Calls from `n` on that do not write `k` leave its entry as the first `n` calls made it. */
  lemma {:induction false} FoldUntouchedSuffix(bs: seq<seq<MetricQuery>>, oracle: seq<MetricQuery> -> Response, k: string, n: nat)
    requires n <= |bs|
    requires forall b :: n <= b < |bs| ==> !Touches(bs[b], oracle(bs[b]), k)
    ensures (k in FoldBatches(bs, oracle) <==> k in FoldBatches(bs[..n], oracle))
    ensures k in FoldBatches(bs[..n], oracle) ==> FoldBatches(bs, oracle)[k] == FoldBatches(bs[..n], oracle)[k]
    decreases |bs|
  {
    if n == |bs| {
      assert bs[..n] == bs;
    } else {
      var last := |bs| - 1;
      assert bs[..last][..n] == bs[..n];
      forall b | n <= b < last ensures !Touches(bs[..last][b], oracle(bs[..last][b]), k) {
        assert bs[..last][b] == bs[b];
      }
      FoldUntouchedSuffix(bs[..last], oracle, k, n);
      ApplyBatchUntouched(FoldBatches(bs[..last], oracle), bs[last], oracle(bs[last]), k);
    }
  }

  /** The first `n + 1` calls end with the answer to batch `n` applied. */
  lemma FoldPrefixStep(bs: seq<seq<MetricQuery>>, oracle: seq<MetricQuery> -> Response, n: nat)
    requires n < |bs|
    ensures FoldBatches(bs[..n + 1], oracle) == ApplyBatch(FoldBatches(bs[..n], oracle), bs[n], oracle(bs[n]))
  {
    assert bs[..n + 1][..n] == bs[..n];
    assert bs[..n + 1][n] == bs[n];
  }

  /** An id of a failed batch maps to None unless a later call writes it. */
  lemma FoldFailedUnlessOverwritten(bs: seq<seq<MetricQuery>>, oracle: seq<MetricQuery> -> Response, k: string, n: nat, i: nat)
    requires n < |bs| && oracle(bs[n]) == Failure
    requires i < |bs[n]| && bs[n][i].id == k
    requires forall b :: n < b < |bs| ==> !Touches(bs[b], oracle(bs[b]), k)
    ensures k in FoldBatches(bs, oracle) && FoldBatches(bs, oracle)[k] == None
  {
    FoldPrefixStep(bs, oracle, n);
    MarkNoneLookup(FoldBatches(bs[..n], oracle), bs[n], k);
    FoldUntouchedSuffix(bs, oracle, k, n + 1);
  }

  /** An id answered in batch `n` keeps the value of its last result there unless a later call writes it. */
  lemma FoldAnsweredUnlessOverwritten(bs: seq<seq<MetricQuery>>, oracle: seq<MetricQuery> -> Response, k: string, n: nat, j: nat)
    requires n < |bs| && oracle(bs[n]).Answer?
    requires IsLastWithId(oracle(bs[n]).results, k, j)
    requires forall b :: n < b < |bs| ==> !Touches(bs[b], oracle(bs[b]), k)
    ensures k in FoldBatches(bs, oracle) && FoldBatches(bs, oracle)[k] == FirstValue(oracle(bs[n]).results[j])
  {
    FoldPrefixStep(bs, oracle, n);
    ApplyResultsLast(FoldBatches(bs[..n], oracle), oracle(bs[n]).results, k, j);
    FoldUntouchedSuffix(bs, oracle, k, n + 1);
  }

  /** An id no call writes is absent from the map. */
  lemma FoldNeverTouched(bs: seq<seq<MetricQuery>>, oracle: seq<MetricQuery> -> Response, k: string)
    requires forall b :: 0 <= b < |bs| ==> !Touches(bs[b], oracle(bs[b]), k)
    ensures k !in FoldBatches(bs, oracle)
  {
    FoldUntouchedSuffix(bs, oracle, k, 0);
    assert bs[..0] == [];
  }

  /** Up to 500 queries go out in one call, whose answer alone makes the map. */
  lemma SingleBatch(queries: seq<MetricQuery>, oracle: seq<MetricQuery> -> Response)
    requires 1 <= |queries| <= MaxMetricsPerCall
    ensures Batches(queries) == [queries]
    ensures FetchAll(queries, oracle) == ApplyBatch(map[], queries, oracle(queries))
  {
    var bs := [queries];
    assert bs[..0] == [];
    assert FoldBatches(bs, oracle) == ApplyBatch(FoldBatches(bs[..0], oracle), queries, oracle(queries));
  }

  /** `_fetch_metrics_batched`: the calls it makes, and the map it returns. */
  method FetchMetricsBatched(queries: seq<MetricQuery>, oracle: seq<MetricQuery> -> Response)
    returns (results: Results, calls: seq<seq<MetricQuery>>)
    ensures calls == Batches(queries)
    ensures results == FetchAll(queries, oracle)
  {
    results := map[];
    calls := [];
    var i := 0;
    while i < |queries|
      invariant 0 <= i
      invariant calls + Batches(queries[if i <= |queries| then i else |queries| ..]) == Batches(queries)
      invariant results == FoldBatches(calls, oracle)
      decreases |queries| - i
    {
      var hi := if i + MaxMetricsPerCall <= |queries| then i + MaxMetricsPerCall else |queries|;
      var batch := queries[i..hi];
      ghost var before := results;
      match oracle(batch) {
        case Answer(rs) =>
          var j := 0;
          while j < |rs|
            invariant 0 <= j <= |rs|
            invariant results == ApplyResults(before, rs[..j])
          {
            assert rs[..j + 1][..j] == rs[..j];
            results := results[ResultId(rs[j]) := FirstValue(rs[j])];
            j := j + 1;
          }
          assert rs[..j] == rs;
        case Failure =>
          var j := 0;
          while j < |batch|
            invariant 0 <= j <= |batch|
            invariant results == MarkNone(before, batch[..j])
          {
            assert batch[..j + 1][..j] == batch[..j];
            results := results[batch[j].id := None];
            j := j + 1;
          }
          assert batch[..j] == batch;
      }
      BatchesStep(queries, i);
      ConcatAssoc(calls, [batch], Batches(queries[hi..]));
      assert (calls + [batch])[..|calls|] == calls;
      calls := calls + [batch];
      i := i + MaxMetricsPerCall;
    }
    assert queries[|queries|..] == [];
    assert calls + [] == calls;
  }

  // ---------------------------------------------------------------------
  // Attaching values

  /** `metrics.get(id)`: None for an absent id. */
  function Lookup(m: Results, id: string): Option<real> {
    if id in m then m[id] else None
  }

  /** Python's `int(x)` on a float: truncation toward zero. */
  function Truncate(x: real): (r: int)
    ensures x >= 0.0 ==> 0 <= r && r as real <= x < r as real + 1.0
    ensures x < 0.0 ==> r <= 0 && r as real - 1.0 < x <= r as real
  {
    if x >= 0.0 then x.Floor else -((-x).Floor)
  }

  /** A service with its CPU and memory set from the map, None where the map has no entry. */
  function WithServiceMetrics(s: Service, m: Results): Service {
    s.(cpuUsed := Lookup(m, ServiceCpuId(s.name)), memoryUsed := Lookup(m, ServiceMemId(s.name)))
  }

  /** `_attach_metrics_to_services`, on values: every service's CPU and memory are overwritten. */
  method AttachMetricsToServices(services: seq<Service>, m: Results) returns (updated: seq<Service>)
    ensures |updated| == |services|
    ensures forall i :: 0 <= i < |services| ==> updated[i] == WithServiceMetrics(services[i], m)
  {
    updated := [];
    var i := 0;
    while i < |services|
      invariant 0 <= i <= |services|
      invariant |updated| == i
      invariant forall k :: 0 <= k < i ==> updated[k] == WithServiceMetrics(services[k], m)
    {
      var s := services[i];
      var cpu := Lookup(m, ServiceCpuId(s.name));
      var mem := Lookup(m, ServiceMemId(s.name));
      updated := updated + [s.(cpuUsed := cpu, memoryUsed := mem)];
      i := i + 1;
    }
  }

  function AttachServices(services: seq<Service>, m: Results): (updated: seq<Service>)
    ensures |updated| == |services|
  {
    seq(|services|, i requires 0 <= i < |services| => WithServiceMetrics(services[i], m))
  }

  /** A container with its CPU and (truncated) memory set from the map, None where the map has no value. */
  function WithContainerMetrics(d: Display, t: Task, c: Container, m: Results): Container {
    c.(cpuUsed := Lookup(m, ContainerCpuId(d, t, c)),
       memoryUsed := match Lookup(m, ContainerMemId(d, t, c))
                     case None => None
                     case Some(v) => Some(Truncate(v)))
  }

  function AttachTask(d: Display, t: Task, m: Results): Task {
    if t.status == "RUNNING" then
      t.(containers := seq(|t.containers|, i requires 0 <= i < |t.containers| => WithContainerMetrics(d, t, t.containers[i], m)))
    else t
  }

  function AttachService(d: Display, s: Service, m: Results): Service {
    s.(tasks := seq(|s.tasks|, i requires 0 <= i < |s.tasks| => AttachTask(d, s.tasks[i], m)))
  }

  /**
   * `_attach_metrics_to_containers` over `ContainersToFetch(c)`, on values:
   * the containers of RUNNING tasks, which are exactly the collected ones,
   * get their values.
   */
  function AttachMetricsToContainers(d: Display, c: Cluster, m: Results): Cluster {
    c.(services := seq(|c.services|, i requires 0 <= i < |c.services| => AttachService(d, c.services[i], m)))
  }

  /** Where the container values land, and that nothing else changes. */
  lemma ContainerAttachEffect(d: Display, c: Cluster, m: Results, i: nat, j: nat)
    requires i < |c.services| && j < |c.services[i].tasks|
    ensures |AttachMetricsToContainers(d, c, m).services| == |c.services|
    ensures AttachMetricsToContainers(d, c, m).services[i].(tasks := c.services[i].tasks) == c.services[i]
    ensures |AttachMetricsToContainers(d, c, m).services[i].tasks| == |c.services[i].tasks|
    ensures c.services[i].tasks[j].status != "RUNNING" ==>
      AttachMetricsToContainers(d, c, m).services[i].tasks[j] == c.services[i].tasks[j]
    ensures c.services[i].tasks[j].status == "RUNNING" ==>
      var t := c.services[i].tasks[j];
      var t' := AttachMetricsToContainers(d, c, m).services[i].tasks[j];
      && t'.(containers := t.containers) == t
      && |t'.containers| == |t.containers|
      && forall k :: 0 <= k < |t.containers| ==>
           && t'.containers[k].cpuUsed == Lookup(m, ContainerCpuId(d, t, t.containers[k]))
           && t'.containers[k].memoryUsed ==
                (if Lookup(m, ContainerMemId(d, t, t.containers[k])).None? then None
                 else Some(Truncate(Lookup(m, ContainerMemId(d, t, t.containers[k])).value)))
           && t'.containers[k].(cpuUsed := t.containers[k].cpuUsed, memoryUsed := t.containers[k].memoryUsed)
                == t.containers[k]
  {
  }

  /** The containers to fetch depend on the services' tasks only. */
  lemma {:induction false} ServicesPairsSameTasks(a: seq<Service>, b: seq<Service>)
    requires |a| == |b|
    requires forall i :: 0 <= i < |a| ==> a[i].tasks == b[i].tasks
    ensures ServicesPairs(a) == ServicesPairs(b)
    decreases |a|
  {
    if a != [] {
      var n := |a| - 1;
      assert forall i :: 0 <= i < n ==> a[..n][i] == a[i] && b[..n][i] == b[i];
      ServicesPairsSameTasks(a[..n], b[..n]);
    }
  }

  // ---------------------------------------------------------------------
  // The fetcher

  /** The answer to `get_metric_statistics`: an exception, or the number of datapoints returned. */
  datatype Probe = ProbeFailure | Datapoints(count: nat)

  /** Container Insights counts as enabled exactly when the probe returned datapoints. */
  function ProbeEnabled(p: Probe): bool {
    p.Datapoints? && p.count > 0
  }

  /** The value of the `insights_enabled` property given the cached flag. */
  function CachedInsights(cached: Option<bool>, p: Probe): bool {
    if cached.None? then ProbeEnabled(p) else cached.value
  }

  function ServiceCalls(c: Cluster): seq<seq<MetricQuery>> {
    if c.services == [] then [] else Batches(BuildServiceMetricQueries(c.name, c.services))
  }

  function ServiceStage(c: Cluster, oracle: seq<MetricQuery> -> Response): Cluster {
    if c.services == [] then c
    else c.(services := AttachServices(c.services, FetchAll(BuildServiceMetricQueries(c.name, c.services), oracle)))
  }

  function ContainerCalls(d: Display, c: Cluster): seq<seq<MetricQuery>> {
    var pairs := ContainersToFetch(c);
    if pairs == [] then [] else Batches(BuildContainerMetricQueries(d, c.name, pairs))
  }

  function ContainerStage(d: Display, c: Cluster, oracle: seq<MetricQuery> -> Response): Cluster {
    var pairs := ContainersToFetch(c);
    if pairs == [] then c
    else AttachMetricsToContainers(d, c, FetchAll(BuildContainerMetricQueries(d, c.name, pairs), oracle))
  }

  /** The cluster after `fetch_metrics_for_cluster`: service values, then container values when enabled. */
  function ClusterWithMetrics(d: Display, c: Cluster, enabled: bool, oracle: seq<MetricQuery> -> Response): Cluster {
    if enabled then ContainerStage(d, ServiceStage(c, oracle), oracle) else ServiceStage(c, oracle)
  }

  /** The GetMetricData calls `fetch_metrics_for_cluster` makes, in order. */
  function MetricCalls(d: Display, c: Cluster, enabled: bool): seq<seq<MetricQuery>> {
    ServiceCalls(c) + (if enabled then ContainerCalls(d, c) else [])
  }

  /**
   * No call is made for a cluster without services and without running
   * containers, and container queries are sent only with Container
   * Insights enabled; the cluster's own fields never change.
   */
  lemma FetchShape(d: Display, c: Cluster, enabled: bool, oracle: seq<MetricQuery> -> Response)
    ensures c.services == [] ==> ServiceCalls(c) == []
    ensures ContainersToFetch(c) == [] ==> ContainerCalls(d, c) == []
    ensures !enabled ==> MetricCalls(d, c, enabled) == ServiceCalls(c)
    ensures ClusterWithMetrics(d, c, enabled, oracle).(services := c.services) == c
    ensures |ClusterWithMetrics(d, c, enabled, oracle).services| == |c.services|
  {
  }

  /** Without Container Insights, every container keeps its values; only the services' values change. */
  lemma DisabledLeavesContainers(d: Display, c: Cluster, oracle: seq<MetricQuery> -> Response, i: nat)
    requires i < |c.services|
    ensures ClusterWithMetrics(d, c, false, oracle).services[i].tasks == c.services[i].tasks
  {
  }

  /** Each service's CPU and memory come from the service batches' map, None where it has no entry. */
  lemma ServiceValues(d: Display, c: Cluster, enabled: bool, oracle: seq<MetricQuery> -> Response, i: nat)
    requires i < |c.services|
    ensures var m := FetchAll(BuildServiceMetricQueries(c.name, c.services), oracle);
      && ClusterWithMetrics(d, c, enabled, oracle).services[i].cpuUsed == Lookup(m, ServiceCpuId(c.services[i].name))
      && ClusterWithMetrics(d, c, enabled, oracle).services[i].memoryUsed == Lookup(m, ServiceMemId(c.services[i].name))
  {
    var c1 := ServiceStage(c, oracle);
    if enabled && ContainersToFetch(c1) != [] {
      var m2 := FetchAll(BuildContainerMetricQueries(d, c1.name, ContainersToFetch(c1)), oracle);
      assert ClusterWithMetrics(d, c, enabled, oracle).services[i] == AttachService(d, c1.services[i], m2);
    }
  }

  /** The `MetricsFetcher`: its cached Container Insights flag. */
  class MetricsFetcher {
    const display: Display
    var insightsEnabled: Option<bool>

    constructor (display: Display)
      ensures this.display == display && insightsEnabled.None?
    {
      this.display := display;
      insightsEnabled := None;
    }

    /** `check_container_insights`: probe once and store the answer; a failed probe stores false. */
    method CheckContainerInsights(probe: Probe) returns (enabled: bool)
      modifies this`insightsEnabled
      ensures enabled == ProbeEnabled(probe) && insightsEnabled == Some(enabled)
      ensures enabled <==> probe.Datapoints? && probe.count > 0
    {
      match probe {
        case Datapoints(n) =>
          enabled := n > 0;
        case ProbeFailure =>
          enabled := false;
      }
      insightsEnabled := Some(enabled);
    }

    /** The `insights_enabled` property: the probe runs only while nothing is stored. */
    method InsightsEnabled(probe: Probe) returns (enabled: bool, probed: bool)
      modifies this`insightsEnabled
      ensures probed <==> old(insightsEnabled).None?
      ensures enabled == CachedInsights(old(insightsEnabled), probe)
      ensures insightsEnabled == Some(enabled)
    {
      if insightsEnabled.None? {
        enabled := CheckContainerInsights(probe);
        probed := true;
      } else {
        enabled := insightsEnabled.value;
        probed := false;
      }
    }

    /** `fetch_metrics_for_cluster`: the updated cluster, the calls made, and whether the probe ran. */
    method FetchMetricsForCluster(cluster: Cluster, probe: Probe, oracle: seq<MetricQuery> -> Response)
      returns (updated: Cluster, calls: seq<seq<MetricQuery>>, probed: bool)
      modifies this`insightsEnabled
      ensures probed <==> old(insightsEnabled).None?
      ensures insightsEnabled == Some(CachedInsights(old(insightsEnabled), probe))
      ensures updated == ClusterWithMetrics(display, cluster, CachedInsights(old(insightsEnabled), probe), oracle)
      ensures calls == MetricCalls(display, cluster, CachedInsights(old(insightsEnabled), probe))
    {
      var c := cluster;
      calls := [];
      if c.services != [] {
        var queries := BuildServiceMetricQueries(c.name, c.services);
        var results, batchCalls := FetchMetricsBatched(queries, oracle);
        var attached := AttachMetricsToServices(c.services, results);
        assert attached == AttachServices(c.services, results);
        ServicesPairsSameTasks(attached, c.services);
        c := c.(services := attached);
        calls := batchCalls;
      }
      assert ContainersToFetch(c) == ContainersToFetch(cluster);
      var enabled;
      enabled, probed := InsightsEnabled(probe);
      if enabled {
        var pairs := ContainersToFetch(c);
        if pairs != [] {
          var queries := BuildContainerMetricQueries(display, c.name, pairs);
          var results, batchCalls := FetchMetricsBatched(queries, oracle);
          c := AttachMetricsToContainers(display, c, results);
          calls := calls + batchCalls;
        }
      }
      updated := c;
    }
  }
}
