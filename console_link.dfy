/**
 * AWS console URLs for a cluster, a service, a task and a task's container
 * section. Every builder inserts its arguments verbatim, without escaping.
 */
module ConsoleLink {

  import opened Strings

  const ClustersBase: string := "https://console.aws.amazon.com/ecs/v2/clusters/"
  const RegionQuery: string := "?region="
  const ContainersAnchor: string := "#containers"

  /** The part every URL for `clusterName` starts with. */
  function ClusterPrefix(clusterName: string): string {
    ClustersBase + clusterName
  }

  /** `build_cluster_url`. */
  function BuildClusterUrl(clusterName: string, region: string): string
  {
    ClusterPrefix(clusterName) + RegionQuery + region
  }

  /** `build_service_url`. */
  function BuildServiceUrl(clusterName: string, serviceName: string, region: string): string
  {
    ClusterPrefix(clusterName) + "/services/" + serviceName + RegionQuery + region
  }

  /** `build_task_url`. */
  function BuildTaskUrl(clusterName: string, taskId: string, region: string): string
  {
    ClusterPrefix(clusterName) + "/tasks/" + taskId + RegionQuery + region
  }

  /** `build_container_url`. */
  function BuildContainerUrl(clusterName: string, taskId: string, region: string): string
  {
    ClusterPrefix(clusterName) + "/tasks/" + taskId + RegionQuery + region + ContainersAnchor
  }

  /** The container URL is the task URL with the `#containers` anchor appended. */
  lemma ContainerUrlExtendsTaskUrl(c: string, t: string, r: string)
    ensures BuildContainerUrl(c, t, r) == BuildTaskUrl(c, t, r) + ContainersAnchor
  {
  }

  /** All four URLs start with the same cluster prefix, which holds the name verbatim. */
  lemma UrlsShareClusterPrefix(c: string, s: string, t: string, r: string)
    ensures StartsWith(BuildClusterUrl(c, r), ClusterPrefix(c))
    ensures StartsWith(BuildServiceUrl(c, s, r), ClusterPrefix(c))
    ensures StartsWith(BuildTaskUrl(c, t, r), ClusterPrefix(c))
    ensures StartsWith(BuildContainerUrl(c, t, r), ClusterPrefix(c))
    ensures ClusterPrefix(c)[|ClustersBase|..] == c
  {
    var p := ClusterPrefix(c);
    assert BuildClusterUrl(c, r) == p + (RegionQuery + r);
    assert BuildServiceUrl(c, s, r) == p + ("/services/" + s + RegionQuery + r);
    assert BuildTaskUrl(c, t, r) == p + ("/tasks/" + t + RegionQuery + r);
    assert BuildContainerUrl(c, t, r) == p + ("/tasks/" + t + RegionQuery + r + ContainersAnchor);
  }

  /** With the cluster and region fixed, different services give different URLs. */
  lemma ServiceUrlInjective(c: string, s1: string, s2: string, r: string)
    requires BuildServiceUrl(c, s1, r) == BuildServiceUrl(c, s2, r)
    ensures s1 == s2
  {
    var p := ClusterPrefix(c) + "/services/";
    var u1 := BuildServiceUrl(c, s1, r);
    assert u1 == p + s1 + (RegionQuery + r);
    assert BuildServiceUrl(c, s2, r) == p + s2 + (RegionQuery + r);
    assert |s1| == |s2|;
    assert s1 == u1[|p|..|p| + |s1|];
  }

  /** With the cluster and region fixed, different tasks give different URLs. */
  lemma TaskUrlInjective(c: string, t1: string, t2: string, r: string)
    requires BuildTaskUrl(c, t1, r) == BuildTaskUrl(c, t2, r)
    ensures t1 == t2
  {
    var p := ClusterPrefix(c) + "/tasks/";
    var u1 := BuildTaskUrl(c, t1, r);
    assert u1 == p + t1 + (RegionQuery + r);
    assert BuildTaskUrl(c, t2, r) == p + t2 + (RegionQuery + r);
    assert |t1| == |t2|;
    assert t1 == u1[|p|..|p| + |t1|];
  }

  /** A service URL is never a task URL of the same cluster. */
  lemma ServiceUrlIsNotTaskUrl(c: string, s: string, t: string, r: string)
    ensures BuildServiceUrl(c, s, r) != BuildTaskUrl(c, t, r)
  {
    var k := |ClusterPrefix(c)| + 1;
    assert BuildServiceUrl(c, s, r)[k] == 's';
    assert BuildTaskUrl(c, t, r)[k] == 't';
  }

  /** The vectors of the repository's tests, one lemma each. */
  lemma ClusterUrlExample()
    ensures BuildClusterUrl("my-cluster", "us-east-1")
      == "https://console.aws.amazon.com/ecs/v2/clusters/my-cluster?region=us-east-1"
  {
  }

  lemma ServiceUrlExample()
    ensures BuildServiceUrl("my-cluster", "my-service", "us-east-1")
      == "https://console.aws.amazon.com/ecs/v2/clusters/my-cluster/services/my-service?region=us-east-1"
  {
    assert ClustersBase + "my-cluster" + "/services/" + "my-service"
      == "https://console.aws.amazon.com/ecs/v2/clusters/my-cluster/services/my-service";
  }

  lemma TaskUrlExample()
    ensures BuildTaskUrl("my-cluster", "abc123def456", "us-east-1")
      == "https://console.aws.amazon.com/ecs/v2/clusters/my-cluster/tasks/abc123def456?region=us-east-1"
  {
    assert ClustersBase + "my-cluster" + "/tasks/" + "abc123def456"
      == "https://console.aws.amazon.com/ecs/v2/clusters/my-cluster/tasks/abc123def456";
  }

  lemma ContainerUrlExample()
    ensures BuildContainerUrl("my-cluster", "abc123def456", "us-east-1")
      == "https://console.aws.amazon.com/ecs/v2/clusters/my-cluster/tasks/abc123def456?region=us-east-1#containers"
  {
    TaskUrlExample();
    ContainerUrlExtendsTaskUrl("my-cluster", "abc123def456", "us-east-1");
  }
}
