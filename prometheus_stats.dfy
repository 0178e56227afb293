/**
 * Construction of the Prometheus queries the telemetry stats tests check
 * (`tests/integration/telemetry/stats/prometheus/stats.go`): label maps are
 * copied, then labelled with the reporting side.
 *
 * The application namespace, a package-level value in the source, is a
 * parameter `ns` (its name).
 */
module PrometheusStats {

  type Labels = map<string, string>

  /** A Prometheus query: a metric name and the label values it must match. */
  datatype Query = Query(metric: string, labels: Labels)

  const RequestsTotal := "istio_requests_total"
  const EchoHTTPRequestsTotal := "istio_echo_http_requests_total"
  const TCPConnectionsOpenedTotal := "istio_tcp_connections_opened_total"

  const Reporter := "reporter"

  /** A fresh map with the entries of `labels`, copied one key at a time. */
  method Clone(labels: Labels) returns (ret: Labels)
    ensures ret == labels
  {
    ret := map[];
    var todo := labels.Keys;
    while todo != {}
      invariant todo <= labels.Keys
      invariant ret.Keys == labels.Keys - todo
      invariant forall k :: k in ret ==> ret[k] == labels[k]
      decreases todo
    {
      var k :| k in todo;
      ret := ret[k := labels[k]];
      todo := todo - {k};
    }
  }

  /** The query's label `k` is present with value `v`. */
  predicate Labelled(labels: Labels, k: string, v: string)
  {
    k in labels && labels[k] == v
  }

  /** `labels` with the reporter label set to `side`, every other entry kept. */
  ghost predicate ReportedAs(q: Labels, labels: Labels, side: string)
  {
    && q.Keys == labels.Keys + {Reporter}
    && Labelled(q, Reporter, side)
    && forall k :: k in labels && k != Reporter ==> q[k] == labels[k]
  }

  /**
   * The source-side, destination-side and application queries for request
   * metrics with the given labels.
   */
  method BuildQueryCommon(labels: Labels, ns: string) returns (sourceQuery: Query, destinationQuery: Query, appQuery: Query)
    ensures sourceQuery.metric == RequestsTotal && ReportedAs(sourceQuery.labels, labels, "source")
    ensures destinationQuery.metric == RequestsTotal && ReportedAs(destinationQuery.labels, labels, "destination")
    ensures appQuery.metric == EchoHTTPRequestsTotal && appQuery.labels.Keys == {"namespace"}
    ensures Labelled(appQuery.labels, "namespace", ns)
  {
    var sourceLabels := Clone(labels);
    sourceLabels := sourceLabels[Reporter := "source"];
    sourceQuery := Query(RequestsTotal, sourceLabels);

    var destinationLabels := Clone(labels);
    destinationLabels := destinationLabels[Reporter := "destination"];
    destinationQuery := Query(RequestsTotal, destinationLabels);

    appQuery := Query(EchoHTTPRequestsTotal, map["namespace" := ns]);
  }

  /** The `source_cluster` label: "Kubernetes" in a single cluster, else the client's cluster name. */
  function SourceClusterLabel(clusterCount: nat, clientCluster: string): string
  {
    if clusterCount > 1 then clientCluster else "Kubernetes"
  }

  /** In a multi-cluster run the source-cluster label is the client's cluster name, so it tells clusters apart; otherwise it is constant. */
  lemma SourceClusterLabelDistinguishes(clusterCount: nat, c1: string, c2: string)
    ensures clusterCount <= 1 ==> SourceClusterLabel(clusterCount, c1) == SourceClusterLabel(clusterCount, c2) == "Kubernetes"
    ensures clusterCount > 1 ==> SourceClusterLabel(clusterCount, c1) == c1
    ensures clusterCount > 1 ==> (SourceClusterLabel(clusterCount, c1) == SourceClusterLabel(clusterCount, c2) <==> c1 == c2)
  {
  }

  /** The labels of the client-to-server HTTP request series. */
  function RequestLabels(sourceCluster: string, ns: string): Labels
  {
    map[
      "request_protocol" := "http",
      "response_code" := "200",
      "destination_app" := "server",
      "destination_version" := "v1",
      "destination_service" := "server." + ns + ".svc.cluster.local",
      "destination_service_name" := "server",
      "destination_workload_namespace" := ns,
      "destination_service_namespace" := ns,
      "source_app" := "client",
      "source_version" := "v1",
      "source_workload" := "client-v1",
      "source_workload_namespace" := ns,
      "source_cluster" := sourceCluster]
  }

  /** The three request queries of the HTTP stats test. */
  method BuildQuery(sourceCluster: string, ns: string) returns (sourceQuery: Query, destinationQuery: Query, appQuery: Query)
    ensures sourceQuery.metric == destinationQuery.metric == RequestsTotal
    ensures Labelled(sourceQuery.labels, Reporter, "source") && Labelled(destinationQuery.labels, Reporter, "destination")
    ensures sourceQuery.labels - {Reporter} == destinationQuery.labels - {Reporter}
    ensures Labelled(sourceQuery.labels, "source_cluster", sourceCluster)
    ensures Labelled(sourceQuery.labels, "response_code", "200") && Labelled(sourceQuery.labels, "destination_app", "server")
    ensures appQuery == Query(EchoHTTPRequestsTotal, map["namespace" := ns])
  {
    var labels := RequestLabels(sourceCluster, ns);
    sourceQuery, destinationQuery, appQuery := BuildQueryCommon(labels, ns);
    assert Reporter !in labels;
    assert sourceQuery.labels.Keys == labels.Keys + {Reporter};
    assert sourceQuery.labels - {Reporter} == labels;
    assert destinationQuery.labels - {Reporter} == labels;
    assert appQuery.labels == map["namespace" := ns];
  }

  /** The client-side query for calls to the server without a sidecar. */
  method BuildOutOfMeshServerQuery(sourceCluster: string, ns: string) returns (q: Query)
    ensures q.metric == RequestsTotal && Labelled(q.labels, Reporter, "source")
    ensures Labelled(q.labels, "destination_app", "unknown") && Labelled(q.labels, "destination_version", "unknown")
    ensures Labelled(q.labels, "destination_service_name", "server-no-sidecar")
    ensures Labelled(q.labels, "destination_service", "server-no-sidecar." + ns + ".svc.cluster.local")
    ensures Labelled(q.labels, "source_cluster", sourceCluster)
  {
    var labels := map[
      "request_protocol" := "http",
      "response_code" := "200",
      "destination_app" := "unknown",
      "destination_version" := "unknown",
      "destination_service" := "server-no-sidecar." + ns + ".svc.cluster.local",
      "destination_service_name" := "server-no-sidecar",
      "destination_workload_namespace" := ns,
      "destination_service_namespace" := ns,
      "source_app" := "client",
      "source_version" := "v1",
      "source_workload" := "client-v1",
      "source_workload_namespace" := ns,
      "source_cluster" := sourceCluster];
    var source, _, _ := BuildQueryCommon(labels, ns);
    assert Reporter !in labels;
    q := source;
  }

  /** The server-side query for TCP connections opened. */
  function BuildTCPQuery(sourceCluster: string, ns: string): (q: Query)
    ensures q.metric == TCPConnectionsOpenedTotal && Labelled(q.labels, Reporter, "destination")
    ensures "response_code" !in q.labels
    ensures Labelled(q.labels, "request_protocol", "tcp") && Labelled(q.labels, "source_cluster", sourceCluster)
  {
    Query(TCPConnectionsOpenedTotal, map[
      "request_protocol" := "tcp",
      "destination_service_name" := "server",
      "destination_canonical_revision" := "v1",
      "destination_canonical_service" := "server",
      "destination_app" := "server",
      "destination_version" := "v1",
      "destination_workload_namespace" := ns,
      "destination_service_namespace" := ns,
      "source_app" := "client",
      "source_version" := "v1",
      "source_workload" := "client-v1",
      "source_workload_namespace" := ns,
      "source_cluster" := sourceCluster,
      Reporter := "destination"])
  }
}
