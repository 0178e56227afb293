# Echo integration-test rules, modelled in Dafny

This project models the deterministic rules inside the service-mesh integration-test harness. They are:

- how a Kubernetes-backed echo instance validates its ClusterIP and reports its address;
- how it fans one logical call out to every ready workload and merges the results;
- when a restart counts as successful;
- how the telemetry tests build their Prometheus queries;
- how the security tests configure echo services and select instances;
- how the pilot tests derive service-entry and headless port lists;
- how the multi-version revision test names revisions and schedules traffic between every pair of instances.

Kubernetes, the echo RPC, Prometheus and the test framework stay outside the model. The project receives their outcomes as parameters:

- ready workloads arrive as `Result<seq<Workload>, Error>`;
- the echo RPC is a total function `forward(name, workload, options)`;
- the restart's readiness attempts are a sequence of counts or errors;
- the application namespace is its name `ns`.

Files, one module each:

- `base.dfy`: `Option` and `Result`.
- `echo.dfy`: the echo types the other files share (ports, subsets, configuration, call options, instance handles, sidecar-injection annotation).
- `kube_instance.dfy`: `pkg/test/framework/components/echo/kube/instance.go`.
- `prometheus_stats.dfy`: `tests/integration/telemetry/stats/prometheus/stats.go`.
- `security_framework.dfy`: `tests/integration/security/util/framework.go`.
- `pilot_apps.dfy`: `tests/integration/pilot/common/apps.go`.
- `multi_version_revision.dfy`: `tests/integration/pilot/multi_version_revision_test.go`.

Code that updates state step by step is written as methods with loops:

- `aggregateResponses`, `Restart`, `clone`, the headless loop of `EchoConfig`, `IsMultiversion`;
- the three port-list loops in `apps.go`;
- the revision loop and the triple loop of `testAllEchoCalls`.

Each of these methods is proved against a specification function or a quantified statement of what it computes. The instance is a class. `NewInstance` normalises the ClusterIP before building it, so the class invariant on the address holds for every instance.

## Model

| member | source | states |
|---|---|---|
| `KubeInstance.ClusterIPFor` | pkg/test/framework/components/echo/kube/instance.go:92-102 | A ClusterIP of "None" or "" is an error exactly when the service is not headless, and the error names the IP, namespace and service. A headless service gets "". Any other IP is kept verbatim. The address kept is never "None" and is empty only for headless services. |
| `KubeInstance.NewInstance` | pkg/test/framework/components/echo/kube/instance.go:61-105 | An earlier Kubernetes error is returned as is. Otherwise creation succeeds exactly when `ClusterIPFor` does. The new instance has the given config and the normalised ClusterIP, and satisfies the address invariant. |
| `KubeInstance.Instance.Address` | pkg/test/framework/components/echo/instance.go:30 | The address is "" only for a headless service, and is never "None". |
| `KubeInstance.EffectiveOptions` | pkg/test/framework/components/echo/kube/instance.go:196-199 | A gRPC call of a proxyless-gRPC instance gets scheme XDS. A call counts as gRPC by scheme, by port name "grpc" or by port protocol GRPC. Only the scheme can change. The options change only in that case. |
| `KubeInstance.Outcomes` | pkg/test/framework/components/echo/kube/instance.go:207-211 | The echo RPC is called once per ready workload, in workload order, with name "<service> (cluster=<cluster>)" and the options passed in. `AggregateResponses` passes the options after the XDS rewrite. |
| `KubeInstance.Instance.AggregateResponses` | pkg/test/framework/components/echo/kube/instance.go:194-223 | An error fetching ready workloads is returned at once. Otherwise the result is `Merge` of every workload's outcome, computed with the rewritten options. |
| `KubeInstance.Instance.Call` | pkg/test/framework/components/echo/kube/instance.go:149-151 | `Call` has exactly the contract of `AggregateResponses`. |
| `KubeInstance.Instance.FirstClient` | pkg/test/framework/components/echo/kube/instance.go:128-134 | It relies on the interface's guarantee that a nil error means at least one workload. It returns the fetch error, or the first ready workload. |
| `KubeInstance.PollCheck` | pkg/test/framework/components/echo/kube/instance.go:176-189 | A restart attempt succeeds exactly when the ready count equals the original count. Otherwise it reports the wait error or the count mismatch, naming the service's namespace and name. |
| `KubeInstance.Instance.Restart` | pkg/test/framework/components/echo/kube/instance.go:162-191 | An initial wait error is wrapped and returned without polling. A deployment-restart error is returned without polling. Otherwise restart succeeds exactly when some attempt sees the original ready count. When none does, the result is a timeout carrying the attempt count and the last attempt's error. |
| `KubeInstance.MergeOkIffAllOk` | pkg/test/framework/components/echo/kube/instance.go:207-222 | The merged result is a success exactly when every workload's call succeeded (all-or-nothing). |
| `KubeInstance.FailuresEmptyIffAllOk` | pkg/test/framework/components/echo/kube/instance.go:207-218 | The aggregate error is empty exactly when no workload failed. |
| `KubeInstance.MergeDistributes` | pkg/test/framework/components/echo/kube/instance.go:207-217 | Responses and errors of consecutive workload groups are concatenated in workload order. |
| `KubeInstance.MergeConcatenates` | pkg/test/framework/components/echo/kube/instance.go:201-222 | On success, each workload's responses appear in the result, between those of the workloads before it and those after it. |
| `KubeInstance.FailuresAreTheFailedCalls` | pkg/test/framework/components/echo/kube/instance.go:207-215 | Every workload is tried. The aggregate error holds an error exactly when some workload's call failed with it. |
| `PrometheusStats.Clone` | tests/integration/telemetry/stats/prometheus/stats.go:382-388 | The copy has exactly the input's entries. |
| `PrometheusStats.BuildQueryCommon` | tests/integration/telemetry/stats/prometheus/stats.go:366-380 | The source and destination queries use `istio_requests_total`. Their labels are the input's keys plus `reporter`, with `reporter` set to "source" or "destination" (overriding any existing value) and every other entry kept. The app query uses `istio_echo_http_requests_total` and has exactly one label, `namespace`=ns. |
| `PrometheusStats.SourceClusterLabelDistinguishes` | tests/integration/telemetry/stats/prometheus/stats.go:109-112 | With one cluster the source-cluster label is "Kubernetes" for every client. With more than one, it is the client's own cluster name, so two labels are equal exactly when the clusters are. |
| `PrometheusStats.BuildQuery` | tests/integration/telemetry/stats/prometheus/stats.go:390-409 | Both request queries use `istio_requests_total` and are reported as source and destination. Apart from `reporter` they have the same labels. They carry `source_cluster`, `response_code`=200 and `destination_app`=server. The app query is `namespace`=ns. |
| `PrometheusStats.BuildOutOfMeshServerQuery` | tests/integration/telemetry/stats/prometheus/stats.go:411-435 | Only the source-reporter query is returned. Its `destination_app` and `destination_version` are "unknown", and its destination is `server-no-sidecar`. |
| `PrometheusStats.BuildTCPQuery` | tests/integration/telemetry/stats/prometheus/stats.go:437-459 | The metric is `istio_tcp_connections_opened_total`, with `reporter`=destination and `request_protocol`=tcp. It carries the source-cluster label and has no `response_code` label. |
| `SecurityFramework.EchoConfig` | tests/integration/security/util/framework.go:72-168 | Service, namespace and headless come from the arguments, and ServiceAccount is true. There is exactly one subset, v1, with the given annotations. There are always 8 service ports and the same 6 workload-only ports. Non-headless ports are as declared. Headless ports have ServicePort = InstancePort, with every other field unchanged. |
| `SecurityFramework.IsMultiversion` | tests/integration/security/util/framework.go:312-327 | The result is false unless there are exactly 2 subsets. It is true exactly when some subset has version "vistio" and some subset has version "vlegacy" with sidecar injection off. |
| `SecurityFramework.IsNaked` | tests/integration/security/util/framework.go:299-301 | The result is membership in HeadlessNaked ∪ Naked. |
| `SecurityFramework.IsHeadless` | tests/integration/security/util/framework.go:303-305 | The result is membership in HeadlessNaked ∪ Headless. |
| `SecurityFramework.IsVM` | tests/integration/security/util/framework.go:307-309 | The result is membership in VM. |
| `SecurityFramework.MatchNamespace` | tests/integration/security/util/framework.go:332 | Namespace matching keeps exactly the instances in the namespace. |
| `SecurityFramework.MatchNamespaceAppend` | tests/integration/security/util/framework.go:332-334 | Matching preserves order: the matches of a concatenation are the matches of the first part followed by those of the second. |
| `SecurityFramework.Selection` | tests/integration/security/util/framework.go:331-337 | The primary instances in ns come first, in their order. Unless VMs are skipped, the VM instances in ns follow, in their order. Nothing else is included. The whole selection is the namespace match of the primary list followed by the VM list. |
| `SecurityFramework.SourceFilter` | tests/integration/security/util/framework.go:330-339 | There is one filter. It ignores its input. It returns exactly the A instances in ns in order, followed, unless skipVM, by exactly the VM instances in ns in order. |
| `SecurityFramework.DestFilter` | tests/integration/security/util/framework.go:342-351 | There is one filter. It ignores its input. It returns exactly the B instances in ns in order, followed, unless skipVM, by exactly the VM instances in ns in order. |
| `PilotApps.FindPortByName` | tests/integration/pilot/common/apps.go:90-97 | The result is the first echo port with the name, or the zero port when none has it. |
| `PilotApps.ServiceEntryPort` | tests/integration/pilot/common/apps.go:102-106 | A port whose name starts with "auto" gets protocol "". Every other port is unchanged. Only the protocol can change. |
| `PilotApps.ServiceEntryPorts` | tests/integration/pilot/common/apps.go:99-110 | The result has the same length and order as the echo ports, each port in its service-entry form. The shared list is left unmodified. |
| `PilotApps.HeadlessPorts` | tests/integration/pilot/common/apps.go:132-137 | The result is a new array with the same length and order. Each ServicePort is set to its InstancePort, and every other field is unchanged. |
| `Echo.HeadlessPort` | tests/integration/pilot/common/apps.go:135 | Only the service port changes, and it becomes the instance port. |
| `MultiVersionRevision.RevisionName` | tests/integration/pilot/multi_version_revision_test.go:81 | Every "." is replaced by "-". The result has the same length and contains no ".". |
| `MultiVersionRevision.RevisionedNamespaces` | tests/integration/pilot/multi_version_revision_test.go:76-94 | There is one injected namespace per version, in version order. Each has the version's revision name and the prefix "revision-<rev>". That prefix equals the revision's echo service name. |
| `MultiVersionRevision.VersionRevisionsDistinct` | tests/integration/pilot/multi_version_revision_test.go:40-48 | The five installed versions give pairwise distinct revision namespace and service names. |
| `MultiVersionRevision.TestAllEchoCalls` | tests/integration/pilot/multi_version_revision_test.go:133-159 | The subtests started are exactly `Schedule(instances, instances)`, in that order. |
| `MultiVersionRevision.PairTestsInOrder` | tests/integration/pilot/multi_version_revision_test.go:134-141 | Each pair gets subtests http, tcp, grpc in that order, each named "<type>-<source>-><dest>". |
| `MultiVersionRevision.PairTestsMembers` | tests/integration/pilot/multi_version_revision_test.go:140-141 | A pair has one subtest per traffic type, and holds exactly the subtests of those types. |
| `MultiVersionRevision.RowMembers` | tests/integration/pilot/multi_version_revision_test.go:136-141 | The subtests from one source are exactly those to each destination other than itself, one per traffic type. |
| `MultiVersionRevision.ScheduleMembers` | tests/integration/pilot/multi_version_revision_test.go:135-141 | A subtest is scheduled exactly when its source and destination are listed and differ, its type is a traffic type, and it carries its name. |
| `MultiVersionRevision.AllPairsScheduled` | tests/integration/pilot/multi_version_revision_test.go:134-141 | Every ordered pair of distinct instances gets each traffic type. No instance is paired with itself. |
| `MultiVersionRevision.ScheduleSourceMajor` | tests/integration/pilot/multi_version_revision_test.go:135 | Enumeration is source-major: the subtests of earlier sources come first. |
| `MultiVersionRevision.RowDestinationMajor` | tests/integration/pilot/multi_version_revision_test.go:136 | Within one source, enumeration is destination by destination. |
| `MultiVersionRevision.RowLength` | tests/integration/pilot/multi_version_revision_test.go:136-140 | One source has 3 subtests for every destination that is not itself. |
| `MultiVersionRevision.ScheduleLength` | tests/integration/pilot/multi_version_revision_test.go:134-140 | With distinct destinations, every listed source contributes 3·(n−1) subtests. |
| `MultiVersionRevision.SubTestCount` | tests/integration/pilot/multi_version_revision_test.go:134-140 | n distinct instances give n·(n−1)·3 subtests. |

## Left out

- Kubernetes API calls are parameters here. This covers deployment creation, the workload manager, the Service Get and pod readiness polling. Their outcomes arrive as parameters.
- Resource tracking is left out: `ID`, `Start`, `Close`, and the `WorkloadsOrFail`/`CallOrFail` wrappers that fail the test.
- Retry delays and timeouts are not timed. `Restart` sees the finite list of attempts made before the timeout.
- `KubeInstance.Instance.Restart`: the error after the timeout is modelled as the attempt count and the last attempt's error, not as the retry package's message text.
- `KubeInstance.Instance.AggregateResponses`: each failed workload adds one element to the aggregate error. go-multierror's flattening of errors that are themselves multierrors is not modelled.
- The echo RPC (`common.ForwardEcho`) is a total function parameter. It is assumed not to change the options it receives by pointer.
- `KubeInstance.Instance.FirstClient`: returns the first workload, not its RPC client. The client accessor's own error is not modelled.
- `Config.IsProxylessGRPC` is not part of this model. The config carries its answer as the flag `proxylessGRPC`.
- `SecurityFramework.EchoConfig`: sets the `proxylessGRPC` flag to false. In the framework that answer is derived from the subset's injection-template annotation, which can arrive in `annos`, and that derivation is not modelled.
- `Annotations.GetBool` is not part of this model. The sidecar-injection value is the stored string parsed as Go's `strconv.ParseBool` does. It defaults to "true" when absent and reads as false when it does not parse.
- `PrometheusStats.Clone`: label maps are Dafny values. That later writes to a copy leave the input alone holds by construction, not by proof.
- `PrometheusStats.BuildQuery`: only some of the literal labels are stated (reporter, source cluster, response code, destination app), plus the agreement of the two request queries. The rest of the literal is not restated.
- `PrometheusStats.BuildOutOfMeshServerQuery`: only the distinguishing labels are stated, not every literal label.
- `PrometheusStats.BuildTCPQuery`: only the metric, reporter, protocol, source cluster and the absence of `response_code` are stated, not every literal label.
- The concurrent test bodies are left out: `TestStatsFilter` and `TestStatsTCPFilter` (errgroup fan-out, `QuerySum`/`Query`, `PromDiff`), `SendTraffic`/`SendTCPTraffic` and the mock-Prometheus call.
- Setup code is left out: `TestSetup` and both `SetupApps` (namespace creation, builder chains, the `skipDelta` switch for delta xDS, YAML application, the service-entry template), `MustReadCert`, and the concurrent `EchoDeployments.Restart` in `apps.go`.
- Echo's `Instances.Match` is not part of this model. `SecurityFramework.MatchNamespace` models namespace matching as an order-preserving filter.
- Revisions: `installRevisionOrFail` (tar-file read, YAML apply) and `skipIfK8sVersionUnsupported` are left out. So are the framework's namespace creation, which adds a random suffix to the prefix, and the three ports of each revisioned echo config. A revisioned namespace is modelled by its requested prefix, revision and injection flag.
- The body of each subtest (retried call and response checks) is left out. The schedule records what each subtest calls and how it is named.
- vm_test.go, trust_domain_validation_test.go, https_jwt_test.go and reachability_test.go are fixtures and are not part of this model.
