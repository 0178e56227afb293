/**
 * Echo configuration and instance selection for the security integration
 * tests (`tests/integration/security/util/framework.go`).
 */
module SecurityFramework {
  import opened Echo

  /** The service ports every `EchoConfig` declares, in declaration order. */
  const DeclaredPorts: seq<Port> := [
    Port("http", HTTP, 8095, 8090, false),
    Port("tcp", TCP, 0, 0, false),
    Port("grpc", GRPC, 0, 0, false),
    Port("https", HTTPS, 443, 8443, true),
    Port("http-8091", HTTP, 0, 8091, false),
    Port("http-8092", HTTP, 0, 8092, false),
    Port("tcp-8093", TCP, 0, 8093, false),
    Port("tcp-8094", TCP, 0, 8094, false)]

  /** The ports opened only on the workload, never on the Kubernetes service. */
  const DeclaredWorkloadOnlyPorts: seq<WorkloadPort> := [
    WorkloadPort(8085, HTTP, false),
    WorkloadPort(8086, HTTP, false),
    WorkloadPort(8087, TCP, false),
    WorkloadPort(8088, TCP, false),
    WorkloadPort(8089, HTTPS, true),
    WorkloadPort(8084, HTTPS, true)]

  /**
   * The standard echo configuration for service `name` in namespace `ns`. A
   * headless service with a selector needs equal service and target ports, so
   * for one every service port is set to its instance port.
   */
  method EchoConfig(name: string, ns: string, headless: bool, annos: Annotations) returns (out: Config)
    ensures out.service == name && out.namespace == ns && out.headless == headless && out.serviceAccount
    ensures out.subsets == [SubsetConfig("v1", annos)]
    ensures out.workloadOnlyPorts == DeclaredWorkloadOnlyPorts
    ensures |out.ports| == |DeclaredPorts| == 8 && |out.workloadOnlyPorts| == 6
    ensures !headless ==> out.ports == DeclaredPorts
    ensures headless ==> forall i :: 0 <= i < |out.ports| ==>
              out.ports[i].servicePort == out.ports[i].instancePort
              && out.ports[i].(servicePort := DeclaredPorts[i].servicePort) == DeclaredPorts[i]
    ensures !out.deployAsVM && !out.proxylessGRPC
  {
    out := Config(name, ns, true, headless, [SubsetConfig("v1", annos)], DeclaredPorts, DeclaredWorkloadOnlyPorts, false, false);
    if headless {
      var i := 0;
      while i < |out.ports|
        invariant 0 <= i <= |out.ports| == |DeclaredPorts|
        invariant out == Config(name, ns, true, headless, [SubsetConfig("v1", annos)], out.ports, DeclaredWorkloadOnlyPorts, false, false)
        invariant forall j :: 0 <= j < i ==> out.ports[j] == HeadlessPort(DeclaredPorts[j])
        invariant forall j :: i <= j < |out.ports| ==> out.ports[j] == DeclaredPorts[j]
      {
        out := out.(ports := out.ports[i := out.ports[i].(servicePort := out.ports[i].instancePort)]);
        i := i + 1;
      }
    }
  }

  /** A subset deployed without a sidecar under the legacy version. */
  predicate IsLegacySubset(s: SubsetConfig)
  {
    s.version == "vlegacy" && !SidecarInjectEnabled(s.annotations)
  }

  /**
   * Matches the multi-version service: exactly two subsets, one with version
   * "vistio" and one legacy subset without sidecar injection.
   */
  method IsMultiversion(cfg: Config) returns (b: bool)
    ensures |cfg.subsets| != 2 ==> !b
    ensures b <==> |cfg.subsets| == 2
                   && (exists i :: 0 <= i < |cfg.subsets| && cfg.subsets[i].version == "vistio")
                   && (exists i :: 0 <= i < |cfg.subsets| && IsLegacySubset(cfg.subsets[i]))
  {
    if |cfg.subsets| != 2 {
      return false;
    }
    var matchIstio, matchLegacy := false, false;
    for i := 0 to |cfg.subsets|
      invariant matchIstio <==> exists j :: 0 <= j < i && cfg.subsets[j].version == "vistio"
      invariant matchLegacy <==> exists j :: 0 <= j < i && IsLegacySubset(cfg.subsets[j])
    {
      var s := cfg.subsets[i];
      if s.version == "vistio" {
        matchIstio := true;
      } else if s.version == "vlegacy" && !SidecarInjectEnabled(s.annotations) {
        matchLegacy := true;
      }
    }
    return matchIstio && matchLegacy;
  }

  /** The echo instances the security tests deploy, grouped by service. */
  datatype EchoDeployments = EchoDeployments(
    a: seq<Instance>,
    b: seq<Instance>,
    vm: seq<Instance>,
    headless: seq<Instance>,
    naked: seq<Instance>,
    headlessNaked: seq<Instance>)

  /** Whether `i` runs without a sidecar. */
  function IsNaked(apps: EchoDeployments, i: Instance): (r: bool)
    ensures r <==> i in (set x | x in apps.headlessNaked) + (set x | x in apps.naked)
  {
    i in apps.headlessNaked || i in apps.naked
  }

  /** Whether `i` is behind a headless service. */
  function IsHeadless(apps: EchoDeployments, i: Instance): (r: bool)
    ensures r <==> i in (set x | x in apps.headlessNaked) + (set x | x in apps.headless)
  {
    i in apps.headlessNaked || i in apps.headless
  }

  /** Whether `i` is deployed as a virtual machine. */
  function IsVM(apps: EchoDeployments, i: Instance): (r: bool)
    ensures r <==> i in (set x | x in apps.vm)
  {
    i in apps.vm
  }

  /** The instances of `xs` in namespace `ns`, in their order (`Instances.Match(Namespace(ns))`). */
  function MatchNamespace(xs: seq<Instance>, ns: string): (r: seq<Instance>)
    ensures |r| <= |xs|
    ensures forall x :: x in r <==> x in xs && x.namespace == ns
  {
    if xs == [] then []
    else (if xs[0].namespace == ns then [xs[0]] else []) + MatchNamespace(xs[1..], ns)
  }

  /** Matching keeps order: the matches of a concatenation are the matches of each part, in turn. */
  lemma {:induction false} MatchNamespaceAppend(xs: seq<Instance>, ys: seq<Instance>, ns: string)
    ensures MatchNamespace(xs + ys, ns) == MatchNamespace(xs, ns) + MatchNamespace(ys, ns)
  {
    if xs == [] {
      assert xs + ys == ys;
    } else {
      assert (xs + ys)[0] == xs[0];
      assert (xs + ys)[1..] == xs[1..] + ys;
      MatchNamespaceAppend(xs[1..], ys, ns);
    }
  }

  /** A single instance is kept exactly when it is in the namespace. */
  lemma MatchNamespaceSingleton(x: Instance, ns: string)
    ensures MatchNamespace([x], ns) == if x.namespace == ns then [x] else []
  {
    assert [x][1..] == [];
  }

  /** An echotest filter: maps the candidate instances to those a test uses. */
  type Filter = seq<Instance> -> seq<Instance>

  /** The instances of `primary` in `ns`, followed by the VM instances in `ns` unless VMs are skipped. */
  function Selection(primary: seq<Instance>, vm: seq<Instance>, ns: string, skipVM: bool): (r: seq<Instance>)
    ensures MatchNamespace(primary, ns) <= r
    ensures forall x :: x in r <==> x.namespace == ns && (x in primary || (!skipVM && x in vm))
    ensures r == MatchNamespace(primary + (if skipVM then [] else vm), ns)
  {
    MatchNamespaceAppend(primary, if skipVM then [] else vm, ns);
    var inst := MatchNamespace(primary, ns);
    if skipVM then inst else inst + MatchNamespace(vm, ns)
  }

  /** The source filter: A instances in `ns`, then VM instances in `ns` unless `skipVM`, whatever the candidates. */
  function SourceFilter(apps: EchoDeployments, ns: string, skipVM: bool): (rt: seq<Filter>)
    ensures |rt| == 1
    ensures forall xs, x :: x in rt[0](xs) <==> x.namespace == ns && (x in apps.a || (!skipVM && x in apps.vm))
    ensures forall xs :: MatchNamespace(apps.a, ns) <= rt[0](xs)
    ensures skipVM ==> forall xs :: rt[0](xs) == MatchNamespace(apps.a, ns)
    ensures !skipVM ==> forall xs :: rt[0](xs) == MatchNamespace(apps.a, ns) + MatchNamespace(apps.vm, ns)
    ensures forall xs :: rt[0](xs) == MatchNamespace(apps.a + (if skipVM then [] else apps.vm), ns)
    ensures forall xs, ys :: rt[0](xs) == rt[0](ys)
  {
    [(instances: seq<Instance>) => Selection(apps.a, apps.vm, ns, skipVM)]
  }

  /** The destination filter: B instances in `ns`, then VM instances in `ns` unless `skipVM`, whatever the candidates. */
  function DestFilter(apps: EchoDeployments, ns: string, skipVM: bool): (rt: seq<Filter>)
    ensures |rt| == 1
    ensures forall xs, x :: x in rt[0](xs) <==> x.namespace == ns && (x in apps.b || (!skipVM && x in apps.vm))
    ensures forall xs :: MatchNamespace(apps.b, ns) <= rt[0](xs)
    ensures skipVM ==> forall xs :: rt[0](xs) == MatchNamespace(apps.b, ns)
    ensures !skipVM ==> forall xs :: rt[0](xs) == MatchNamespace(apps.b, ns) + MatchNamespace(apps.vm, ns)
    ensures forall xs :: rt[0](xs) == MatchNamespace(apps.b + (if skipVM then [] else apps.vm), ns)
    ensures forall xs, ys :: rt[0](xs) == rt[0](ys)
  {
    [(instances: seq<Instance>) => Selection(apps.b, apps.vm, ns, skipVM)]
  }
}
