/**
 * The echo test-framework types shared by the modelled files: ports, subset
 * configuration, instance configuration, call options and instance handles.
 * Only the fields the modelled code reads or writes are kept.
 */
module Echo {
  import opened Base

  /** A protocol name (Go's `protocol.Instance`, a string type; "" means "sniff"). */
  type Protocol = string

  const HTTP: Protocol := "HTTP"
  const HTTPS: Protocol := "HTTPS"
  const TCP: Protocol := "TCP"
  const GRPC: Protocol := "GRPC"

  /** A service port of an echo deployment (Go's `echo.Port`). */
  datatype Port = Port(name: string, protocol: Protocol, servicePort: int, instancePort: int, tls: bool)

  /** The zero value `echo.Port{}`. */
  const ZeroPort := Port("", "", 0, 0, false)

  /** A port opened by the workload but not declared on the Kubernetes service. */
  datatype WorkloadPort = WorkloadPort(port: int, protocol: Protocol, tls: bool)

  /** Workload annotations by key; a nil Go map is the empty map. */
  type Annotations = map<string, string>

  const SidecarInject := "sidecar.istio.io/inject"

  /** The value `SetBool(SidecarInject, false)` stores. */
  const SidecarInjectOff: Annotations := map[SidecarInject := "false"]

  /** Go's `strconv.ParseBool`. */
  function ParseBool(s: string): (r: Option<bool>)
    ensures r == Some(true) <==> s in {"1", "t", "T", "TRUE", "true", "True"}
    ensures r == Some(false) <==> s in {"0", "f", "F", "FALSE", "false", "False"}
  {
    if s in {"1", "t", "T", "TRUE", "true", "True"} then Some(true)
    else if s in {"0", "f", "F", "FALSE", "false", "False"} then Some(false)
    else None
  }

  /**
   * `Annotations.GetBool(SidecarInject)`: the stored value parsed as a boolean,
   * the annotation's default "true" when it is absent, false when it does not parse.
   */
  function SidecarInjectEnabled(annos: Annotations): bool
  {
    var v := if SidecarInject in annos then annos[SidecarInject] else "true";
    match ParseBool(v)
    case Some(b) => b
    case None => false
  }

  /** One deployment subset of an echo service (Go's `echo.SubsetConfig`). */
  datatype SubsetConfig = SubsetConfig(version: string, annotations: Annotations)

  /**
   * The configuration of an echo service (Go's `echo.Config`), reduced to the
   * fields the modelled code uses. `proxylessGRPC` is the answer of
   * `Config.IsProxylessGRPC()`, which is not part of this model.
   */
  datatype Config = Config(
    service: string,
    namespace: string,
    serviceAccount: bool,
    headless: bool,
    subsets: seq<SubsetConfig>,
    ports: seq<Port>,
    workloadOnlyPorts: seq<WorkloadPort>,
    deployAsVM: bool,
    proxylessGRPC: bool)

  /** The options of one echo call (Go's `echo.CallOptions`): the fields the gRPC rewrite inspects. */
  datatype CallOptions = CallOptions(scheme: string, portName: string, port: Option<Port>)

  /**
   * A handle on a deployed echo instance. Go compares `echo.Instance`
   * interface values by pointer; `id` plays the part of that identity.
   */
  datatype Instance = Instance(id: nat, service: string, namespace: string)

  /** A port whose service port is set to its instance port, as headless services need. */
  function HeadlessPort(p: Port): (q: Port)
    ensures q.servicePort == q.instancePort == p.instancePort
    ensures q.(servicePort := p.servicePort) == p
  {
    p.(servicePort := p.instancePort)
  }
}
