/**
 * The Kubernetes echo instance (`pkg/test/framework/components/echo/kube/instance.go`):
 * ClusterIP validation when the instance is created, the address it reports,
 * fan-out of one logical call to every ready workload with merging of the
 * results, and the restart success criterion.
 *
 * Kubernetes calls, the workload manager and the echo RPC are outside the
 * model: their outcomes arrive as parameters.
 */
module KubeInstance {
  import opened Base
  import Echo

  /** `kubeCore.ClusterIPNone`. */
  const ClusterIPNone := "None"

  const SchemeGRPC := "grpc"
  const SchemeXDS := "xds"

  datatype Error =
      /** An error produced by code this model does not see (Kubernetes client, echo RPC). */
    | Foreign(message: string)
      /** "invalid ClusterIP %s for non-headless service %s/%s". */
    | InvalidClusterIP(clusterIP: string, namespace: string, service: string)
      /** A multierror holding one error per failed workload, in workload order. */
    | Multi(errors: seq<Error>)
      /** "restart failed to get initial workloads: %v". */
    | RestartInitial(cause: Error)
      /** "failed waiting for restarted pods for echo %s/%s: %v". */
    | RestartWait(namespace: string, service: string, cause: Error)
      /** "failed restarting echo %s/%s: number of pods %d does not match original %d". */
    | RestartCountMismatch(namespace: string, service: string, ready: nat, original: nat)
      /** What retrying returns when no attempt succeeded before the timeout: the attempt count and the last error. */
    | Timeout(attempts: nat, last: Option<Error>)

  /** One response of the echo server. */
  datatype Response = Response(cluster: string, code: string, body: string)

  /** One ready workload (pod or VM) of the instance. */
  datatype Workload = Workload(cluster: string, address: string)

  /** What `Address()` may report for a service that is headless or not. */
  predicate ValidAddress(clusterIP: string, headless: bool)
  {
    clusterIP != ClusterIPNone && (clusterIP == "" ==> headless)
  }

  /**
   * The address an instance keeps for a service whose spec reports `clusterIP`,
   * or the error `newInstance` returns.
   */
  function ClusterIPFor(cfg: Echo.Config, clusterIP: string): (r: Result<string, Error>)
    ensures r.Err? <==> (clusterIP == ClusterIPNone || clusterIP == "") && !cfg.headless
    ensures r.Err? ==> r.error == InvalidClusterIP(clusterIP, cfg.namespace, cfg.service)
    ensures r.Ok? ==> ValidAddress(r.value, cfg.headless)
    ensures r.Ok? && clusterIP != ClusterIPNone && clusterIP != "" ==> r.value == clusterIP
    ensures r.Ok? && (clusterIP == ClusterIPNone || clusterIP == "") ==> r.value == ""
  {
    if clusterIP == ClusterIPNone || clusterIP == "" then
      if !cfg.headless then Err(InvalidClusterIP(clusterIP, cfg.namespace, cfg.service)) else Ok("")
    else Ok(clusterIP)
  }

  /** Whether a call goes over gRPC: by scheme, by port name, or by the protocol of its port. */
  predicate IsGRPCCall(opts: Echo.CallOptions)
  {
    opts.scheme == SchemeGRPC || opts.portName == "grpc" || (opts.port.Some? && opts.port.value.protocol == Echo.GRPC)
  }

  /** The call options actually forwarded: gRPC calls of a proxyless gRPC instance use the XDS resolver. */
  function EffectiveOptions(cfg: Echo.Config, opts: Echo.CallOptions): (o: Echo.CallOptions)
    ensures cfg.proxylessGRPC && IsGRPCCall(opts) ==> o.scheme == SchemeXDS
    ensures o.(scheme := opts.scheme) == opts
    ensures o != opts ==> cfg.proxylessGRPC && IsGRPCCall(opts) && opts.scheme != SchemeXDS
  {
    if cfg.proxylessGRPC && IsGRPCCall(opts) then opts.(scheme := SchemeXDS) else opts
  }

  /** The service name passed to the echo RPC for a workload: "%s (cluster=%s)". */
  function ForwardName(service: string, cluster: string): string
  {
    service + " (cluster=" + cluster + ")"
  }

  /** What the echo RPC returns for each workload, in workload order. */
  function Outcomes(cfg: Echo.Config, opts: Echo.CallOptions, ws: seq<Workload>,
                    forward: (string, Workload, Echo.CallOptions) -> Result<seq<Response>, Error>)
    : (outs: seq<Result<seq<Response>, Error>>)
    ensures |outs| == |ws|
    ensures forall i :: 0 <= i < |ws| ==> outs[i] == forward(ForwardName(cfg.service, ws[i].cluster), ws[i], opts)
  {
    seq(|ws|, i requires 0 <= i < |ws| => forward(ForwardName(cfg.service, ws[i].cluster), ws[i], opts))
  }

  /** The responses of the successful outcomes, concatenated in order. */
  function Successes(outs: seq<Result<seq<Response>, Error>>): seq<Response>
  {
    if outs == [] then []
    else Successes(outs[..|outs| - 1]) + (if outs[|outs| - 1].Ok? then outs[|outs| - 1].value else [])
  }

  /** The errors of the failed outcomes, in order. */
  function Failures(outs: seq<Result<seq<Response>, Error>>): seq<Error>
  {
    if outs == [] then []
    else Failures(outs[..|outs| - 1]) + (if outs[|outs| - 1].Err? then [outs[|outs| - 1].error] else [])
  }

  /** The merged result of a fan-out: every response when nothing failed, otherwise every error and no response. */
  function Merge(outs: seq<Result<seq<Response>, Error>>): Result<seq<Response>, Error>
  {
    if Failures(outs) == [] then Ok(Successes(outs)) else Err(Multi(Failures(outs)))
  }

  /**
   * A restart attempt of the echo service `cfg` succeeds exactly when as many
   * workloads are ready as before the restart.
   */
  function PollCheck(cfg: Echo.Config, original: nat, poll: Result<nat, Error>): (r: Option<Error>)
    ensures r.None? <==> poll == Ok(original)
    ensures poll.Err? ==> r == Some(RestartWait(cfg.namespace, cfg.service, poll.error))
    ensures poll.Ok? && poll.value != original ==>
              r == Some(RestartCountMismatch(cfg.namespace, cfg.service, poll.value, original))
  {
    match poll
    case Err(e) => Some(RestartWait(cfg.namespace, cfg.service, e))
    case Ok(n) => if n != original then Some(RestartCountMismatch(cfg.namespace, cfg.service, n, original)) else None
  }

  /** A Kubernetes-backed echo instance. */
  class Instance {
    const cfg: Echo.Config
    var clusterIP: string

    /** The reported address is never "None", and is empty only for a headless service. */
    ghost predicate Valid()
      reads this
    {
      ValidAddress(clusterIP, cfg.headless)
    }

    /** An instance is built with an address already normalised by `ClusterIPFor`. */
    constructor (cfg: Echo.Config, clusterIP: string)
      requires ValidAddress(clusterIP, cfg.headless)
      ensures this.cfg == cfg && this.clusterIP == clusterIP
      ensures Valid()
    {
      this.cfg := cfg;
      this.clusterIP := clusterIP;
    }

    /** The service address; "" only when the service is headless. */
    function Address(): (a: string)
      reads this
      requires Valid()
      ensures a == "" ==> cfg.headless
      ensures a != ClusterIPNone
    {
      clusterIP
    }

    /**
     * The first ready workload. A nil error from `Workloads()` guarantees at
     * least one workload; the requires states that guarantee.
     */
    function FirstClient(ready: Result<seq<Workload>, Error>): (r: Result<Workload, Error>)
      requires ready.Ok? ==> |ready.value| > 0
      ensures r.Err? <==> ready.Err?
      ensures r.Err? ==> r.error == ready.error
      ensures r.Ok? ==> r.value == ready.value[0] && r.value in ready.value
    {
      match ready
      case Err(e) => Err(e)
      case Ok(ws) => Ok(ws[0])
    }

    /**
     * Forwards one call from every ready workload and merges the results.
     * `ready` is what the workload manager reports, `forward` the echo RPC.
     */
    method AggregateResponses(opts: Echo.CallOptions, ready: Result<seq<Workload>, Error>,
                              forward: (string, Workload, Echo.CallOptions) -> Result<seq<Response>, Error>)
      returns (r: Result<seq<Response>, Error>)
      ensures ready.Err? ==> r == Err(ready.error)
      ensures ready.Ok? ==> r == Merge(Outcomes(cfg, EffectiveOptions(cfg, opts), ready.value, forward))
    {
      var o := opts;
      if cfg.proxylessGRPC && (o.scheme == SchemeGRPC || o.portName == "grpc" || (o.port.Some? && o.port.value.protocol == Echo.GRPC)) {
        o := o.(scheme := SchemeXDS);
      }
      if ready.Err? {
        return Err(ready.error);
      }
      var workloads := ready.value;
      ghost var outs := Outcomes(cfg, o, workloads, forward);
      var resps: seq<Response> := [];
      var aggErr: seq<Error> := [];
      var i := 0;
      while i < |workloads|
        invariant 0 <= i <= |workloads|
        invariant resps == Successes(outs[..i])
        invariant aggErr == Failures(outs[..i])
      {
        var w := workloads[i];
        var out := forward(ForwardName(cfg.service, w.cluster), w, o);
        assert outs[..i + 1][..i] == outs[..i];
        if out.Err? {
          aggErr := aggErr + [out.error];
        } else {
          resps := resps + out.value;
        }
        i := i + 1;
      }
      assert outs[..i] == outs;
      if aggErr != [] {
        return Err(Multi(aggErr));
      }
      return Ok(resps);
    }

    /** `Call` is the fan-out of `AggregateResponses`. */
    method Call(opts: Echo.CallOptions, ready: Result<seq<Workload>, Error>,
                forward: (string, Workload, Echo.CallOptions) -> Result<seq<Response>, Error>)
      returns (r: Result<seq<Response>, Error>)
      ensures ready.Err? ==> r == Err(ready.error)
      ensures ready.Ok? ==> r == Merge(Outcomes(cfg, EffectiveOptions(cfg, opts), ready.value, forward))
    {
      r := AggregateResponses(opts, ready, forward);
    }

    /**
     * Restarts the instance's workloads. `initial` is the ready-workload count
     * before the restart (or the error waiting for it), `restarted` the error of
     * the deployment restart if any, and `polls` the outcomes of the attempts
     * made before the readiness timeout expires.
     */
    method Restart(initial: Result<nat, Error>, restarted: Option<Error>, polls: seq<Result<nat, Error>>)
      returns (err: Option<Error>)
      ensures initial.Err? ==> err == Some(RestartInitial(initial.error))
      ensures initial.Ok? && restarted.Some? ==> err == restarted
      ensures initial.Ok? && restarted.None? ==>
                (err.None? <==> exists i :: 0 <= i < |polls| && polls[i] == Ok(initial.value))
      ensures initial.Ok? && restarted.None? && err.Some? ==>
                err == Some(Timeout(|polls|, if polls == [] then None else PollCheck(cfg, initial.value, polls[|polls| - 1])))
    {
      if initial.Err? {
        return Some(RestartInitial(initial.error));
      }
      var original := initial.value;
      if restarted.Some? {
        return restarted;
      }
      var last: Option<Error> := None;
      var i := 0;
      while i < |polls|
        invariant 0 <= i <= |polls|
        invariant forall j :: 0 <= j < i ==> polls[j] != Ok(original)
        invariant last == if i == 0 then None else PollCheck(cfg, original, polls[i - 1])
      {
        var e := PollCheck(cfg, original, polls[i]);
        if e.None? {
          return None;
        }
        last := e;
        i := i + 1;
      }
      return Some(Timeout(|polls|, last));
    }
  }

  /**
   * Creates an instance of `cfg`. `service` is the ClusterIP of the service
   * Kubernetes reports, or the first error of deploying, creating the
   * workload manager or reading the service.
   */
  method NewInstance(cfg: Echo.Config, service: Result<string, Error>) returns (r: Result<Instance, Error>)
    ensures service.Err? ==> r == Err(service.error)
    ensures service.Ok? ==> (r.Ok? <==> ClusterIPFor(cfg, service.value).Ok?)
    ensures service.Ok? && r.Err? ==> r.error == ClusterIPFor(cfg, service.value).error
    ensures r.Ok? ==> fresh(r.value) && r.value.cfg == cfg && r.value.Valid()
    ensures r.Ok? ==> r.value.clusterIP == ClusterIPFor(cfg, service.value).value
  {
    if service.Err? {
      return Err(service.error);
    }
    var clusterIP := service.value;
    if clusterIP == ClusterIPNone || clusterIP == "" {
      if !cfg.headless {
        return Err(InvalidClusterIP(clusterIP, cfg.namespace, cfg.service));
      }
      clusterIP := "";
    }
    var c := new Instance(cfg, clusterIP);
    return Ok(c);
  }

  /** Merging succeeds exactly when every workload's call succeeded. */
  lemma {:induction false} MergeOkIffAllOk(outs: seq<Result<seq<Response>, Error>>)
    ensures Merge(outs).Ok? <==> forall i :: 0 <= i < |outs| ==> outs[i].Ok?
  {
    FailuresEmptyIffAllOk(outs);
  }

  lemma {:induction false} FailuresEmptyIffAllOk(outs: seq<Result<seq<Response>, Error>>)
    ensures Failures(outs) == [] <==> forall i :: 0 <= i < |outs| ==> outs[i].Ok?
  {
    if outs != [] {
      FailuresEmptyIffAllOk(outs[..|outs| - 1]);
    }
  }

  /** Successes and failures of consecutive workload groups come out in workload order. */
  lemma {:induction false} MergeDistributes(a: seq<Result<seq<Response>, Error>>, b: seq<Result<seq<Response>, Error>>)
    ensures Successes(a + b) == Successes(a) + Successes(b)
    ensures Failures(a + b) == Failures(a) + Failures(b)
  {
    if b != [] {
      assert (a + b)[..|a + b| - 1] == a + b[..|b| - 1];
      MergeDistributes(a, b[..|b| - 1]);
    } else {
      assert a + b == a;
    }
  }

  /** On success the merged responses are the concatenation of every workload's responses, in workload order. */
  lemma {:induction false} MergeConcatenates(outs: seq<Result<seq<Response>, Error>>, i: nat)
    requires i < |outs|
    requires forall j :: 0 <= j < |outs| ==> outs[j].Ok?
    ensures Merge(outs).Ok?
    ensures Merge(outs).value == Successes(outs[..i]) + outs[i].value + Successes(outs[i + 1..])
  {
    MergeOkIffAllOk(outs);
    assert outs == outs[..i] + [outs[i]] + outs[i + 1..];
    MergeDistributes(outs[..i] + [outs[i]], outs[i + 1..]);
    MergeDistributes(outs[..i], [outs[i]]);
    assert [outs[i]][..0] == [];
  }

  /** Every workload is tried: the aggregate error holds exactly the errors of the failed workloads. */
  lemma {:induction false} FailuresAreTheFailedCalls(outs: seq<Result<seq<Response>, Error>>, e: Error)
    ensures e in Failures(outs) <==> exists i :: 0 <= i < |outs| && outs[i] == Err(e)
  {
    if outs != [] {
      var init := outs[..|outs| - 1];
      FailuresAreTheFailedCalls(init, e);
      if e in Failures(init) {
        var i :| 0 <= i < |init| && init[i] == Err(e);
        assert outs[i] == Err(e);
      }
      if exists i :: 0 <= i < |outs| && outs[i] == Err(e) {
        var i :| 0 <= i < |outs| && outs[i] == Err(e);
        if i < |init| {
          assert init[i] == Err(e);
        }
      }
    }
  }
}
