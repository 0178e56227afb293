/**
 * Port-list transforms of the pilot test applications
 * (`tests/integration/pilot/common/apps.go`). They all read the shared,
 * package-level list of echo ports (`common.EchoPorts`), here an array the
 * methods receive and, having no modifies clause, cannot change.
 */
module PilotApps {
  import opened Echo

  /** The first port named `name`, or the zero port when none is. */
  method FindPortByName(echoPorts: array<Port>, name: string) returns (p: Port)
    ensures (exists i :: 0 <= i < echoPorts.Length && echoPorts[i].name == name) ==>
              exists i :: 0 <= i < echoPorts.Length && p == echoPorts[i] && p.name == name
                          && forall j :: 0 <= j < i ==> echoPorts[j].name != name
    ensures (forall i :: 0 <= i < echoPorts.Length ==> echoPorts[i].name != name) ==> p == ZeroPort
  {
    for i := 0 to echoPorts.Length
      invariant forall j :: 0 <= j < i ==> echoPorts[j].name != name
    {
      if echoPorts[i].name == name {
        return echoPorts[i];
      }
    }
    return ZeroPort;
  }

  /**
   * A port as a service entry declares it: ports whose name starts with "auto"
   * get the empty protocol, so that the protocol is sniffed.
   */
  function ServiceEntryPort(p: Port): (q: Port)
    ensures "auto" <= p.name ==> q.protocol == ""
    ensures !("auto" <= p.name) ==> q == p
    ensures q.(protocol := p.protocol) == p
  {
    if "auto" <= p.name then p.(protocol := "") else p
  }

  /** The service-entry form of every echo port, in order. */
  method ServiceEntryPorts(echoPorts: array<Port>) returns (res: seq<Port>)
    ensures |res| == echoPorts.Length
    ensures forall i :: 0 <= i < |res| ==> res[i] == ServiceEntryPort(echoPorts[i])
  {
    res := [];
    for i := 0 to echoPorts.Length
      invariant |res| == i
      invariant forall j :: 0 <= j < i ==> res[j] == ServiceEntryPort(echoPorts[j])
    {
      var p := echoPorts[i];
      if "auto" <= p.name {
        p := p.(protocol := "");
      }
      res := res + [p];
    }
  }

  /** The echo ports for a headless service, which cannot use a target port: each service port equals its instance port. */
  method HeadlessPorts(echoPorts: array<Port>) returns (headlessPorts: array<Port>)
    ensures fresh(headlessPorts)
    ensures headlessPorts.Length == echoPorts.Length
    ensures forall i :: 0 <= i < headlessPorts.Length ==>
              headlessPorts[i].servicePort == headlessPorts[i].instancePort
              && headlessPorts[i].(servicePort := echoPorts[i].servicePort) == echoPorts[i]
  {
    headlessPorts := new Port[echoPorts.Length](_ => ZeroPort);
    for i := 0 to echoPorts.Length
      invariant forall j :: 0 <= j < i ==> headlessPorts[j] == HeadlessPort(echoPorts[j])
    {
      var p := echoPorts[i];
      p := p.(servicePort := p.instancePort);
      headlessPorts[i] := p;
    }
  }
}
