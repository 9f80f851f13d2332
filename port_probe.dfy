/** Port allocation for a new worker: draw a port in [40000, 40200] at random
    and draw again while the loopback probe finds it in use. */
module PortProbe {
  import opened Records

  /** The loopback connect test of `is_port_in_use`, abstracted: `probe` is
      the set of ports on which a connection would be accepted. */
  predicate PortInUse(probe: set<int>, port: int)
  {
    port in probe
  }

  /** `port` comes from some draw, and the probe found every earlier draw's
      port in use. */
  predicate FirstFreeDraw(probe: set<int>, draws: seq<Draw>, port: int)
  {
    exists i :: 0 <= i < |draws| && port == PortBase + draws[i] &&
      forall j :: 0 <= j < i ==> PortInUse(probe, PortBase + draws[j])
  }

  /** Every port of `ports` is one the probe reports as in use. */
  predicate PortsHeld(probe: set<int>, ports: map<string, int>)
  {
    forall c :: c in ports ==> PortInUse(probe, ports[c])
  }

  /** Some draw of the stream yields a port the probe finds free. */
  predicate SomeDrawFree(probe: set<int>, draws: seq<Draw>)
  {
    exists i :: 0 <= i < |draws| && !PortInUse(probe, PortBase + draws[i])
  }

  /** The draw loop of `add`. The first draw gives the first candidate, each
      further draw replaces a busy candidate. The result is the first free
      candidate, or None when every draw was busy. */
  method AllocatePort(probe: set<int>, draws: seq<Draw>) returns (port: Option<int>)
    ensures port.Some? <==> SomeDrawFree(probe, draws)
    ensures port.Some? ==> PortBase <= port.value <= PortBase + PortSpan
    ensures port.Some? ==> !PortInUse(probe, port.value)
    ensures port.Some? ==> FirstFreeDraw(probe, draws, port.value)
  {
    if |draws| == 0 {
      return None;
    }
    var i := 0;
    var candidate := PortBase + draws[0];
    while PortInUse(probe, candidate)
      invariant 0 <= i < |draws|
      invariant candidate == PortBase + draws[i]
      invariant forall j :: 0 <= j < i ==> PortInUse(probe, PortBase + draws[j])
      decreases |draws| - i
    {
      i := i + 1;
      if i == |draws| {
        return None;
      }
      candidate := PortBase + draws[i];
    }
    port := Some(candidate);
  }
}
