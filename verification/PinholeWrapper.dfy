/**
 `natWithPCPIPv6`: the same dual-stack idea built a second time, as a wrapper that adds
 PCPv6 pinholes to whatever IPv4 gateway discovery found.
 */
module PinholeWrapper {
  import opened Basics
  import opened Errors
  import opened Wire
  import opened Client
  import opened DualStack

  /** The IPv4 gateway underneath: a v4-only pcp.NAT, or one without a health check. */
  datatype V4State = PcpV4(pcp: NatState) | PlainV4

  datatype WrapState = WrapState(v4: V4State, v6: Side, pinhole: Option<Err>)

  predicate Wrappable(x: WrapState) {
    x.v4.PcpV4? ==> x.v4.pcp.v4.Some? && x.v4.pcp.v6.None?
  }

  datatype WrapAdded = WrapAdded(state: WrapState, result: Result<uint16, Err>)
  datatype WrapRemoved = WrapRemoved(state: WrapState, error: Option<Err>)
  datatype WrapChecked = WrapChecked(state: WrapState, health: Health)

  function WrapAdd(x: WrapState, protocol: string, port: int, lifetime: int, w: Worlds): WrapAdded
    requires Wrappable(x)
  {
    var m6 := SideAdd(x.v6, protocol, port, lifetime, w.v6);
    var s6 := Side(m6.client, m6.table);
    var inner := if x.v4.PcpV4? then NatAdd(x.v4.pcp, protocol, port, lifetime, w)
                 else Added(NatState(None, None, None), w.plainAdd);
    var v4 := if x.v4.PcpV4? then PcpV4(inner.state) else PlainV4;
    if inner.result.Err? && m6.result.Ok? then
      var d := SideDelete(s6, protocol, port, w.rollback);
      WrapAdded(WrapState(v4, Side(d.client, d.table), PinholeError(Some(RollbackOutcome(d.error)))), inner.result)
    else
      WrapAdded(WrapState(v4, s6, PinholeError(ErrorOf(m6.result))), inner.result)
  }

  function WrapDelete(x: WrapState, protocol: string, port: int, w: Worlds): WrapRemoved
    requires Wrappable(x)
  {
    var d6 := SideDelete(x.v6, protocol, port, w.v6);
    var s6 := Side(d6.client, d6.table);
    match x.v4
    case PcpV4(pcp) =>
      var inner := NatDelete(pcp, protocol, port, w);
      WrapRemoved(WrapState(PcpV4(inner.state), s6, PinholeError(d6.error)), inner.error)
    case PlainV4 => WrapRemoved(WrapState(PlainV4, s6, PinholeError(d6.error)), w.plainDelete)
  }

  function WrapHealth(x: WrapState, w: Worlds): WrapChecked
    requires Wrappable(x)
  {
    var p6 := Probe(x.v6, w.v6);
    match x.v4
    case PlainV4 =>
      WrapChecked(x.(v6 := p6.side),
                  if p6.result.Err? then Unreachable(Wrapped("pcp ipv6: ", p6.result.error))
                  else Healthy(p6.result.value, p6.restarted))
    case PcpV4(pcp) =>
      var inner := NatHealth(pcp, w);
      WrapChecked(WrapState(PcpV4(inner.state), p6.side, x.pinhole),
                  match inner.health
                  case Unreachable(e) =>
                    if p6.result.Err? then Unreachable(Joined("", e, "; ", Wrapped("pcp ipv6: ", p6.result.error)))
                    else Healthy(p6.result.value, p6.restarted)
                  case Healthy(epoch, restarted) => Healthy(epoch, restarted || p6.restarted))
  }

  // ---------------------------------------------------------------- the object

  class NatWithPCPIPv6 {
    const inner: NAT?      // null stands for a gateway that is no pcp.NAT
    const pcp6: Client
    var pinholeErr: Option<Err>

    constructor (inner: NAT?, pcp6: Client)
      ensures this.inner == inner && this.pcp6 == pcp6 && pinholeErr == None
    {
      this.inner, this.pcp6, pinholeErr := inner, pcp6, None;
    }

    predicate Valid() {
      inner != null ==> inner.client != null && inner.client6 == null && inner.client != pcp6
    }

    ghost function Repr(server: Server, server6: Server): set<object> {
      {this, pcp6, server6, server} + (if inner != null then inner.Repr(server, server6) else {})
    }

    ghost function State(server: Server, server6: Server): (x: WrapState)
      requires Valid()
      reads Repr(server, server6)
      ensures Wrappable(x)
    {
      WrapState(if inner == null then PlainV4 else PcpV4(inner.State(server, server6)),
                Side(pcp6.State(), server6.table), pinholeErr)
    }

    method SetIPv6PinholeError(e: Option<Err>)
      modifies this`pinholeErr
      ensures pinholeErr == PinholeError(e)
    {
      pinholeErr := if e.Some? then Some(Wrapped("pcp ipv6: ", e.value)) else None;
    }

    method AddPortMapping(server: Server, server6: Server, protocol: string, port: int, lifetime: int, w: Worlds)
      returns (r: Result<uint16, Err>)
      requires Valid() && server != server6
      modifies Repr(server, server6)
      ensures var a := WrapAdd(old(State(server, server6)), protocol, port, lifetime, w);
              State(server, server6) == a.state && r == a.result
    {
      var resp6 := pcp6.AddPortMappingWithHint(server6, AddArgs(protocol, port, lifetime), w.v6);
      var pcp6Err := ErrorOf(resp6);
      if inner != null {
        r := inner.AddPortMapping(server, server6, protocol, port, lifetime, w);
      } else {
        r := w.plainAdd;
      }
      if r.Err? && pcp6Err.None? {
        pcp6Err := Some(Base(RolledBack));
        var rollbackErr := pcp6.DeletePortMapping(server6, protocol, port, w.rollback);
        if rollbackErr.Some? {
          pcp6Err := Some(Joined("", Base(LeftOpen), ": ", rollbackErr.value));
        }
      }
      SetIPv6PinholeError(pcp6Err);
    }

    method DeletePortMapping(server: Server, server6: Server, protocol: string, port: int, w: Worlds)
      returns (r: Option<Err>)
      requires Valid() && server != server6
      modifies Repr(server, server6)
      ensures var d := WrapDelete(old(State(server, server6)), protocol, port, w);
              State(server, server6) == d.state && r == d.error
    {
      var pcp6Err := pcp6.DeletePortMapping(server6, protocol, port, w.v6);
      if inner != null {
        r := inner.DeletePortMapping(server, server6, protocol, port, w);
      } else {
        r := w.plainDelete;
      }
      SetIPv6PinholeError(pcp6Err);
    }

    method CheckServerHealth(server: Server, server6: Server, w: Worlds) returns (h: Health)
      requires Valid() && server != server6
      modifies Repr(server, server6)
      ensures var c := WrapHealth(old(State(server, server6)), w);
              State(server, server6) == c.state && h == c.health
    {
      var epoch6 := pcp6.Announce(server6, w.v6);
      if inner != null {
        h := inner.CheckServerHealth(server, server6, w);
      }
      var restarted6 := false;
      if epoch6.Ok? {
        restarted6 := pcp6.EpochStateLost();
      }
      if inner == null {
        return if epoch6.Err? then Unreachable(Wrapped("pcp ipv6: ", epoch6.error))
               else Healthy(epoch6.value, restarted6);
      }
      if h.Unreachable? && epoch6.Err? {
        h := Unreachable(Joined("", h.error, "; ", Wrapped("pcp ipv6: ", epoch6.error)));
      } else if h.Unreachable? {
        h := Healthy(epoch6.value, restarted6);
      } else {
        h := Healthy(h.epoch, h.restarted || restarted6);
      }
    }
  }
}
