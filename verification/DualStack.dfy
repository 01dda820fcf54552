/**
 `pcp.NAT`: one client per address family. IPv4 and IPv6 run in parallel in the source;
 they share no state, so the order in which they are written here does not matter.
 */
module DualStack {
  import opened Basics
  import opened MapRules
  import opened Wire
  import opened Errors
  import opened Client
  import Epoch

  // ---------------------------------------------------------------- what a call does

  /** A client with the table of the server it talks to. */
  datatype Side = Side(client: ClientState, table: Table)

  datatype NatState = NatState(v4: Option<Side>, v6: Option<Side>, pinhole: Option<Err>)

  predicate Usable(n: NatState) {
    n.v4.Some? || n.v6.Some?
  }

  /** What the world decides for each client call that one call on the NAT can make. */
  datatype Worlds = Worlds(
    v4: World, v6: World, rollback: World, plainAdd: Result<uint16, Err>, plainDelete: Option<Err>)

  datatype Added = Added(state: NatState, result: Result<uint16, Err>)
  datatype Removed = Removed(state: NatState, error: Option<Err>)
  datatype Health = Healthy(epoch: uint32, restarted: bool) | Unreachable(error: Err)
  datatype Checked = Checked(state: NatState, health: Health)

  function SideAdd(s: Side, protocol: string, port: int, lifetime: int, w: World): Called<MapResponse> {
    MapCall(s.client, s.table, AddArgs(protocol, port, lifetime), w)
  }

  function SideDelete(s: Side, protocol: string, port: int, w: World): Deleted {
    DeleteCall(s.client, s.table, protocol, port, w)
  }

  function PinholeError(e: Option<Err>): Option<Err> {
    if e.Some? then Some(Wrapped("pcp ipv6: ", e.value)) else None
  }

  function ErrorOf<T>(r: Result<T, Err>): Option<Err> {
    if r.Err? then Some(r.error) else None
  }

  function RollbackOutcome(e: Option<Err>): Err {
    if e.None? then Base(RolledBack) else Joined("", Base(LeftOpen), ": ", e.value)
  }

  function PortOf(r: Result<MapResponse, Err>): Result<uint16, Err> {
    if r.Err? then Err(Wrapped("add mapping: ", r.error)) else Ok(r.value.externalPort)
  }

  function NatAdd(n: NatState, protocol: string, port: int, lifetime: int, w: Worlds): Added
    requires Usable(n)
  {
    if n.v4.None? then
      var m := SideAdd(n.v6.value, protocol, port, lifetime, w.v6);
      Added(NatState(None, Some(Side(m.client, m.table)), PinholeError(ErrorOf(m.result))), PortOf(m.result))
    else
      var m4 := SideAdd(n.v4.value, protocol, port, lifetime, w.v4);
      var s4 := Some(Side(m4.client, m4.table));
      if n.v6.None? then Added(NatState(s4, None, None), PortOf(m4.result))
      else
        var m6 := SideAdd(n.v6.value, protocol, port, lifetime, w.v6);
        if m4.result.Err? && m6.result.Ok? then
          var d := SideDelete(Side(m6.client, m6.table), protocol, port, w.rollback);
          Added(NatState(s4, Some(Side(d.client, d.table)),
                         PinholeError(Some(RollbackOutcome(d.error)))), PortOf(m4.result))
        else
          Added(NatState(s4, Some(Side(m6.client, m6.table)), PinholeError(ErrorOf(m6.result))), PortOf(m4.result))
  }

  function DeleteError(e: Option<Err>): Option<Err> {
    if e.Some? then Some(Wrapped("delete mapping: ", e.value)) else None
  }

  function NatDelete(n: NatState, protocol: string, port: int, w: Worlds): Removed
    requires Usable(n)
  {
    var d6 := if n.v6.Some? then SideDelete(n.v6.value, protocol, port, w.v6) else Deleted(NO_CLIENT, map[], None);
    var s6 := if n.v6.Some? then Some(Side(d6.client, d6.table)) else None;
    if n.v4.None? then Removed(NatState(None, s6, PinholeError(d6.error)), DeleteError(d6.error))
    else
      var d4 := SideDelete(n.v4.value, protocol, port, w.v4);
      Removed(NatState(Some(Side(d4.client, d4.table)), s6, PinholeError(d6.error)), DeleteError(d4.error))
  }

  const NO_CLIENT := ClientState(false, NoAddr, Epoch.FRESH, NoAddr, map[], [])

  /** An announce and, if it was answered, the reading of the restart flag. */
  datatype Probed = Probed(side: Side, result: Result<uint32, Err>, restarted: bool)

  function Probe(s: Side, w: World): Probed {
    var a := AnnounceCall(s.client, s.table, w);
    if a.result.Err? then Probed(Side(a.client, a.table), a.result, false)
    else Probed(Side(a.client.(tracker := Epoch.Step(a.client.tracker, Epoch.Read)), a.table),
                a.result, a.client.tracker.lost)
  }

  function NatHealth(n: NatState, w: Worlds): Checked {
    if !Usable(n) then Checked(n, Unreachable(Base(NoNATFound)))
    else if n.v4.None? || n.v6.None? then
      var p := if n.v4.Some? then Probe(n.v4.value, w.v4) else Probe(n.v6.value, w.v6);
      var n' := if n.v4.Some? then n.(v4 := Some(p.side)) else n.(v6 := Some(p.side));
      Checked(n', if p.result.Err? then Unreachable(Wrapped("announce: ", p.result.error))
                  else Healthy(p.result.value, p.restarted))
    else
      var p4, p6 := Probe(n.v4.value, w.v4), Probe(n.v6.value, w.v6);
      Checked(n.(v4 := Some(p4.side), v6 := Some(p6.side)),
              if p4.result.Err? && p6.result.Err?
              then Unreachable(Joined("announce: ", p4.result.error, "; pcp ipv6: ", p6.result.error))
              else if p4.result.Err? then Healthy(p6.result.value, p6.restarted)
              else Healthy(p4.result.value, p4.restarted || p6.restarted))
  }

  datatype Located = Located(state: NatState, result: Result<Addr, Err>)

  function NatExternal(n: NatState, clock: nat, create: World, remove: World): Located {
    if !Usable(n) then Located(n, Err(Base(NoNATFound)))
    else
      var s := if n.v4.Some? then n.v4.value else n.v6.value;
      var e := ExternalCall(s.client, s.table, clock, create, remove);
      var s' := Some(Side(e.client, e.table));
      Located(if n.v4.Some? then n.(v4 := s') else n.(v6 := s'), e.result)
  }

  // ---------------------------------------------------------------- the object

  class NAT {
    const client: Client?
    const client6: Client?
    var pinholeErr: Option<Err>

    constructor (client: Client?, client6: Client?)
      ensures this.client == client && this.client6 == client6 && pinholeErr == None
    {
      this.client, this.client6, pinholeErr := client, client6, None;
    }

    /** The two stacks never share a client. */
    predicate Valid() {
      client != null ==> client != client6
    }

    /** Discovery leaves at least one client. */
    predicate HasClient() {
      client != null || client6 != null
    }

    /** A stack that is not there is not touched. */
    ghost function Repr(server: Server, server6: Server): set<object> {
      {this} + (if client != null then {client, server} else {})
      + (if client6 != null then {client6, server6} else {})
    }

    ghost function State(server: Server, server6: Server): (n: NatState)
      requires Valid()
      reads Repr(server, server6)
      ensures Usable(n) <==> HasClient()
    {
      NatState(if client == null then None else Some(Side(client.State(), server.table)),
               if client6 == null then None else Some(Side(client6.State(), server6.table)), pinholeErr)
    }

    method SetPinholeErr(e: Option<Err>)
      modifies this`pinholeErr
      ensures pinholeErr == PinholeError(e)
    {
      pinholeErr := if e.Some? then Some(Wrapped("pcp ipv6: ", e.value)) else None;
    }

    method AddPortMapping(server: Server, server6: Server, protocol: string, port: int, lifetime: int, w: Worlds)
      returns (r: Result<uint16, Err>)
      requires Valid() && HasClient() && server != server6
      modifies Repr(server, server6)
      ensures var a := NatAdd(old(State(server, server6)), protocol, port, lifetime, w);
              State(server, server6) == a.state && r == a.result
    {
      var args := AddArgs(protocol, port, lifetime);
      if client == null {
        var resp := client6.AddPortMappingWithHint(server6, args, w.v6);
        SetPinholeErr(ErrorOf(resp));
        return if resp.Err? then Err(Wrapped("add mapping: ", resp.error)) else Ok(resp.value.externalPort);
      }

      var err6: Option<Err> := None;
      if client6 != null {
        var resp6 := client6.AddPortMappingWithHint(server6, args, w.v6);
        err6 := ErrorOf(resp6);
      }
      var resp := client.AddPortMappingWithHint(server, args, w.v4);
      if resp.Err? {
        if err6.None? && client6 != null {
          err6 := Some(Base(RolledBack));
          var rollbackErr := client6.DeletePortMapping(server6, protocol, port, w.rollback);
          if rollbackErr.Some? {
            err6 := Some(Joined("", Base(LeftOpen), ": ", rollbackErr.value));
          }
        }
        SetPinholeErr(err6);
        return Err(Wrapped("add mapping: ", resp.error));
      }
      SetPinholeErr(err6);
      return Ok(resp.value.externalPort);
    }

    method DeletePortMapping(server: Server, server6: Server, protocol: string, port: int, w: Worlds)
      returns (r: Option<Err>)
      requires Valid() && HasClient() && server != server6
      modifies Repr(server, server6)
      ensures var d := NatDelete(old(State(server, server6)), protocol, port, w);
              State(server, server6) == d.state && r == d.error
    {
      if client == null {
        var err := client6.DeletePortMapping(server6, protocol, port, w.v6);
        SetPinholeErr(err);
        return if err.Some? then Some(Wrapped("delete mapping: ", err.value)) else None;
      }
      var err6: Option<Err> := None;
      if client6 != null {
        err6 := client6.DeletePortMapping(server6, protocol, port, w.v6);
      }
      var err := client.DeletePortMapping(server, protocol, port, w.v4);
      SetPinholeErr(err6);
      return if err.Some? then Some(Wrapped("delete mapping: ", err.value)) else None;
    }

    method CheckServerHealth(server: Server, server6: Server, w: Worlds) returns (h: Health)
      requires Valid() && server != server6
      modifies Repr(server, server6)
      ensures var c := NatHealth(old(State(server, server6)), w);
              State(server, server6) == c.state && h == c.health
    {
      if client == null && client6 == null {
        return Unreachable(Base(NoNATFound));
      }
      var err6: Result<uint32, Err> := Ok(0);
      var dualStack := client != null && client6 != null;
      if dualStack {
        err6 := client6.Announce(server6, w.v6);
      }
      var epoch;
      var restarted := false;
      if client != null {
        epoch := client.Announce(server, w.v4);
        if epoch.Ok? {
          restarted := client.EpochStateLost();
        }
      } else {
        epoch := client6.Announce(server6, w.v6);
        if epoch.Ok? {
          restarted := client6.EpochStateLost();
        }
      }
      if !dualStack {
        return if epoch.Err? then Unreachable(Wrapped("announce: ", epoch.error)) else Healthy(epoch.value, restarted);
      }
      var restarted6 := false;
      if err6.Ok? {
        restarted6 := client6.EpochStateLost();
      }
      if epoch.Err? && err6.Err? {
        return Unreachable(Joined("announce: ", epoch.error, "; pcp ipv6: ", err6.error));
      } else if epoch.Err? {
        return Healthy(err6.value, restarted6);
      }
      return Healthy(epoch.value, restarted || restarted6);
    }

    method GetExternalAddress(server: Server, server6: Server, clock: nat, create: World, remove: World)
      returns (r: Result<Addr, Err>)
      requires Valid() && server != server6
      modifies Repr(server, server6)
      ensures var e := NatExternal(old(State(server, server6)), clock, create, remove);
              State(server, server6) == e.state && r == e.result
    {
      if client != null {
        r := client.GetExternalAddress(server, clock, create, remove);
      } else if client6 != null {
        r := client6.GetExternalAddress(server6, clock, create, remove);
      } else {
        r := Err(Base(NoNATFound));
      }
    }
  }
}
