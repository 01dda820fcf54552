/**
 Whole sequences of calls on the two dual-stack gateways: they cannot be told apart, and
 no restart that either stack noticed is lost or reported twice.
 */
module GatewayRuns {
  import opened Basics
  import opened MapRules
  import opened Wire
  import opened Errors
  import opened Client
  import opened CallResults
  import opened ClientProofs
  import opened DualStack
  import opened PinholeWrapper
  import Epoch

  /** `plain` is the answer of a gateway underneath the wrapper that is no pcp.NAT. */
  datatype Op =
    | Add(protocol: string, port: int, lifetime: int, w: Worlds)
    | Delete(protocol: string, port: int, w: Worlds)
    | CheckHealth(w: Worlds)
    | External(clock: nat, create: World, remove: World, plain: Result<Addr, Err>)
    | ReadPinhole

  /** What the caller sees of one call. */
  datatype Seen =
    | SeenPort(port: Result<uint16, Err>)
    | SeenDone(error: Option<Err>)
    | SeenHealth(health: Health)
    | SeenAddr(addr: Result<Addr, Err>)
    | SeenPinhole(pinhole: Option<Err>)

  datatype NatStep = NatStep(state: NatState, seen: Seen)
  datatype WrapStep = WrapStep(state: WrapState, seen: Seen)
  datatype NatRun = NatRun(state: NatState, seen: seq<Seen>)
  datatype WrapRun = WrapRun(state: WrapState, seen: seq<Seen>)

  predicate SameStacks(n: NatState, m: NatState) {
    n.v4.Some? == m.v4.Some? && n.v6.Some? == m.v6.Some?
  }

  function StepNat(n: NatState, op: Op): (r: NatStep)
    requires Usable(n)
    ensures SameStacks(n, r.state)
  {
    match op
    case Add(protocol, port, lifetime, w) =>
      var a := NatAdd(n, protocol, port, lifetime, w);
      NatStep(a.state, SeenPort(a.result))
    case Delete(protocol, port, w) =>
      var d := NatDelete(n, protocol, port, w);
      NatStep(d.state, SeenDone(d.error))
    case CheckHealth(w) =>
      var h := NatHealth(n, w);
      NatStep(h.state, SeenHealth(h.health))
    case External(clock, create, remove, _) =>
      var e := NatExternal(n, clock, create, remove);
      NatStep(e.state, SeenAddr(e.result))
    case ReadPinhole => NatStep(n, SeenPinhole(n.pinhole))
  }

  function StepWrap(x: WrapState, op: Op): (r: WrapStep)
    requires Wrappable(x)
    ensures Wrappable(r.state) && r.state.v4.PcpV4? == x.v4.PcpV4?
  {
    match op
    case Add(protocol, port, lifetime, w) =>
      var a := WrapAdd(x, protocol, port, lifetime, w);
      WrapStep(a.state, SeenPort(a.result))
    case Delete(protocol, port, w) =>
      var d := WrapDelete(x, protocol, port, w);
      WrapStep(d.state, SeenDone(d.error))
    case CheckHealth(w) =>
      var h := WrapHealth(x, w);
      WrapStep(h.state, SeenHealth(h.health))
    case External(clock, create, remove, plain) =>
      (match x.v4
       case PcpV4(pcp) =>
         var e := NatExternal(pcp, clock, create, remove);
         WrapStep(x.(v4 := PcpV4(e.state)), SeenAddr(e.result))
       case PlainV4 => WrapStep(x, SeenAddr(plain)))
    case ReadPinhole => WrapStep(x, SeenPinhole(x.pinhole))
  }

  function RunNat(n: NatState, ops: seq<Op>): (r: NatRun)
    requires Usable(n)
    ensures SameStacks(n, r.state)
    decreases |ops|
  {
    if ops == [] then NatRun(n, [])
    else
      var s := StepNat(n, ops[0]);
      var rest := RunNat(s.state, ops[1..]);
      NatRun(rest.state, [s.seen] + rest.seen)
  }

  function RunWrap(x: WrapState, ops: seq<Op>): (r: WrapRun)
    requires Wrappable(x)
    ensures Wrappable(r.state) && r.state.v4.PcpV4? == x.v4.PcpV4?
    decreases |ops|
  {
    if ops == [] then WrapRun(x, [])
    else
      var s := StepWrap(x, ops[0]);
      var rest := RunWrap(s.state, ops[1..]);
      WrapRun(rest.state, [s.seen] + rest.seen)
  }

  /** What the caller sees of a call is what that call returns. */
  lemma CallsAreSeen(n: NatState, x: WrapState, op: Op)
    requires Usable(n) && Wrappable(x)
    ensures op.Add? ==>
              && StepNat(n, op).seen == SeenPort(NatAdd(n, op.protocol, op.port, op.lifetime, op.w).result)
              && StepWrap(x, op).seen == SeenPort(WrapAdd(x, op.protocol, op.port, op.lifetime, op.w).result)
    ensures op.Delete? ==>
              && StepNat(n, op).seen == SeenDone(NatDelete(n, op.protocol, op.port, op.w).error)
              && StepWrap(x, op).seen == SeenDone(WrapDelete(x, op.protocol, op.port, op.w).error)
    ensures op.CheckHealth? ==>
              && StepNat(n, op).seen == SeenHealth(NatHealth(n, op.w).health)
              && StepWrap(x, op).seen == SeenHealth(WrapHealth(x, op.w).health)
    ensures op.External? ==>
              && StepNat(n, op).seen == SeenAddr(NatExternal(n, op.clock, op.create, op.remove).result)
              && (x.v4.PcpV4? ==>
                    StepWrap(x, op).seen == SeenAddr(NatExternal(x.v4.pcp, op.clock, op.create, op.remove).result))
              && (x.v4.PlainV4? ==> StepWrap(x, op) == WrapStep(x, SeenAddr(op.plain)))
    ensures op.ReadPinhole? ==>
              && StepNat(n, op) == NatStep(n, SeenPinhole(n.pinhole))
              && StepWrap(x, op) == WrapStep(x, SeenPinhole(x.pinhole))
  {
  }

  /** A run is its calls one after the other, each in the state the ones before it left. */
  lemma {:induction false} RunIsItsCalls(n: NatState, x: WrapState, ops: seq<Op>, i: nat)
    requires Usable(n) && Wrappable(x) && i < |ops|
    ensures |RunNat(n, ops).seen| == |RunWrap(x, ops).seen| == |ops|
    ensures RunNat(n, ops).seen[i] == StepNat(RunNat(n, ops[..i]).state, ops[i]).seen
    ensures RunWrap(x, ops).seen[i] == StepWrap(RunWrap(x, ops[..i]).state, ops[i]).seen
    decreases |ops|
  {
    var n1, x1 := StepNat(n, ops[0]).state, StepWrap(x, ops[0]).state;
    if i > 0 {
      RunIsItsCalls(n1, x1, ops[1..], i - 1);
      assert ops[..i][0] == ops[0] && ops[..i][1..] == ops[1..][..i-1];
    } else if |ops| > 1 {
      RunIsItsCalls(n1, x1, ops[1..], 0);
    }
  }

  // ---------------------------------------------------------------- equivalence

  /** The same clients, servers and recorded pinhole error, held in different objects. */
  predicate Alike(n: NatState, x: WrapState) {
    && n.v4.Some? && n.v6.Some? && Wrappable(x) && x.v4.PcpV4?
    && n.v4 == x.v4.pcp.v4 && n.v6.value == x.v6 && n.pinhole == x.pinhole
  }

  /** Equal, or errors with equal text and equal causes. */
  predicate Indistinguishable(s: Seen, t: Seen) {
    s == t || (s.SeenHealth? && t.SeenHealth? && SameFailure(s.health, t.health))
  }

  predicate SameFailure(g: Health, h: Health) {
    && g.Unreachable? && h.Unreachable?
    && Text(g.error) == Text(h.error) && Causes(g.error) == Causes(h.error)
  }

  lemma SameText(a: Err, b: Err)
    ensures var e := Joined("announce: ", a, "; pcp ipv6: ", b);
            var f := Joined("", Wrapped("announce: ", a), "; ", Wrapped("pcp ipv6: ", b));
            Text(e) == Text(f) && Causes(e) == Causes(f)
  {
    var f := Joined("", Wrapped("announce: ", a), "; ", Wrapped("pcp ipv6: ", b));
    assert Letters("; pcp ipv6: ") == Letters("; ") + Letters("pcp ipv6: ");
    assert Letters("") == [];
    assert Text(Wrapped("announce: ", a)) == Letters("announce: ") + Text(a);
    assert Text(Wrapped("pcp ipv6: ", b)) == Letters("pcp ipv6: ") + Text(b);
    assert Text(f) == Letters("announce: ") + Text(a) + Letters("; ") + (Letters("pcp ipv6: ") + Text(b));
  }

  lemma StepsAreAlike(n: NatState, x: WrapState, op: Op)
    requires Alike(n, x)
    ensures Alike(StepNat(n, op).state, StepWrap(x, op).state)
    ensures Indistinguishable(StepNat(n, op).seen, StepWrap(x, op).seen)
  {
    if op.CheckHealth? {
      var p4, p6 := Probe(n.v4.value, op.w.v4), Probe(n.v6.value, op.w.v6);
      if p4.result.Err? && p6.result.Err? {
        SameText(p4.result.error, p6.result.error);
      }
    }
  }

  /**
   No sequence of calls tells the two implementations apart, and both leave both clients
   and both servers in the same state.
   */
  lemma {:induction false} GatewaysAreEquivalent(n: NatState, x: WrapState, ops: seq<Op>)
    requires Alike(n, x)
    ensures var r, q := RunNat(n, ops), RunWrap(x, ops);
            && Alike(r.state, q.state) && |r.seen| == |q.seen| == |ops|
            && forall i :: 0 <= i < |ops| ==> Indistinguishable(r.seen[i], q.seen[i])
    decreases |ops|
  {
    if ops != [] {
      StepsAreAlike(n, x, ops[0]);
      GatewaysAreEquivalent(StepNat(n, ops[0]).state, StepWrap(x, ops[0]).state, ops[1..]);
    }
  }

  // ---------------------------------------------------------------- nothing is stranded over a run

  ghost predicate SideHeld(s: Side) {
    Held(s.client.nonces, s.table)
  }

  ghost predicate SidesHeld(n: NatState) {
    (n.v4.Some? ==> SideHeld(n.v4.value)) && (n.v6.Some? ==> SideHeld(n.v6.value))
  }

  lemma SideAddKeepsHeld(s: Side, protocol: string, port: int, lifetime: int, w: World)
    requires SideHeld(s)
    ensures var m := SideAdd(s, protocol, port, lifetime, w); SideHeld(Side(m.client, m.table))
  {
    MapCallKeepsHeld(s.client, s.table, AddArgs(protocol, port, lifetime), w);
  }

  lemma SideDeleteKeepsHeld(s: Side, protocol: string, port: int, w: World)
    requires SideHeld(s)
    ensures var d := SideDelete(s, protocol, port, w); SideHeld(Side(d.client, d.table))
  {
    MapCallKeepsHeld(s.client, s.table, MapArgs(protocol, port, 0, NoAddr, 0), w);
  }

  lemma ProbeKeepsHeld(s: Side, w: World)
    requires SideHeld(s)
    ensures SideHeld(Probe(s, w).side)
  {
    AnnounceKeepsHeld(s.client, s.table, w);
  }

  /** A pinhole, opened and possibly rolled back. */
  lemma PinholeKeepsHeld(s: Side, protocol: string, port: int, lifetime: int, w: Worlds)
    requires SideHeld(s)
    ensures var m := SideAdd(s, protocol, port, lifetime, w.v6);
            var d := SideDelete(Side(m.client, m.table), protocol, port, w.rollback);
            SideHeld(Side(m.client, m.table)) && SideHeld(Side(d.client, d.table))
  {
    SideAddKeepsHeld(s, protocol, port, lifetime, w.v6);
    var m := SideAdd(s, protocol, port, lifetime, w.v6);
    SideDeleteKeepsHeld(Side(m.client, m.table), protocol, port, w.rollback);
  }

  /** Nothing one call does to one side strands anything there. */
  lemma SideKeepsHeld(s: Side, op: Op)
    requires SideHeld(s)
    ensures op.Add? ==>
              var m := SideAdd(s, op.protocol, op.port, op.lifetime, op.w.v4); SideHeld(Side(m.client, m.table))
    ensures op.Delete? ==>
              && (var d := SideDelete(s, op.protocol, op.port, op.w.v4); SideHeld(Side(d.client, d.table)))
              && (var d := SideDelete(s, op.protocol, op.port, op.w.v6); SideHeld(Side(d.client, d.table)))
    ensures op.CheckHealth? ==> SideHeld(Probe(s, op.w.v4).side) && SideHeld(Probe(s, op.w.v6).side)
    ensures op.External? ==>
              var e := ExternalCall(s.client, s.table, op.clock, op.create, op.remove);
              SideHeld(Side(e.client, e.table))
  {
    match op {
      case Add(protocol, port, lifetime, w) => SideAddKeepsHeld(s, protocol, port, lifetime, w.v4);
      case Delete(protocol, port, w) =>
        SideDeleteKeepsHeld(s, protocol, port, w.v4);
        SideDeleteKeepsHeld(s, protocol, port, w.v6);
      case CheckHealth(w) =>
        ProbeKeepsHeld(s, w.v4);
        ProbeKeepsHeld(s, w.v6);
      case External(clock, create, remove, _) => ExternalCallKeepsHeld(s.client, s.table, clock, create, remove);
      case ReadPinhole =>
    }
  }

  lemma StepKeepsHeld(n: NatState, op: Op)
    requires Usable(n) && SidesHeld(n)
    ensures SidesHeld(StepNat(n, op).state)
  {
    if n.v4.Some? {
      SideKeepsHeld(n.v4.value, op);
    }
    if n.v6.Some? {
      SideKeepsHeld(n.v6.value, op);
      if op.Add? {
        PinholeKeepsHeld(n.v6.value, op.protocol, op.port, op.lifetime, op.w);
      }
    }
  }

  /** After any sequence of calls, every mapping and pinhole can still be deleted. */
  lemma {:induction false} RunKeepsHeld(n: NatState, ops: seq<Op>)
    requires Usable(n) && SidesHeld(n)
    ensures SidesHeld(RunNat(n, ops).state)
    decreases |ops|
  {
    if ops != [] {
      StepKeepsHeld(n, ops[0]);
      RunKeepsHeld(StepNat(n, ops[0]).state, ops[1..]);
    }
  }

  ghost predicate WrapHeld(x: WrapState) {
    SideHeld(x.v6) && (x.v4.PcpV4? ==> SidesHeld(x.v4.pcp))
  }

  lemma WrapStepKeepsHeld(x: WrapState, op: Op)
    requires Wrappable(x) && WrapHeld(x)
    ensures WrapHeld(StepWrap(x, op).state)
  {
    SideKeepsHeld(x.v6, op);
    if op.Add? {
      PinholeKeepsHeld(x.v6, op.protocol, op.port, op.lifetime, op.w);
    }
    if x.v4.PcpV4? {
      StepKeepsHeld(x.v4.pcp, op);
    }
  }

  /** The same for the wrapper, whatever gateway is underneath. */
  lemma {:induction false} WrapRunKeepsHeld(x: WrapState, ops: seq<Op>)
    requires Wrappable(x) && WrapHeld(x)
    ensures WrapHeld(RunWrap(x, ops).state)
    decreases |ops|
  {
    if ops != [] {
      WrapStepKeepsHeld(x, ops[0]);
      WrapRunKeepsHeld(StepWrap(x, ops[0]).state, ops[1..]);
    }
  }

  // ---------------------------------------------------------------- restarts are reported once

  /** The epochs one client call learns, in the terms of `Epoch`. */
  function MapEvents(c: ClientState, table: Table, a: MapArgs, w: World): seq<Epoch.Event> {
    var m := MapCall(c, table, a, w);
    if m.result.Ok? then [Epoch.Heard(m.result.value.header.epoch, w.now)] else []
  }

  function AddEvents(s: Side, protocol: string, port: int, lifetime: int, w: World): seq<Epoch.Event> {
    MapEvents(s.client, s.table, AddArgs(protocol, port, lifetime), w)
  }

  function DeleteEvents(s: Side, protocol: string, port: int, w: World): seq<Epoch.Event> {
    MapEvents(s.client, s.table, MapArgs(protocol, port, 0, NoAddr, 0), w)
  }

  /** A pinhole's add and, if it was opened but IPv4 failed, its rollback. */
  function PinholeEvents(s: Side, protocol: string, port: int, lifetime: int, w: Worlds, ok4: bool): seq<Epoch.Event> {
    var m := SideAdd(s, protocol, port, lifetime, w.v6);
    AddEvents(s, protocol, port, lifetime, w.v6)
    + if m.result.Ok? && !ok4 then DeleteEvents(Side(m.client, m.table), protocol, port, w.rollback) else []
  }

  /** What an announce learns is the world's: an answer that is no refusal, and the reading after it. */
  function ProbeEvents(s: Side, w: World): seq<Epoch.Event> {
    match Reached(s.client, w)
    case Some(epoch) => [Epoch.Heard(epoch, w.now), Epoch.Read]
    case None => []
  }

  function ExternalEvents(s: Side, clock: nat, create: World, remove: World): seq<Epoch.Event> {
    if s.client.externalIP != NoAddr then []
    else
      var m := SideAdd(s, "udp", EphemeralPort(clock), 1_000_000_000, create);
      AddEvents(s, "udp", EphemeralPort(clock), 1_000_000_000, create)
      + if m.result.Ok? then DeleteEvents(Side(m.client, m.table), "udp", EphemeralPort(clock), remove) else []
  }

  function Events4(n: NatState, op: Op): seq<Epoch.Event>
    requires Usable(n)
  {
    if n.v4.None? then []
    else
      var s := n.v4.value;
      match op
      case Add(protocol, port, lifetime, w) => AddEvents(s, protocol, port, lifetime, w.v4)
      case Delete(protocol, port, w) => DeleteEvents(s, protocol, port, w.v4)
      case CheckHealth(w) => ProbeEvents(s, w.v4)
      case External(clock, create, remove, _) => ExternalEvents(s, clock, create, remove)
      case ReadPinhole => []
  }

  function Events6(n: NatState, op: Op): seq<Epoch.Event>
    requires Usable(n)
  {
    if n.v6.None? then []
    else
      var s := n.v6.value;
      match op
      case Add(protocol, port, lifetime, w) =>
        var ok4 := n.v4.None? || SideAdd(n.v4.value, protocol, port, lifetime, w.v4).result.Ok?;
        PinholeEvents(s, protocol, port, lifetime, w, ok4)
      case Delete(protocol, port, w) => DeleteEvents(s, protocol, port, w.v6)
      case CheckHealth(w) => ProbeEvents(s, w.v6)
      case External(clock, create, remove, _) => if n.v4.None? then ExternalEvents(s, clock, create, remove) else []
      case ReadPinhole => []
  }

  function History4(n: NatState, ops: seq<Op>): seq<Epoch.Event>
    requires Usable(n)
    decreases |ops|
  {
    if ops == [] then [] else Events4(n, ops[0]) + History4(StepNat(n, ops[0]).state, ops[1..])
  }

  function History6(n: NatState, ops: seq<Op>): seq<Epoch.Event>
    requires Usable(n)
    decreases |ops|
  {
    if ops == [] then [] else Events6(n, ops[0]) + History6(StepNat(n, ops[0]).state, ops[1..])
  }

  lemma {:induction false} RunJoins(tr: Epoch.Tracker, a: seq<Epoch.Event>, b: seq<Epoch.Event>)
    ensures Epoch.Run(tr, a + b) == Epoch.Run(Epoch.Run(tr, a), b)
    decreases |b|
  {
    if b == [] {
      assert a + b == a;
    } else {
      RunJoins(tr, a, b[..|b|-1]);
      assert (a + b)[..|a + b|-1] == a + b[..|b|-1];
    }
  }

  lemma MapTracker(c: ClientState, table: Table, a: MapArgs, w: World)
    ensures MapCall(c, table, a, w).client.tracker == Epoch.Run(c.tracker, MapEvents(c, table, a, w))
  {
    var e := MapEvents(c, table, a, w);
    if e != [] {
      assert e[..0] == [];
    }
  }

  lemma AddTracker(s: Side, protocol: string, port: int, lifetime: int, w: World)
    ensures SideAdd(s, protocol, port, lifetime, w).client.tracker
            == Epoch.Run(s.client.tracker, AddEvents(s, protocol, port, lifetime, w))
  {
    MapTracker(s.client, s.table, AddArgs(protocol, port, lifetime), w);
  }

  lemma DeleteTracker(s: Side, protocol: string, port: int, w: World)
    ensures SideDelete(s, protocol, port, w).client.tracker
            == Epoch.Run(s.client.tracker, DeleteEvents(s, protocol, port, w))
  {
    MapTracker(s.client, s.table, MapArgs(protocol, port, 0, NoAddr, 0), w);
  }

  lemma ProbeTracker(s: Side, w: World)
    ensures Probe(s, w).side.client.tracker == Epoch.Run(s.client.tracker, ProbeEvents(s, w))
    ensures Probe(s, w).result.Ok? ==> Probe(s, w).restarted == Epoch.Run(s.client.tracker, ProbeEvents(s, w)[..1]).lost
  {
    var e := ProbeEvents(s, w);
    AnnounceReaches(s.client, s.table, w);
    if e != [] {
      assert e[..1][..0] == [];
      assert Epoch.Run(s.client.tracker, e[..1]) == Epoch.Step(s.client.tracker, e[0]);
    }
  }

  /** An add and, if `undone`, the delete that follows it. */
  lemma AddThenDelete(s: Side, protocol: string, port: int, lifetime: int, v: World, w: World, undone: bool)
    ensures var m := SideAdd(s, protocol, port, lifetime, v);
            var d := SideDelete(Side(m.client, m.table), protocol, port, w);
            (if undone then d.client.tracker else m.client.tracker)
            == Epoch.Run(s.client.tracker, AddEvents(s, protocol, port, lifetime, v)
                 + if undone then DeleteEvents(Side(m.client, m.table), protocol, port, w) else [])
  {
    var m := SideAdd(s, protocol, port, lifetime, v);
    var a, d := AddEvents(s, protocol, port, lifetime, v), DeleteEvents(Side(m.client, m.table), protocol, port, w);
    AddTracker(s, protocol, port, lifetime, v);
    DeleteTracker(Side(m.client, m.table), protocol, port, w);
    RunJoins(s.client.tracker, a, d);
    assert a + [] == a;
  }

  lemma ExternalTracker(s: Side, clock: nat, create: World, remove: World)
    ensures ExternalCall(s.client, s.table, clock, create, remove).client.tracker
            == Epoch.Run(s.client.tracker, ExternalEvents(s, clock, create, remove))
  {
    var undone := SideAdd(s, "udp", EphemeralPort(clock), 1_000_000_000, create).result.Ok?;
    AddThenDelete(s, "udp", EphemeralPort(clock), 1_000_000_000, create, remove, undone);
  }

  lemma PinholeTracker(s: Side, protocol: string, port: int, lifetime: int, w: Worlds, ok4: bool)
    ensures var m := SideAdd(s, protocol, port, lifetime, w.v6);
            var d := SideDelete(Side(m.client, m.table), protocol, port, w.rollback);
            (if m.result.Ok? && !ok4 then d.client.tracker else m.client.tracker)
            == Epoch.Run(s.client.tracker, PinholeEvents(s, protocol, port, lifetime, w, ok4))
  {
    var undone := SideAdd(s, protocol, port, lifetime, w.v6).result.Ok? && !ok4;
    AddThenDelete(s, protocol, port, lifetime, w.v6, w.rollback, undone);
  }

  /** A stack that is not there has learned nothing. */
  function Tracked(s: Option<Side>): Epoch.Tracker {
    if s.Some? then s.value.client.tracker else Epoch.FRESH
  }

  lemma StepTracker4(n: NatState, op: Op)
    requires Usable(n)
    ensures Tracked(StepNat(n, op).state.v4) == Epoch.Run(Tracked(n.v4), Events4(n, op))
  {
    if n.v4.Some? {
      var s := n.v4.value;
      match op {
        case Add(protocol, port, lifetime, w) => AddTracker(s, protocol, port, lifetime, w.v4);
        case Delete(protocol, port, w) => DeleteTracker(s, protocol, port, w.v4);
        case CheckHealth(w) => ProbeTracker(s, w.v4);
        case External(clock, create, remove, _) => ExternalTracker(s, clock, create, remove);
        case ReadPinhole =>
      }
    }
  }

  lemma StepTracker6(n: NatState, op: Op)
    requires Usable(n)
    ensures Tracked(StepNat(n, op).state.v6) == Epoch.Run(Tracked(n.v6), Events6(n, op))
  {
    if n.v6.Some? {
      var s := n.v6.value;
      match op {
        case Add(protocol, port, lifetime, w) =>
          var ok4 := n.v4.None? || SideAdd(n.v4.value, protocol, port, lifetime, w.v4).result.Ok?;
          PinholeTracker(s, protocol, port, lifetime, w, ok4);
        case Delete(protocol, port, w) => DeleteTracker(s, protocol, port, w.v6);
        case CheckHealth(w) => ProbeTracker(s, w.v6);
        case External(clock, create, remove, _) => ExternalTracker(s, clock, create, remove);
        case ReadPinhole =>
      }
    }
  }

  lemma {:induction false} RunTrackers(n: NatState, ops: seq<Op>)
    requires Usable(n)
    ensures var r := RunNat(n, ops).state;
            && Tracked(r.v4) == Epoch.Run(Tracked(n.v4), History4(n, ops))
            && Tracked(r.v6) == Epoch.Run(Tracked(n.v6), History6(n, ops))
    decreases |ops|
  {
    if ops != [] {
      var m := StepNat(n, ops[0]).state;
      StepTracker4(n, ops[0]);
      StepTracker6(n, ops[0]);
      RunTrackers(m, ops[1..]);
      RunJoins(Tracked(n.v4), Events4(n, ops[0]), History4(m, ops[1..]));
      RunJoins(Tracked(n.v6), Events6(n, ops[0]), History6(m, ops[1..]));
    }
  }

  /** What one announce says and leaves behind on a stack with history `h`. */
  lemma ProbeReportsRestarts(tr: Epoch.Tracker, h: seq<Epoch.Event>, s: Side, w: World)
    requires !tr.lost && s.client.tracker == Epoch.Run(tr, h)
    ensures var p, e := Probe(s, w), ProbeEvents(s, w);
            && (p.result.Ok? <==> e != [])
            && (e != [] ==> p.result.value == e[0].epoch && (p.restarted <==> Epoch.Pending(tr, h + e[..1])))
            && (e == [] ==> !p.restarted)
            && (p.side.client.tracker.lost <==> e == [] && Epoch.Pending(tr, h))
  {
    var e := ProbeEvents(s, w);
    AnnounceReaches(s.client, s.table, w);
    ProbeTracker(s, w);
    Epoch.FlagIsConserved(tr, h);
    if e != [] {
      RunJoins(tr, h, e[..1]);
      Epoch.FlagIsConserved(tr, h + e[..1]);
    }
  }

  /** What a health check hears from a stack, if there is one. */
  function Heard(s: Option<Side>, w: World): seq<Epoch.Event> {
    if s.Some? then ProbeEvents(s.value, w) else []
  }

  /**
   Restarts are conserved. After any calls on a fresh gateway, of one stack or two, a health
   check reports a restart exactly when a stack it reaches has one pending, its own announce
   included; the epoch is IPv4's if it answered; the check fails exactly when it reaches no
   stack; and what was pending on a stack it does not reach is pending afterwards.
   */
  lemma HealthReportsEveryRestart(n: NatState, ops: seq<Op>, w: Worlds)
    requires Usable(n) && !Tracked(n.v4).lost && !Tracked(n.v6).lost
    ensures var tr4, tr6 := Tracked(n.v4), Tracked(n.v6);
            var r := RunNat(n, ops).state;
            var h := NatHealth(r, w);
            var e4, e6 := Heard(r.v4, w.v4), Heard(r.v6, w.v6);
            && (h.health.Unreachable? <==> e4 == [] && e6 == [])
            && (h.health.Healthy? ==> h.health.epoch == (if e4 != [] then e4[0].epoch else e6[0].epoch))
            && (h.health.Healthy? ==> (h.health.restarted <==>
                  || (e4 != [] && Epoch.Pending(tr4, History4(n, ops) + e4[..1]))
                  || (e6 != [] && Epoch.Pending(tr6, History6(n, ops) + e6[..1]))))
            && (Tracked(h.state.v4).lost <==> e4 == [] && Epoch.Pending(tr4, History4(n, ops)))
            && (Tracked(h.state.v6).lost <==> e6 == [] && Epoch.Pending(tr6, History6(n, ops)))
  {
    var r := RunNat(n, ops).state;
    RunTrackers(n, ops);
    Epoch.FlagIsConserved(Tracked(n.v4), History4(n, ops));
    Epoch.FlagIsConserved(Tracked(n.v6), History6(n, ops));
    if r.v4.Some? {
      ProbeReportsRestarts(Tracked(n.v4), History4(n, ops), r.v4.value, w.v4);
    }
    if r.v6.Some? {
      ProbeReportsRestarts(Tracked(n.v6), History6(n, ops), r.v6.value, w.v6);
    }
  }

  /** The error names the cause of every stack that was tried, in order. */
  lemma HealthErrors(n: NatState, w: Worlds)
    requires NatHealth(n, w).health.Unreachable?
    ensures var error := NatHealth(n, w).health.error;
            if n.v4.None? && n.v6.None? then error == Base(NoNATFound)
            else if n.v4.None? then error == Wrapped("announce: ", Probe(n.v6.value, w.v6).result.error)
            else if n.v6.None? then error == Wrapped("announce: ", Probe(n.v4.value, w.v4).result.error)
            else var e4, e6 := Probe(n.v4.value, w.v4).result.error, Probe(n.v6.value, w.v6).result.error;
                 && Text(error) == Letters("announce: ") + Text(e4) + Letters("; pcp ipv6: ") + Text(e6)
                 && Causes(error) == Causes(e4) + Causes(e6)
  {
    assert Letters("") == [];
  }

  // ---------------------------------------------------------------- over a gateway without health check

  function PlainEvents(x: WrapState, op: Op): seq<Epoch.Event> {
    match op
    case Add(protocol, port, lifetime, w) => PinholeEvents(x.v6, protocol, port, lifetime, w, w.plainAdd.Ok?)
    case Delete(protocol, port, w) => DeleteEvents(x.v6, protocol, port, w.v6)
    case CheckHealth(w) => ProbeEvents(x.v6, w.v6)
    case External(_, _, _, _) => []
    case ReadPinhole => []
  }

  function PlainHistory(x: WrapState, ops: seq<Op>): seq<Epoch.Event>
    requires Wrappable(x)
    decreases |ops|
  {
    if ops == [] then [] else PlainEvents(x, ops[0]) + PlainHistory(StepWrap(x, ops[0]).state, ops[1..])
  }

  lemma PlainStepTracker(x: WrapState, op: Op)
    requires x.v4.PlainV4?
    ensures StepWrap(x, op).state.v6.client.tracker == Epoch.Run(x.v6.client.tracker, PlainEvents(x, op))
  {
    match op {
      case Add(protocol, port, lifetime, w) => PinholeTracker(x.v6, protocol, port, lifetime, w, w.plainAdd.Ok?);
      case Delete(protocol, port, w) => DeleteTracker(x.v6, protocol, port, w.v6);
      case CheckHealth(w) => ProbeTracker(x.v6, w.v6);
      case External(_, _, _, _) =>
      case ReadPinhole =>
    }
  }

  lemma {:induction false} PlainRunTracker(x: WrapState, ops: seq<Op>)
    requires x.v4.PlainV4?
    ensures RunWrap(x, ops).state.v6.client.tracker == Epoch.Run(x.v6.client.tracker, PlainHistory(x, ops))
    decreases |ops|
  {
    if ops != [] {
      var y := StepWrap(x, ops[0]).state;
      PlainStepTracker(x, ops[0]);
      PlainRunTracker(y, ops[1..]);
      RunJoins(x.v6.client.tracker, PlainEvents(x, ops[0]), PlainHistory(y, ops[1..]));
    }
  }

  /** Without a health check underneath, the wrapper reports the IPv6 stack's restarts alone. */
  lemma PlainHealthReportsEveryRestart(x: WrapState, ops: seq<Op>, w: Worlds)
    requires x.v4.PlainV4? && !x.v6.client.tracker.lost
    ensures var tr := x.v6.client.tracker;
            var r := RunWrap(x, ops).state;
            var h, e := WrapHealth(r, w), ProbeEvents(r.v6, w.v6);
            && (h.health.Unreachable? <==> e == [])
            && (h.health.Unreachable? ==> h.health.error == Wrapped("pcp ipv6: ", Probe(r.v6, w.v6).result.error))
            && (h.health.Healthy? ==>
                  && h.health.epoch == e[0].epoch
                  && (h.health.restarted <==> Epoch.Pending(tr, PlainHistory(x, ops) + e[..1])))
            && (h.state.v6.client.tracker.lost <==> e == [] && Epoch.Pending(tr, PlainHistory(x, ops)))
  {
    PlainRunTracker(x, ops);
    ProbeReportsRestarts(x.v6.client.tracker, PlainHistory(x, ops), RunWrap(x, ops).state.v6, w.v6);
  }
}
