/** What the two dual-stack gateways report of one call is true of the servers. */
module SagaProofs {
  import opened Basics
  import opened MapRules
  import opened Wire
  import opened Errors
  import opened Client
  import opened ClientProofs
  import opened DualStack
  import opened PinholeWrapper

  // ---------------------------------------------------------------- the pinhole report is true

  lemma {:induction false} TravelFailures(table: Table, about: Option<Decoded>, attempts: seq<Attempt>, i: nat)
    ensures var o := Travel(table, about, attempts, i).outcome;
            o.Failed? ==> o.cause == ContextEnded || o.cause == NoAnswer
    decreases MAX_RETRIES - i
  {
    var once := TryOnce(table, about, AttemptAt(attempts, i));
    if once.outcome.None? && i + 1 < MAX_RETRIES {
      TravelFailures(once.table, about, attempts, i + 1);
    }
  }

  /** No client error can be mistaken for a verdict of the saga. */
  lemma ClientErrorsAreTheirOwn(c: ClientState, table: Table, a: MapArgs, w: World)
    ensures var r := MapCall(c, table, a, w).result;
            r.Err? ==> r.error.Base? && r.error.cause != RolledBack && r.error.cause != LeftOpen
  {
    if CheckArgs(c, a, w).None? {
      TravelFailures(table, Some(Asked(c, a, w)), w.attempts, 0);
    }
  }

  /** Nothing here ends the mapping that `d` asked for. */
  predicate Lasting(hs: seq<Happening>, d: Decoded) {
    forall i :: 0 <= i < |hs| ==>
      hs[i] != Restarts && hs[i] != Expires(d.key) && hs[i] != OtherUnmaps(d.key, d.nonce)
  }

  lemma {:induction false} LastingKeeps(table: Table, d: Decoded, hs: seq<Happening>)
    requires d.lifetime > 0 && Lasting(hs, d) && d.key in table && table[d.key] == Entry(d.nonce, Ours)
    ensures var t := After(table, Some(d), hs); d.key in t && t[d.key] == Entry(d.nonce, Ours)
    decreases |hs|
  {
    if hs != [] {
      LastingKeeps(AfterOne(table, Some(d), hs[0]), d, hs[1..]);
    }
  }

  /** A create that was accepted is on the server under the stored nonce, until something ends it. */
  lemma AcceptedCreateInstalls(table: Table, d: Decoded, attempts: seq<Attempt>)
    requires d.lifetime > 0
    requires forall k: nat :: FirstDecided(attempts, 0, k) ==> Lasting(AttemptAt(attempts, k).after, d)
    requires var o := Travel(table, Some(d), attempts, 0).outcome; o.Replied? && o.code == SUCCESS
    ensures var t := Travel(table, Some(d), attempts, 0).table; d.key in t && t[d.key] == Entry(d.nonce, Ours)
  {
    var k := DecidingAttempt(table, Some(d), attempts, 0);
    var a := AttemptAt(attempts, k);
    FirstOutcomeCounts(table, Some(d), attempts, 0);
    assert Decides(a.fate, Travel(table, Some(d), attempts, 0).outcome);
    ServedOutcome(table, Some(d), attempts, 0, k);
    var at := TableAt(table, Some(d), attempts, 0, k);
    LastingKeeps(Answer(at, d.key, d.nonce, d.lifetime, a.fate.ans.refusal).table, d, a.after);
  }

  /** The three ways the report of an add can read, and what each says about the IPv6 server. */
  predicate OpenReport(pinhole: Option<Err>) {
    pinhole.None?
  }

  predicate RolledBackReport(pinhole: Option<Err>) {
    pinhole.Some? && RolledBack in Causes(pinhole.value)
  }

  predicate LeftOpenReport(pinhole: Option<Err>) {
    pinhole.Some? && LeftOpen in Causes(pinhole.value)
  }

  /** Accepted and not ended since: the server has the mapping under the nonce the client holds. */
  predicate Established(s: Side, key: Key) {
    key in s.table && key in s.client.nonces && s.table[key] == Entry(s.client.nonces[key], Ours)
  }

  /** Nothing ends the mapping between the reply that decides the call and the end of the call. */
  ghost predicate LastingWorld(s: Side, protocol: string, port: int, lifetime: int, w: World) {
    var a := AddArgs(protocol, port, lifetime);
    CheckArgs(s.client, a, w).None? ==>
      forall k: nat :: FirstDecided(w.attempts, 0, k) ==>
        Lasting(AttemptAt(w.attempts, k).after, Asked(s.client, a, w))
  }

  lemma AcceptedAddEstablishes(s: Side, protocol: string, port: int, lifetime: int, w: World)
    requires lifetime > 0 && LastingWorld(s, protocol, port, lifetime, w)
    requires SideAdd(s, protocol, port, lifetime, w).result.Ok?
    ensures ProtocolNumber(protocol).Some? && 0 < port <= 65535
    ensures var m := SideAdd(s, protocol, port, lifetime, w);
            Established(Side(m.client, m.table), KeyOf(protocol, port))
  {
    AcceptedCreateInstalls(s.table, Asked(s.client, AddArgs(protocol, port, lifetime), w), w.attempts);
  }

  /**
   The nonce is held, so any later delete that is answered and not refused leaves nothing of
   ours at the key; and it succeeds if no other process had the key or takes it meanwhile.
   */
  ghost predicate Removable(s: Side, protocol: string, port: int) {
    && ProtocolNumber(protocol).Some? && 0 < port <= 65535
    && var key := KeyOf(protocol, port);
       && key in s.client.nonces
       && forall w, k: nat :: Reaches(w, k) ==>
            && NotOurs(SideDelete(s, protocol, port, w).table, key)
            && (NotTheirs(s.table, key) && UnclaimedUntil(w.attempts, key, 0, k) ==>
                  SideDelete(s, protocol, port, w).error.None?)
            && (SideDelete(s, protocol, port, w).error.None? && Unclaimed(AttemptAt(w.attempts, k).after, key) ==>
                  key !in SideDelete(s, protocol, port, w).table)
  }

  lemma HeldIsRemovable(s: Side, protocol: string, port: int)
    requires CanAsk(s.client, protocol, port) && Held(s.client.nonces, s.table)
    requires KeyOf(protocol, port) in s.client.nonces
    ensures Removable(s, protocol, port)
  {
    forall w, k: nat | Reaches(w, k)
      ensures var key := KeyOf(protocol, port);
              && NotOurs(SideDelete(s, protocol, port, w).table, key)
              && (NotTheirs(s.table, key) && UnclaimedUntil(w.attempts, key, 0, k) ==>
                    SideDelete(s, protocol, port, w).error.None?)
              && (SideDelete(s, protocol, port, w).error.None? && Unclaimed(AttemptAt(w.attempts, k).after, key) ==>
                    key !in SideDelete(s, protocol, port, w).table)
    {
      DeliveredDelete(s.client, s.table, protocol, port, w, k);
    }
  }

  /**
   What a dual-stack add reports about the pinhole is true of the IPv6 server. `before`
   and `after` are the IPv6 side, `ok4` whether IPv4 succeeded. Nothing reported: both
   servers accepted. Rolled back: IPv4 failed and the server has no mapping of ours at
   the key. Left open: IPv4 failed, and what is left can be removed (`Removable`).
   */
  ghost predicate Truthful(before: Side, after: Side, protocol: string, port: int, lifetime: int, w: World,
                           ok4: bool, pinhole: Option<Err>)
  {
    var add6 := SideAdd(before, protocol, port, lifetime, w).result;
    && Held(after.client.nonces, after.table)
    && (OpenReport(pinhole) <==> ok4 && add6.Ok?)
    && (RolledBackReport(pinhole) || LeftOpenReport(pinhole) <==> !ok4 && add6.Ok?)
    && !(RolledBackReport(pinhole) && LeftOpenReport(pinhole))
    && (add6.Err? ==> pinhole == Some(Wrapped("pcp ipv6: ", add6.error)))
    && (add6.Ok? ==> ProtocolNumber(protocol).Some? && 0 < port <= 65535)
    && (OpenReport(pinhole) && LastingWorld(before, protocol, port, lifetime, w) ==>
          Established(after, KeyOf(protocol, port)))
    && (RolledBackReport(pinhole) ==>
          NotOurs(after.table, KeyOf(protocol, port)) && KeyOf(protocol, port) !in after.client.nonces)
    && (LeftOpenReport(pinhole) ==> Removable(after, protocol, port))
  }

  /** The part of the saga both implementations share, whatever the IPv4 gateway did. */
  lemma PinholeOutcomeIsTrue(before: Side, protocol: string, port: int, lifetime: int,
                            w: World, rollback: World, ok4: bool)
    requires lifetime > 0 && Held(before.client.nonces, before.table)
    ensures var m := SideAdd(before, protocol, port, lifetime, w); var s := Side(m.client, m.table);
            var d := SideDelete(s, protocol, port, rollback);
            if !ok4 && m.result.Ok?
            then Truthful(before, Side(d.client, d.table), protocol, port, lifetime, w, ok4,
                          PinholeError(Some(RollbackOutcome(d.error))))
            else Truthful(before, s, protocol, port, lifetime, w, ok4, PinholeError(ErrorOf(m.result)))
  {
    var a := AddArgs(protocol, port, lifetime);
    var m := SideAdd(before, protocol, port, lifetime, w);
    var s := Side(m.client, m.table);
    MapCallKeepsHeld(before.client, before.table, a, w);
    ClientErrorsAreTheirOwn(before.client, before.table, a, w);
    if m.result.Err? {
      assert Causes(PinholeError(ErrorOf(m.result)).value) == Causes(m.result.error) == [m.result.error.cause];
    } else {
      if ok4 {
        if LastingWorld(before, protocol, port, lifetime, w) {
          AcceptedAddEstablishes(before, protocol, port, lifetime, w);
        }
      } else {
        RollbackIsTrue(s, protocol, port, rollback);
      }
    }
  }

  lemma RollbackIsTrue(s: Side, protocol: string, port: int, w: World)
    requires ProtocolNumber(protocol).Some? && 0 < port <= 65535
    requires Held(s.client.nonces, s.table) && s.client.gateway && s.client.localIP != NoAddr
    requires KeyOf(protocol, port) in s.client.nonces
    ensures var d := SideDelete(s, protocol, port, w); var key := KeyOf(protocol, port);
            var after := Side(d.client, d.table); var e := RollbackOutcome(d.error);
            && Held(d.client.nonces, d.table)
            && (d.error.None? ==> Causes(e) == [RolledBack] && NotOurs(d.table, key) && key !in d.client.nonces)
            && (d.error.Some? ==> Causes(e)[0] == LeftOpen && RolledBack !in Causes(e))
            && (d.error.Some? ==> Removable(after, protocol, port))
  {
    var a := MapArgs(protocol, port, 0, NoAddr, 0);
    var d := SideDelete(s, protocol, port, w);
    MapCallKeepsHeld(s.client, s.table, a, w);
    ClientErrorsAreTheirOwn(s.client, s.table, a, w);
    if d.error.None? {
      DeleteCallIsReal(s.client, s.table, protocol, port, w);
    } else {
      var cause := d.error.value.inner.cause;
      assert Causes(d.error.value.inner) == [cause] && Causes(d.error.value) == [cause];
      assert Causes(RollbackOutcome(d.error)) == [LeftOpen] + [cause];
      HeldIsRemovable(Side(d.client, d.table), protocol, port);
    }
  }

  /** What the caller is told of IPv4 is true too: success means the server has the mapping. */
  ghost predicate PortIsTrue(before: Side, after: Side, protocol: string, port: int, lifetime: int, w: World,
                       r: Result<uint16, Err>)
  {
    var add := SideAdd(before, protocol, port, lifetime, w).result;
    && (r.Ok? <==> add.Ok?)
    && (r.Ok? ==> ProtocolNumber(protocol).Some? && 0 < port <= 65535 && r.value == add.value.externalPort)
    && (r.Err? ==> r.error == Wrapped("add mapping: ", add.error))
    && (r.Ok? && LastingWorld(before, protocol, port, lifetime, w) ==> Established(after, KeyOf(protocol, port)))
  }

  lemma PortReportIsTrue(before: Side, protocol: string, port: int, lifetime: int, w: World)
    requires lifetime > 0
    ensures var m := SideAdd(before, protocol, port, lifetime, w);
            PortIsTrue(before, Side(m.client, m.table), protocol, port, lifetime, w, PortOf(m.result))
  {
    if SideAdd(before, protocol, port, lifetime, w).result.Ok? && LastingWorld(before, protocol, port, lifetime, w) {
      AcceptedAddEstablishes(before, protocol, port, lifetime, w);
    }
  }

  lemma NatReportIsTrue(n: NatState, protocol: string, port: int, lifetime: int, w: Worlds)
    requires n.v4.Some? && n.v6.Some? && lifetime > 0
    requires Held(n.v6.value.client.nonces, n.v6.value.table)
    ensures var a := NatAdd(n, protocol, port, lifetime, w);
            && a.state.v4.Some? && a.state.v6.Some?
            && PortIsTrue(n.v4.value, a.state.v4.value, protocol, port, lifetime, w.v4, a.result)
            && Truthful(n.v6.value, a.state.v6.value, protocol, port, lifetime, w.v6, a.result.Ok?, a.state.pinhole)
  {
    PortReportIsTrue(n.v4.value, protocol, port, lifetime, w.v4);
    var ok4 := NatAdd(n, protocol, port, lifetime, w).result.Ok?;
    PinholeOutcomeIsTrue(n.v6.value, protocol, port, lifetime, w.v6, w.rollback, ok4);
  }

  /** With one stack only, its result is the caller's; over IPv6 it is the pinhole's as well. */
  lemma SoloReportIsTrue(n: NatState, protocol: string, port: int, lifetime: int, w: Worlds)
    requires n.v4.Some? != n.v6.Some? && lifetime > 0
    ensures var a := NatAdd(n, protocol, port, lifetime, w);
            if n.v4.Some?
            then && a.state.v4.Some? && a.state.v6.None? && OpenReport(a.state.pinhole)
                 && PortIsTrue(n.v4.value, a.state.v4.value, protocol, port, lifetime, w.v4, a.result)
            else && a.state.v6.Some? && a.state.v4.None? && (OpenReport(a.state.pinhole) <==> a.result.Ok?)
                 && (a.result.Err? ==> a.state.pinhole == Some(Wrapped("pcp ipv6: ", a.result.error.inner)))
                 && PortIsTrue(n.v6.value, a.state.v6.value, protocol, port, lifetime, w.v6, a.result)
  {
    if n.v4.Some? {
      PortReportIsTrue(n.v4.value, protocol, port, lifetime, w.v4);
    } else {
      PortReportIsTrue(n.v6.value, protocol, port, lifetime, w.v6);
    }
  }

  /** A side after a delete that reported `e`: nil means nothing of ours is left at the key. */
  predicate DeleteIsTrue(before: Side, after: Side, protocol: string, port: int, w: World, e: Option<Err>) {
    && (e.None? <==> SideDelete(before, protocol, port, w).error.None?)
    && (e.None? ==> ProtocolNumber(protocol).Some? && 0 < port <= 65535)
    && (e.None? ==> NotOurs(after.table, KeyOf(protocol, port)) && KeyOf(protocol, port) !in after.client.nonces)
    && (e.Some? ==> after.client.nonces == before.client.nonces)
  }

  lemma DeleteReportIsTrue(s: Side, protocol: string, port: int, w: World)
    ensures var d := SideDelete(s, protocol, port, w);
            DeleteIsTrue(s, Side(d.client, d.table), protocol, port, w, d.error)
  {
    if SideDelete(s, protocol, port, w).error.None? {
      DeleteCallIsReal(s.client, s.table, protocol, port, w);
    }
  }

  /** Both stacks are deleted from; the caller hears of IPv4, the pinhole report of IPv6. */
  lemma NatDeleteIsTrue(n: NatState, protocol: string, port: int, w: Worlds)
    requires Usable(n)
    ensures var d := NatDelete(n, protocol, port, w);
            && (d.state.v4.Some? <==> n.v4.Some?) && (d.state.v6.Some? <==> n.v6.Some?)
            && (n.v4.Some? ==> DeleteIsTrue(n.v4.value, d.state.v4.value, protocol, port, w.v4, d.error))
            && (n.v6.Some? ==> DeleteIsTrue(n.v6.value, d.state.v6.value, protocol, port, w.v6, d.state.pinhole))
            && (n.v4.None? ==> (d.error.None? <==> d.state.pinhole.None?))
            && (n.v6.None? ==> d.state.pinhole.None?)
            && (d.error.Some? ==>
                  var s, v := if n.v4.Some? then n.v4.value else n.v6.value, if n.v4.Some? then w.v4 else w.v6;
                  d.error == Some(Wrapped("delete mapping: ", SideDelete(s, protocol, port, v).error.value)))
            && (d.state.pinhole.Some? ==>
                  d.state.pinhole
                  == Some(Wrapped("pcp ipv6: ", SideDelete(n.v6.value, protocol, port, w.v6).error.value)))
  {
    if n.v4.Some? {
      DeleteReportIsTrue(n.v4.value, protocol, port, w.v4);
    }
    if n.v6.Some? {
      DeleteReportIsTrue(n.v6.value, protocol, port, w.v6);
    }
  }

  lemma WrapperDeleteIsTrue(x: WrapState, protocol: string, port: int, w: Worlds)
    requires Wrappable(x)
    ensures var d := WrapDelete(x, protocol, port, w);
            && DeleteIsTrue(x.v6, d.state.v6, protocol, port, w.v6, d.state.pinhole)
            && (d.state.pinhole.Some? ==>
                  d.state.pinhole == Some(Wrapped("pcp ipv6: ", SideDelete(x.v6, protocol, port, w.v6).error.value)))
            && (d.state.v4.PcpV4? <==> x.v4.PcpV4?) && (x.v4.PlainV4? ==> d.error == w.plainDelete)
            && (x.v4.PcpV4? ==> d.state.v4.pcp.v4.Some?
                                && DeleteIsTrue(x.v4.pcp.v4.value, d.state.v4.pcp.v4.value,
                                                protocol, port, w.v4, d.error))
  {
    DeleteReportIsTrue(x.v6, protocol, port, w.v6);
    if x.v4.PcpV4? {
      NatDeleteIsTrue(x.v4.pcp, protocol, port, w);
    }
  }

  /** The caller gets the answer of the IPv4 gateway, whichever it is, and never the pinhole's. */
  lemma WrapperReportIsTrue(x: WrapState, protocol: string, port: int, lifetime: int, w: Worlds)
    requires Wrappable(x) && lifetime > 0
    requires Held(x.v6.client.nonces, x.v6.table)
    ensures var a := WrapAdd(x, protocol, port, lifetime, w);
            && Truthful(x.v6, a.state.v6, protocol, port, lifetime, w.v6, a.result.Ok?, a.state.pinhole)
            && (x.v4.PlainV4? ==> a.state.v4.PlainV4? && a.result == w.plainAdd)
            && (x.v4.PcpV4? ==>
                  && a.state.v4.PcpV4? && a.state.v4.pcp.v4.Some?
                  && PortIsTrue(x.v4.pcp.v4.value, a.state.v4.pcp.v4.value, protocol, port, lifetime, w.v4, a.result))
  {
    var ok4 := WrapAdd(x, protocol, port, lifetime, w).result.Ok?;
    PinholeOutcomeIsTrue(x.v6, protocol, port, lifetime, w.v6, w.rollback, ok4);
    if x.v4.PcpV4? {
      PortReportIsTrue(x.v4.pcp.v4.value, protocol, port, lifetime, w.v4);
    }
  }

  // ---------------------------------------------------------------- which calls are made

  /** `s` after a MAP call. */
  function Having(s: Side, a: MapArgs, w: World): Side {
    var m := MapCall(s.client, s.table, a, w); Side(m.client, m.table)
  }

  /**
   An add asks each stack once for the caller's protocol, port and lifetime, suggesting that
   very port, and deletes an opened pinhole if and only if IPv4 failed.
   */
  lemma AddCallsMade(n: NatState, protocol: string, port: int, lifetime: int, w: Worlds)
    requires Usable(n)
    ensures var add, remove := MapArgs(protocol, port, port, NoAddr, lifetime), MapArgs(protocol, port, 0, NoAddr, 0);
            var a := NatAdd(n, protocol, port, lifetime, w);
            && a.state.v4 == (if n.v4.Some? then Some(Having(n.v4.value, add, w.v4)) else None)
            && (n.v6.None? ==> a.state.v6 == None)
            && (n.v6.Some? ==>
                  var accepted := MapCall(n.v6.value.client, n.v6.value.table, add, w.v6).result.Ok?;
                  var failed4 := n.v4.Some? && MapCall(n.v4.value.client, n.v4.value.table, add, w.v4).result.Err?;
                  var s := Having(n.v6.value, add, w.v6);
                  a.state.v6 == Some(if accepted && failed4 then Having(s, remove, w.rollback) else s))
  {
  }

  lemma WrapperAddCallsMade(x: WrapState, protocol: string, port: int, lifetime: int, w: Worlds)
    requires Wrappable(x)
    ensures var add, remove := MapArgs(protocol, port, port, NoAddr, lifetime), MapArgs(protocol, port, 0, NoAddr, 0);
            var a := WrapAdd(x, protocol, port, lifetime, w);
            var accepted := MapCall(x.v6.client, x.v6.table, add, w.v6).result.Ok?;
            var s := Having(x.v6, add, w.v6);
            && a.state.v6 == (if accepted && a.result.Err? then Having(s, remove, w.rollback) else s)
            && (x.v4.PcpV4? ==>
                  && a.state.v4.PcpV4?
                  && a.state.v4.pcp.v4 == Some(Having(x.v4.pcp.v4.value, add, w.v4)) && a.state.v4.pcp.v6 == None)
  {
  }

  /** A delete asks each stack once. */
  lemma DeleteCallsMade(n: NatState, x: WrapState, protocol: string, port: int, w: Worlds)
    requires Usable(n) && Wrappable(x)
    ensures var remove := MapArgs(protocol, port, 0, NoAddr, 0);
            var d, e := NatDelete(n, protocol, port, w).state, WrapDelete(x, protocol, port, w).state;
            && d.v4 == (if n.v4.Some? then Some(Having(n.v4.value, remove, w.v4)) else None)
            && d.v6 == (if n.v6.Some? then Some(Having(n.v6.value, remove, w.v6)) else None)
            && e.v6 == Having(x.v6, remove, w.v6)
            && (x.v4.PcpV4? ==>
                  && e.v4.PcpV4?
                  && e.v4.pcp.v4 == Some(Having(x.v4.pcp.v4.value, remove, w.v4)) && e.v4.pcp.v6 == None)
  {
  }

  /** The external address is the IPv4 client's, or the IPv6 client's if it is alone. */
  lemma ExternalIsPrimary(n: NatState, clock: nat, create: World, remove: World)
    ensures var l := NatExternal(n, clock, create, remove);
            if n.v4.Some? then
              var e := ExternalCall(n.v4.value.client, n.v4.value.table, clock, create, remove);
              l == Located(NatState(Some(Side(e.client, e.table)), n.v6, n.pinhole), e.result)
            else if n.v6.Some? then
              var e := ExternalCall(n.v6.value.client, n.v6.value.table, clock, create, remove);
              l == Located(NatState(None, Some(Side(e.client, e.table)), n.pinhole), e.result)
            else l == Located(n, Err(Base(NoNATFound)))
  {
  }
}
