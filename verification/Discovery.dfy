/**
 `selectGateway`: three discovery probes race, and a Go `select` takes whichever is
 ready. Each nondeterministic choice below stands for every order of arrival.
 */
module Discovery {
  import opened Basics

  /** All a channel will ever deliver, and whether it is then closed. */
  datatype Feed<V> = Feed(items: seq<V>, closes: bool)

  datatype Choice<V, W> =
    | Found(gateway: V, pinholes: Option<W>)
    | NotFound(contextEnded: bool)     // ErrNoNATFound, joined with the context's error if it is done

  function First<V>(s: seq<V>): Option<V> {
    if s == [] then None else Some(s[0])
  }

  /**
   PCPv4 first, then the first fallback; on top of either, a PCPv6 client if there is one;
   and the context's state if there is neither.
   */
  ghost predicate RightChoice<V, W>(r: Choice<V, W>, pcp4: seq<V>, pcp6: seq<W>, fallback: seq<V>, contextDone: bool) {
    && (r.Found? <==> pcp4 != [] || fallback != [])
    && (r.Found? && pcp4 != [] ==> r.gateway == pcp4[0])
    && (r.Found? && pcp4 == [] && fallback != [] ==> r.gateway == fallback[0])
    && (r.Found? && pcp6 != [] ==> r.pinholes == Some(pcp6[0]))
    && (r.Found? && pcp6 == [] ==> r.pinholes == None)
    && (r.NotFound? ==> r.contextEnded == contextDone)
  }

  function Chosen<V, W>(pcp4: seq<V>, pcp6: seq<W>, fallback: seq<V>, contextDone: bool): (r: Choice<V, W>)
    ensures RightChoice(r, pcp4, pcp6, fallback, contextDone)
  {
    if pcp4 != [] then Found(pcp4[0], First(pcp6))
    else if fallback != [] then Found(fallback[0], First(pcp6))
    else NotFound(contextDone)
  }

  /** The mutable accumulator of the source. */
  class GatewaySelection<V, W> {
    var pcp4: Option<V>
    var pcp6: Option<W>
    var fallback: Option<V>

    constructor ()
      ensures pcp4 == None && pcp6 == None && fallback == None
    {
      pcp4, pcp6, fallback := None, None, None;
    }

    /** A receive from a closed channel brings nothing. */
    method KeepPCPv4(gateway: Option<V>)
      modifies this`pcp4
      ensures pcp4 == if gateway.Some? then gateway else old(pcp4)
    {
      if gateway.Some? {
        pcp4 := gateway;
      }
    }

    method KeepPCPv6(client: Option<W>)
      modifies this`pcp6
      ensures pcp6 == if client.Some? then client else old(pcp6)
    {
      if client.Some? {
        pcp6 := client;
      }
    }

    method KeepFallback(gateway: Option<V>)
      modifies this`fallback
      ensures fallback == if old(fallback).Some? then old(fallback) else gateway
    {
      if gateway.Some? && fallback.None? {
        fallback := gateway;
      }
    }

    method Gateway(contextDone: bool) returns (r: Choice<V, W>)
      ensures r == Chosen(Listed(pcp4), Listed(pcp6), Listed(fallback), contextDone)
      ensures r.Found? <==> pcp4.Some? || fallback.Some?
      ensures r.Found? ==> r.gateway == (if pcp4.Some? then pcp4.value else fallback.value) && r.pinholes == pcp6
      ensures r.NotFound? ==> r.contextEnded == contextDone
    {
      var gateway := pcp4;
      if gateway.None? {
        gateway := fallback;
      }
      if gateway.None? {
        return NotFound(contextDone);
      }
      return Found(gateway.value, pcp6);
    }
  }

  function Listed<V>(o: Option<V>): seq<V> {
    if o.Some? then [o.value] else []
  }

  predicate Settles<V>(f: Feed<V>) {
    f.items != [] || f.closes
  }

  /** Without a deadline, what must arrive for the call to return at all. */
  predicate Ends<V, W>(pcp4s: Feed<V>, pcp6s: Feed<W>, fallbacks: Feed<V>) {
    Settles(pcp4s) && Settles(pcp6s) && (pcp4s.items != [] || Settles(fallbacks))
  }

  /**
   What there is to receive, all in all, if the context's case is taken: before that, or at
   one of the non-blocking looks after it. The PCP channels are buffered. Of the fallbacks,
   which are not, each is on offer once the one before it is taken; unless `kept`, the sender
   of the last one may give up when the context is done.
   */
  datatype Cut = Cut(p4: bool, p6: bool, offered: nat, kept: bool)

  function Within<V>(f: Feed<V>, there: bool): seq<V> {
    if there then f.items else []
  }

  function Offered<V>(fallbacks: Feed<V>, c: Cut): (n: nat)
    ensures n <= |fallbacks.items|
    ensures n == c.offered || (n == |fallbacks.items| && n < c.offered)
  {
    if c.offered < |fallbacks.items| then c.offered else |fallbacks.items|
  }

  /**
   Confluence. `cut` is the environment's: whether the context's case is taken and what there
   is to receive then; which of several ready cases `select` takes is open. If it is not taken,
   the result is the right choice among all that the probes deliver; if it is, among all there
   is to receive by then. A single fallback whose sender may give up is the only thing that can
   count or not. `done` says whether the context is done at the end.
   */
  method SelectGateway<V, W>(pcp4s: Feed<V>, pcp6s: Feed<W>, fallbacks: Feed<V>, cut: Option<Cut>, done: bool)
    returns (r: Choice<V, W>)
    requires cut.None? ==> Ends(pcp4s, pcp6s, fallbacks)
    requires cut.Some? ==> done
    ensures cut.None? ==> RightChoice(r, pcp4s.items, pcp6s.items, fallbacks.items, done)
    ensures cut.Some? ==>
              var c := cut.value;
              var in4 := if c.p4 then pcp4s.items else [];
              var in6 := if c.p6 then pcp6s.items else [];
              var n := if c.offered < |fallbacks.items| then c.offered else |fallbacks.items|;
              || RightChoice(r, in4, in6, fallbacks.items[..n], done)
              || (n == 1 && !c.kept && RightChoice(r, in4, in6, [], done))
  {
    var found := new GatewaySelection<V, W>();
    var open4, open6, openF := true, true, true;
    var readF := 0; // fallbacks received so far
    var seen4 := if cut.None? then pcp4s.items else Within(pcp4s, cut.value.p4);
    var seen6 := if cut.None? then pcp6s.items else Within(pcp6s, cut.value.p6);
    var n := if cut.None? then |fallbacks.items| else Offered(fallbacks, cut.value);

    while !(!open4 && !open6 && (found.pcp4.Some? || found.fallback.Some? || !openF))
      invariant fresh(found) && 0 <= readF <= n
      invariant found.pcp4 == if open4 then None else First(seen4)
      invariant found.pcp6 == if open6 then None else First(seen6)
      invariant found.fallback == First(fallbacks.items[..readF])
      invariant !openF ==> readF == n || (cut.Some? && !cut.value.kept && readF + 1 == n)
      decreases (if open4 then 1 else 0) + (if open6 then 1 else 0) + (if openF then 1 else 0) + n - readF
    {
      if {
        case open4 && (seen4 != [] || (pcp4s.items == [] && pcp4s.closes)) =>
          open4 := false;
          found.KeepPCPv4(First(seen4));
        case open6 && (seen6 != [] || (pcp6s.items == [] && pcp6s.closes)) =>
          open6 := false;
          found.KeepPCPv6(First(seen6));
        case openF && readF < n =>
          found.KeepFallback(Some(fallbacks.items[readF]));
          readF := readF + 1;
        case openF && readF == |fallbacks.items| && fallbacks.closes =>
          openF := false;
          found.KeepFallback(None);
        case cut.Some? && (cut.value.kept || readF + 1 >= n) =>
          readF := Drain(found, pcp4s, pcp6s, fallbacks, cut.value, open4, open6, openF, readF);
          open4, open6, openF := false, false, false;
      }
    }

    assert found.fallback.None? ==> readF == 0;
    assert fallbacks.items[..|fallbacks.items|] == fallbacks.items;
    r := found.Gateway(done);
  }

  /**
   The inner loop after the context's case: every receive is non-blocking, so it ends after
   finitely many, at the first look at which nothing is ready.
   */
  method Drain<V, W>(found: GatewaySelection<V, W>, pcp4s: Feed<V>, pcp6s: Feed<W>, fallbacks: Feed<V>, c: Cut,
                     was4: bool, was6: bool, wasF: bool, read: nat)
    returns (readF: nat)
    requires read <= Offered(fallbacks, c) && found.fallback == First(fallbacks.items[..read])
    requires c.kept || read + 1 >= Offered(fallbacks, c)
    requires was4 ==> found.pcp4 == None
    requires was6 ==> found.pcp6 == None
    modifies found
    ensures found.pcp4 == if was4 then First(Within(pcp4s, c.p4)) else old(found.pcp4)
    ensures found.pcp6 == if was6 then First(Within(pcp6s, c.p6)) else old(found.pcp6)
    ensures read <= readF <= Offered(fallbacks, c) && found.fallback == First(fallbacks.items[..readF])
    ensures if wasF then readF == Offered(fallbacks, c) || (!c.kept && readF + 1 == Offered(fallbacks, c))
            else readF == read
  {
    var seen4, seen6, n := Within(pcp4s, c.p4), Within(pcp6s, c.p6), Offered(fallbacks, c);
    var open4, open6, openF := was4, was6, wasF;
    var withdrawn := false;
    readF := read;
    while open4 || open6 || openF
      invariant read <= readF <= n && found.fallback == First(fallbacks.items[..readF])
      invariant open4 ==> was4
      invariant open6 ==> was6
      invariant openF ==> wasF
      invariant found.pcp4 == if open4 then None else if was4 then First(seen4) else old(found.pcp4)
      invariant found.pcp6 == if open6 then None else if was6 then First(seen6) else old(found.pcp6)
      invariant withdrawn ==> !c.kept && readF + 1 == n
      invariant if !wasF then readF == read else openF || readF == n || (!c.kept && readF + 1 == n)
      decreases (if open4 then 1 else 0) + (if open6 then 1 else 0) + (if openF then 1 else 0) + n - readF
    {
      // A fallback sender can give up between two receives.
      var leave: bool := *;
      withdrawn := withdrawn || (leave && !c.kept && readF < n);
      var shut4, shut6, shutF: bool := *, *, *; // closed, and visibly so
      var ready4 := open4 && (seen4 != [] || (shut4 && pcp4s.items == [] && pcp4s.closes));
      var ready6 := open6 && (seen6 != [] || (shut6 && pcp6s.items == [] && pcp6s.closes));
      var nextF := openF && readF < n && !withdrawn;
      var lastF := openF && shutF && readF == |fallbacks.items| && fallbacks.closes;
      if {
        case ready4 =>
          open4 := false;
          found.KeepPCPv4(First(seen4));
        case ready6 =>
          open6 := false;
          found.KeepPCPv6(First(seen6));
        case nextF =>
          found.KeepFallback(Some(fallbacks.items[readF]));
          readF := readF + 1;
        case lastF =>
          openF := false;
          found.KeepFallback(None);
        case !ready4 && !ready6 && !nextF && !lastF =>
          open4, open6, openF := false, false, false;
      }
    }
  }
}
