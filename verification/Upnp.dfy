/**
 `upnp_NAT`: the cache of external ports, against the history of what the device
 acknowledged, and what the device can have beyond the cache.
 */
module Upnp {
  import opened Basics

  // ---------------------------------------------------------------- the device and its history

  datatype PortKey = PortKey(protocol: string, port: uint16)

  /** What becomes of a call: no effect; an effect, but an error for the caller; or both well. */
  datatype Effect = Refused | Unheard | Acknowledged

  /** One call to the device on behalf of `key`. */
  datatype DeviceCall =
    | AddCall(key: PortKey, ext: uint16, effect: Effect)
    | DeleteCall(key: PortKey, ext: uint16, effect: Effect)
  {
    predicate Acked() {
      effect == Acknowledged
    }

    predicate Took() {
      effect != Refused
    }
  }

  /** The IGD behind `upnp_NAT_Client`; what becomes of each call is not the caller's to know. */
  class Device {
    var log: seq<DeviceCall>

    constructor ()
      ensures log == []
    {
      log := [];
    }

    method AddPortMappingCtx(key: PortKey, ext: uint16, effect: Effect) returns (ok: bool)
      modifies this
      ensures log == old(log) + [AddCall(key, ext, effect)] && ok == (effect == Acknowledged)
    {
      log := log + [AddCall(key, ext, effect)];
      ok := effect == Acknowledged;
    }

    method DeletePortMappingCtx(key: PortKey, ext: uint16, effect: Effect) returns (ok: bool)
      modifies this
      ensures log == old(log) + [DeleteCall(key, ext, effect)] && ok == (effect == Acknowledged)
    {
      log := log + [DeleteCall(key, ext, effect)];
      ok := effect == Acknowledged;
    }
  }

  /** Call `i` is the last one for `key` that the device acknowledged. */
  ghost predicate LastAcked(log: seq<DeviceCall>, key: PortKey, i: nat) {
    && i < |log| && log[i].key == key && log[i].Acked()
    && forall j :: i < j < |log| && log[j].key == key ==> !log[j].Acked()
  }

  /** What the acknowledged calls amount to, replayed in order. */
  function Replay(log: seq<DeviceCall>): map<PortKey, uint16> {
    if log == [] then map[]
    else
      var before := Replay(log[..|log|-1]);
      var c := log[|log|-1];
      if !c.Acked() then before
      else if c.AddCall? then before[c.key := c.ext]
      else before - {c.key}
  }

  /** The replay knows a key exactly when its last acknowledged call was an add, of that port. */
  lemma {:induction false} ReplayIsLastAcked(log: seq<DeviceCall>, key: PortKey)
    ensures key in Replay(log) <==> exists i: nat :: LastAcked(log, key, i) && log[i].AddCall?
    ensures forall i: nat :: LastAcked(log, key, i) && log[i].AddCall? ==>
              key in Replay(log) && Replay(log)[key] == log[i].ext
    decreases |log|
  {
    if log != [] {
      var n := |log| - 1;
      var before := log[..n];
      ReplayIsLastAcked(before, key);
      if log[n].key == key && log[n].Acked() {
        assert LastAcked(log, key, n);
        assert forall i: nat :: LastAcked(log, key, i) ==> i == n;
      } else {
        assert !LastAcked(log, key, n);
        forall i: nat | i < n ensures LastAcked(log, key, i) <==> LastAcked(before, key, i) {
          assert forall j :: 0 <= j < n ==> log[j] == before[j];
        }
        assert forall i: nat :: LastAcked(log, key, i) ==> i < n && before[i] == log[i];
      }
    }
  }

  lemma ReplayStep(log: seq<DeviceCall>, c: DeviceCall)
    ensures Replay(log + [c]) == (if !c.Acked() then Replay(log)
                                  else if c.AddCall? then Replay(log)[c.key := c.ext] else Replay(log) - {c.key})
  {
    assert (log + [c])[..|log|] == log;
  }

  // ---------------------------------------------------------------- upnp_NAT

  function MapProtocol(s: string): Option<string> {
    if s == "udp" then Some("UDP") else if s == "tcp" then Some("TCP") else None
  }

  /** Only the two lower-case names are known. */
  lemma KnownProtocols(s: string)
    ensures MapProtocol("udp") == Some("UDP") && MapProtocol("tcp") == Some("TCP")
    ensures s !in {"udp", "tcp"} ==> MapProtocol(s) == None
  {
  }

  /** `uint16(internalPort)`: no range check, the conversion truncates. */
  function KeyOf(protocol: string, internalPort: int): (key: PortKey)
    ensures key.protocol == protocol && (internalPort - key.port) % 65536 == 0
    ensures 0 <= internalPort < 65536 ==> key.port == internalPort
  {
    PortKey(protocol, internalPort % 0x1_0000)
  }

  /** A draw from `random.Intn(math.MaxUint16 - 10000)`. */
  type Draw = d: nat | d < 65535 - 10000 witness 0

  function RandomPort(d: Draw): (p: uint16)
    ensures 10000 <= p <= 65534
  {
    d + 10000
  }

  /** What the world decides for one add: the local address, the draws, the device's answers. */
  datatype AddWorld = AddWorld(addressKnown: bool, renewed: Effect, draws: seq<Draw>, answers: seq<Effect>)

  predicate Complete(w: AddWorld) {
    |w.draws| == 3 && |w.answers| == 3
  }

  datatype UpnpError = InvalidProtocol | NoInternalAddress | DeviceRefused

  /** The calls of one add: the cached port first, if there is one, then up to three new ones. */
  function AddCalls(cached: Option<uint16>, key: PortKey, w: AddWorld): seq<DeviceCall>
    requires Complete(w)
  {
    if cached.None? then Tries(key, w, 0)
    else [AddCall(key, cached.value, w.renewed)] + if w.renewed == Acknowledged then [] else Tries(key, w, 0)
  }

  function Tries(key: PortKey, w: AddWorld, i: nat): seq<DeviceCall>
    requires Complete(w) && i <= 3
    decreases 3 - i
  {
    if i == 3 then []
    else [AddCall(key, RandomPort(w.draws[i]), w.answers[i])]
         + if w.answers[i] == Acknowledged then [] else Tries(key, w, i + 1)
  }

  /** At most four calls, all for the key, and only the last can have been acknowledged. */
  lemma AddCallsShape(cached: Option<uint16>, key: PortKey, w: AddWorld)
    requires Complete(w)
    ensures var calls := AddCalls(cached, key, w);
            && 1 <= |calls| <= 4
            && (forall i :: 0 <= i < |calls| ==> calls[i].AddCall? && calls[i].key == key)
            && (forall i :: 0 <= i < |calls| - 1 ==> !calls[i].Acked())
            && (cached.Some? ==> calls[0].ext == cached.value && calls[0].effect == w.renewed)
            && (var skip := if cached.Some? then 1 else 0;
                forall i :: skip <= i < |calls| ==>
                  calls[i].ext == (w.draws[i - skip] as int) + 10000 && calls[i].effect == w.answers[i - skip])
            && (forall i :: 0 <= i < |calls| && (i > 0 || cached.None?) ==> 10000 <= calls[i].ext <= 65534)
            && (!calls[|calls|-1].Acked() ==> |calls| == if cached.Some? then 4 else 3)
  {
    var t := Tries(key, w, 0);
    assert Tries(key, w, 2) == [AddCall(key, RandomPort(w.draws[2]), w.answers[2])];
    assert 1 <= |t| <= 3 && forall i :: 0 <= i < |t| ==> t[i].AddCall? && t[i].key == key && 10000 <= t[i].ext <= 65534;
    assert forall i :: 0 <= i < |t| - 1 ==> !t[i].Acked();
    assert forall i :: 0 <= i < |t| ==> t[i].ext == (w.draws[i] as int) + 10000 && t[i].effect == w.answers[i];
  }

  /** One more try moves one call from what is to come into the log. */
  lemma OneMoreTry(log: seq<DeviceCall>, key: PortKey, w: AddWorld, i: nat)
    requires Complete(w) && i < 3
    ensures var port := RandomPort(w.draws[i]); var after := log + [AddCall(key, port, w.answers[i])];
            && log + Tries(key, w, i) == (if w.answers[i] == Acknowledged then after else after + Tries(key, w, i + 1))
            && Replay(after) == (if w.answers[i] == Acknowledged then Replay(log)[key := port] else Replay(log))
  {
    var call := AddCall(key, RandomPort(w.draws[i]), w.answers[i]);
    ReplayStep(log, call);
    var rest := Tries(key, w, i + 1);
    if w.answers[i] == Acknowledged {
      assert Tries(key, w, i) == [call];
    } else {
      assert Tries(key, w, i) == [call] + rest;
      assert log + ([call] + rest) == (log + [call]) + rest;
    }
  }

  class UpnpNat {
    const c: Device
    var ports: map<PortKey, uint16>

    /** The cache is the replay of what the device acknowledged, so presence means a port > 0. */
    ghost predicate Valid()
      reads this, c
    {
      ports == Replay(c.log) && forall k :: k in ports ==> 10000 <= ports[k] <= 65534
    }

    constructor (c: Device)
      requires c.log == []
      ensures Valid() && this.c == c
    {
      this.c := c;
      ports := map[];
    }

    method AddPortMapping(protocol: string, internalPort: int, w: AddWorld) returns (r: Result<uint16, UpnpError>)
      requires Valid() && Complete(w)
      modifies this, c
      ensures Valid()
      ensures MapProtocol(protocol).None? || !w.addressKnown ==>
                && r == Err(if MapProtocol(protocol).None? then InvalidProtocol else NoInternalAddress)
                && ports == old(ports) && c.log == old(c.log)
      ensures MapProtocol(protocol).Some? && w.addressKnown ==>
                var key := KeyOf(MapProtocol(protocol).value, internalPort);
                var cached := if key in old(ports) then Some(old(ports)[key]) else None;
                var calls := AddCalls(cached, key, w);
                && c.log == old(c.log) + calls
                && (r.Ok? <==> calls[|calls|-1].Acked())
                && (r.Ok? ==> r.value == calls[|calls|-1].ext && ports == old(ports)[key := r.value])
                && (r.Err? ==> r.error == DeviceRefused && ports == old(ports))
    {
      var proto := MapProtocol(protocol);
      if proto.None? {
        return Err(InvalidProtocol);
      }
      if !w.addressKnown {
        return Err(NoInternalAddress);
      }
      var key := KeyOf(proto.value, internalPort);
      var externalPort: uint16 := if key in ports then ports[key] else 0;
      AddCallsShape(if key in ports then Some(ports[key]) else None, key, w);
      if externalPort > 0 {
        ReplayStep(c.log, AddCall(key, externalPort, w.renewed));
        var ok := c.AddPortMappingCtx(key, externalPort, w.renewed);
        if ok {
          assert ports == ports[key := externalPort];
          return Ok(externalPort);
        }
      }
      r := TryNewPorts(key, w);
    }

    method TryNewPorts(key: PortKey, w: AddWorld) returns (r: Result<uint16, UpnpError>)
      requires Valid() && Complete(w)
      modifies this, c
      ensures Valid()
      ensures var calls := Tries(key, w, 0);
              && c.log == old(c.log) + calls && |calls| > 0
              && (r.Ok? <==> calls[|calls|-1].Acked())
              && (r.Ok? ==> r.value == calls[|calls|-1].ext && ports == old(ports)[key := r.value])
              && (r.Err? ==> r.error == DeviceRefused && ports == old(ports))
    {
      ghost var goal := c.log + Tries(key, w, 0);
      for i := 0 to 3
        invariant ports == old(ports) == Replay(c.log)
        invariant c.log + Tries(key, w, i) == goal
        invariant i > 0 ==> |c.log| > 0 && !c.log[|c.log|-1].Acked()
      {
        var port := RandomPort(w.draws[i]);
        OneMoreTry(c.log, key, w, i);
        var ok := c.AddPortMappingCtx(key, port, w.answers[i]);
        if ok {
          ports := ports[key := port];
          return Ok(port);
        }
      }
      assert c.log + Tries(key, w, 3) == c.log;
      return Err(DeviceRefused);
    }

    method DeletePortMapping(protocol: string, internalPort: int, effect: Effect) returns (r: Option<UpnpError>)
      requires Valid()
      modifies this, c
      ensures Valid()
      ensures MapProtocol(protocol).None? ==>
                r == Some(InvalidProtocol) && ports == old(ports) && c.log == old(c.log)
      ensures MapProtocol(protocol).Some? ==>
                var key := KeyOf(MapProtocol(protocol).value, internalPort);
                if key !in old(ports) then r.None? && ports == old(ports) && c.log == old(c.log)
                else c.log == old(c.log) + [DeleteCall(key, old(ports)[key], effect)]
                     && r == (if effect == Acknowledged then None else Some(DeviceRefused))
                     && ports == if effect == Acknowledged then old(ports) - {key} else old(ports)
    {
      var proto := MapProtocol(protocol);
      if proto.None? {
        return Some(InvalidProtocol);
      }
      var key := KeyOf(proto.value, internalPort);
      if key !in ports {
        return None;
      }
      ReplayStep(c.log, DeleteCall(key, ports[key], effect));
      var ok := c.DeletePortMappingCtx(key, ports[key], effect);
      if !ok {
        return Some(DeviceRefused);
      }
      ports := ports - {key};
      return None;
    }
  }

  // ---------------------------------------------------------------- what the device still has

  /** External ports the device has for `key`, whoever heard of it. */
  function OnDevice(log: seq<DeviceCall>, key: PortKey): set<uint16> {
    if log == [] then {}
    else
      var before := OnDevice(log[..|log|-1], key);
      var c := log[|log|-1];
      if !c.Took() || c.key != key then before
      else if c.AddCall? then before + {c.ext}
      else before - {c.ext}
  }

  function Cached(log: seq<DeviceCall>, key: PortKey): Option<uint16> {
    if key in Replay(log) then Some(Replay(log)[key]) else None
  }

  /** The device has nothing for `key` but what the cache says. */
  predicate NoOrphan(log: seq<DeviceCall>, key: PortKey) {
    forall p :: p in OnDevice(log, key) ==> Cached(log, key) == Some(p)
  }

  lemma OnDeviceStep(log: seq<DeviceCall>, c: DeviceCall, key: PortKey)
    ensures OnDevice(log + [c], key) == (if !c.Took() || c.key != key then OnDevice(log, key)
                                         else if c.AddCall? then OnDevice(log, key) + {c.ext}
                                         else OnDevice(log, key) - {c.ext})
  {
    assert (log + [c])[..|log|] == log;
  }

  /** Adds only ever put ports there. */
  lemma {:induction false} OnDeviceGrows(log: seq<DeviceCall>, calls: seq<DeviceCall>, key: PortKey, p: uint16)
    requires forall i :: 0 <= i < |calls| ==> calls[i].AddCall? && calls[i].key == key
    ensures p in OnDevice(log + calls, key)
            <==> p in OnDevice(log, key) || exists i :: 0 <= i < |calls| && calls[i].Took() && calls[i].ext == p
    decreases |calls|
  {
    if calls == [] {
      assert log + calls == log;
    } else {
      var n := |calls| - 1;
      var front := calls[..n];
      OnDeviceGrows(log, front, key, p);
      OnDeviceStep(log + front, calls[n], key);
      assert log + calls == (log + front) + [calls[n]];
      assert forall i :: 0 <= i < n ==> front[i] == calls[i];
      assert (exists i :: 0 <= i < |calls| && calls[i].Took() && calls[i].ext == p)
          <==> || (exists i :: 0 <= i < n && front[i].Took() && front[i].ext == p)
               || (calls[n].Took() && calls[n].ext == p);
    }
  }

  lemma {:induction false} ReplaySkips(log: seq<DeviceCall>, calls: seq<DeviceCall>)
    requires forall i :: 0 <= i < |calls| ==> !calls[i].Acked()
    ensures Replay(log + calls) == Replay(log)
    decreases |calls|
  {
    if calls == [] {
      assert log + calls == log;
    } else {
      ReplaySkips(log, calls[..|calls|-1]);
      ReplayStep(log + calls[..|calls|-1], calls[|calls|-1]);
      assert log + calls == (log + calls[..|calls|-1]) + [calls[|calls|-1]];
    }
  }

  /** What the cache holds for the key after an add. */
  lemma CachedAfterAdd(log: seq<DeviceCall>, key: PortKey, w: AddWorld)
    requires Complete(w)
    ensures var calls := AddCalls(Cached(log, key), key, w);
            && |calls| > 0
            && Cached(log + calls, key)
               == (if calls[|calls|-1].Acked() then Some(calls[|calls|-1].ext) else Cached(log, key))
  {
    var calls := AddCalls(Cached(log, key), key, w);
    AddCallsShape(Cached(log, key), key, w);
    var n := |calls| - 1;
    ReplaySkips(log, calls[..n]);
    ReplayStep(log + calls[..n], calls[n]);
    assert log + calls == (log + calls[..n]) + [calls[n]];
  }

  /**
   An add leaves a forgotten mapping on the device exactly when one of its calls took effect
   on a port other than the one cached in the end, heard of or not, or when the port cached
   before was there and was replaced.
   */
  lemma AddLeavesOrphan(log: seq<DeviceCall>, key: PortKey, w: AddWorld)
    requires Complete(w) && NoOrphan(log, key)
    ensures var cached := Cached(log, key);
            var calls := AddCalls(cached, key, w);
            var now := Cached(log + calls, key);
            !NoOrphan(log + calls, key) <==>
              || (exists i :: 0 <= i < |calls| && calls[i].Took() && now != Some(calls[i].ext))
              || (cached.Some? && cached.value in OnDevice(log, key) && now != cached)
  {
    var cached := Cached(log, key);
    var calls := AddCalls(cached, key, w);
    var now := Cached(log + calls, key);
    AddCallsShape(cached, key, w);
    forall p: uint16
      ensures p in OnDevice(log + calls, key)
              <==> p in OnDevice(log, key) || exists i :: 0 <= i < |calls| && calls[i].Took() && calls[i].ext == p
    {
      OnDeviceGrows(log, calls, key, p);
    }
    if i :| 0 <= i < |calls| && calls[i].Took() && now != Some(calls[i].ext) {
      assert calls[i].ext in OnDevice(log + calls, key);
    }
  }

  /** A delete leaves none, whatever becomes of it. */
  lemma DeleteLeavesNoOrphan(log: seq<DeviceCall>, key: PortKey, effect: Effect)
    requires NoOrphan(log, key) && key in Replay(log)
    ensures NoOrphan(log + [DeleteCall(key, Replay(log)[key], effect)], key)
  {
    var c := DeleteCall(key, Replay(log)[key], effect);
    OnDeviceStep(log, c, key);
    ReplayStep(log, c);
  }

  /** One way: a renewal that is refused, and a different port that is acknowledged. */
  lemma OrphanExample(key: PortKey) returns (log: seq<DeviceCall>, w: AddWorld)
    ensures Complete(w) && NoOrphan(log, key) && Cached(log, key) == Some(10000)
    ensures !NoOrphan(log + AddCalls(Some(10000), key, w), key)
  {
    log := [AddCall(key, 10000, Acknowledged)];
    w := AddWorld(true, Refused, [1, 2, 3], [Acknowledged, Acknowledged, Acknowledged]);
    var none: seq<DeviceCall> := [];
    OnDeviceStep(none, log[0], key);
    ReplayStep(none, log[0]);
    assert none + [log[0]] == log && OnDevice(none, key) == {};
    CachedAfterAdd(log, key, w);
    AddLeavesOrphan(log, key, w);
    assert AddCalls(Some(10000), key, w) == [AddCall(key, 10000, Refused), AddCall(key, 10001, Acknowledged)];
  }

  /** The other: nothing is cached, the answer to a try is lost, and the next one is acknowledged. */
  lemma LostAnswerExample(key: PortKey) returns (w: AddWorld)
    ensures Complete(w) && NoOrphan([], key)
    ensures !NoOrphan([] + AddCalls(None, key, w), key)
  {
    w := AddWorld(true, Refused, [1, 2, 3], [Unheard, Acknowledged, Acknowledged]);
    var none: seq<DeviceCall> := [];
    assert OnDevice(none, key) == {} && Cached(none, key) == None;
    var calls := AddCalls(None, key, w);
    assert calls == [AddCall(key, 10001, Unheard), AddCall(key, 10002, Acknowledged)];
    CachedAfterAdd(none, key, w);
    AddLeavesOrphan(none, key, w);
    assert calls[0].Took() && Cached(none + calls, key) == Some(10002);
  }
}
