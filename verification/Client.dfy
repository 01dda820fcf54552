/**
 `pcp.Client` talking bytes to a PCP server over a network that loses, duplicates and
 garbles them. Everything the world decides during one call is a `World` value, so a
 statement about all worlds is one about every behaviour of network and server.
 */
module Client {
  import opened Basics
  import opened MapRules
  import opened Wire
  import opened Errors
  import Epoch

  const DEFAULT_LIFETIME: uint32 := 7200

  // ---------------------------------------------------------------- the world

  /** What the server fills in when it handles a request; `refusal` if it will not. */
  datatype ServerAnswer = ServerAnswer(
    refusal: Option<Refusal>, lifetime: uint32, epoch: uint32, externalPort: uint16, externalIP: Addr)

  /** Events on the server while an exchange goes on. */
  datatype Happening =
    | Arrives(ans: ServerAnswer)   // a copy of this exchange's request; the reply is lost
    | Expires(key: Key)
    | Restarts
    | OtherMaps(key: Key, nonce: Nonce)
    | OtherUnmaps(key: Key, nonce: Nonce)

  datatype Fate =
    | Unanswered                   // the attempt fails and the context is alive
    | ContextDone                  // the attempt fails because the context is done
    | Noise(bytes: seq<byte>)      // a packet that is not the server's reply, or the empty one
    | Served(ans: ServerAnswer)    // the request is handled and its reply received

  datatype Attempt = Attempt(before: seq<Happening>, fate: Fate, after: seq<Happening>, took: real, jitter: byte)

  datatype World = World(attempts: seq<Attempt>, candidate: Option<Nonce>, now: nat)

  function AttemptAt(attempts: seq<Attempt>, i: nat): Attempt {
    if i < |attempts| then attempts[i] else Attempt([], Unanswered, [], 0.0, 0)
  }

  // ---------------------------------------------------------------- the server

  predicate IsRequest(req: seq<byte>) {
    IsMapRequest(req) || (|req| >= HEADER_SIZE && req[0] == VERSION && req[1] == OP_ANNOUNCE)
  }

  /** A MAP request's meaning; an ANNOUNCE is about no mapping. */
  function Meaning(req: seq<byte>): Option<Decoded> {
    if IsMapRequest(req) then Some(DecodeMapRequest(req)) else None
  }

  function AnswerTo(table: Table, about: Option<Decoded>, refusal: Option<Refusal>): Answered {
    match about
    case Some(d) => Answer(table, d.key, d.nonce, d.lifetime, refusal)
    case None => Answered(if refusal.Some? then refusal.value else SUCCESS, table)
  }

  function Reply(req: seq<byte>, code: byte, ans: ServerAnswer): seq<byte> {
    match Meaning(req)
    case Some(d) => MapReplyBytes(d, code, ans.lifetime, ans.epoch, ans.externalPort, ans.externalIP)
    case None => AnnounceReplyBytes(code, ans.epoch)
  }

  function AfterOne(table: Table, about: Option<Decoded>, h: Happening): Table {
    match h
    case Arrives(ans) => AnswerTo(table, about, ans.refusal).table
    case Expires(key) => table - {key}
    case Restarts => map[]
    case OtherMaps(key, nonce) => OthersMap(table, key, nonce)
    case OtherUnmaps(key, nonce) => OthersUnmap(table, key, nonce)
  }

  function After(table: Table, about: Option<Decoded>, hs: seq<Happening>): Table
    decreases |hs|
  {
    if hs == [] then table else After(AfterOne(table, about, hs[0]), about, hs[1..])
  }

  class Server {
    var table: Table

    constructor ()
      ensures table == map[]
    {
      table := map[];
    }

    /** Section 11.3: a mapping answers only to the nonce it was created with. */
    method Handle(req: seq<byte>, ans: ServerAnswer) returns (reply: seq<byte>)
      modifies this
      ensures table == (if IsRequest(req) then AnswerTo(old(table), Meaning(req), ans.refusal).table else old(table))
      ensures reply == if IsRequest(req)
                       then Reply(req, AnswerTo(old(table), Meaning(req), ans.refusal).code, ans) else []
    {
      reply := [];
      if |req| < HEADER_SIZE || req[0] != VERSION {
        return;
      }
      var code: byte := if ans.refusal.Some? then ans.refusal.value else SUCCESS;
      if req[1] == OP_ANNOUNCE {
        reply := AnnounceReplyBytes(code, ans.epoch);
      } else if req[1] == OP_MAP && |req| >= MAP_SIZE {
        var d := DecodeMapRequest(req);
        if d.key in table && table[d.key].nonce != d.nonce {
          code := NOT_AUTHORIZED;
        } else if code == SUCCESS {
          if d.lifetime == 0 {
            table := table - {d.key};
          } else {
            table := table[d.key := Entry(d.nonce, Ours)];
          }
        }
        reply := MapReplyBytes(d, code, ans.lifetime, ans.epoch, ans.externalPort, ans.externalIP);
      }
    }

    method Endure(req: seq<byte>, hs: seq<Happening>)
      requires IsRequest(req)
      modifies this
      ensures table == After(old(table), Meaning(req), hs)
    {
      for i := 0 to |hs|
        invariant After(table, Meaning(req), hs[i..]) == After(old(table), Meaning(req), hs)
      {
        match hs[i] {
          case Arrives(ans) => var _ := Handle(req, ans);
          case Expires(key) => table := table - {key};
          case Restarts => table := map[];
          case OtherMaps(key, nonce) => table := OthersMap(table, key, nonce);
          case OtherUnmaps(key, nonce) => table := OthersUnmap(table, key, nonce);
        }
        assert hs[i..][1..] == hs[i+1..];
      }
    }
  }

  // ---------------------------------------------------------------- one exchange

  datatype Outcome = Replied(code: byte, ans: ServerAnswer) | Heard(noise: seq<byte>) | Failed(cause: Cause)

  datatype Tried = Tried(table: Table, outcome: Option<Outcome>)
  datatype Travelled = Travelled(table: Table, outcome: Outcome)

  /** One attempt; no outcome means the next may be made. */
  function TryOnce(table: Table, about: Option<Decoded>, a: Attempt): Tried {
    var t1 := After(table, about, a.before);
    match a.fate
    case Served(ans) =>
      var t2 := AnswerTo(t1, about, ans.refusal);
      Tried(After(t2.table, about, a.after), Some(Replied(t2.code, ans)))
    case Noise(bytes) => Tried(After(t1, about, a.after), Some(Heard(bytes)))
    case ContextDone => Tried(After(t1, about, a.after), Some(Failed(ContextEnded)))
    case Unanswered => Tried(After(t1, about, a.after), None)
  }

  /** What up to four attempts do to the server, and how they end. */
  function Travel(table: Table, about: Option<Decoded>, attempts: seq<Attempt>, i: nat): Travelled
    decreases MAX_RETRIES - i
  {
    var once := TryOnce(table, about, AttemptAt(attempts, i));
    if once.outcome.Some? then Travelled(once.table, once.outcome.value)
    else if i + 1 >= MAX_RETRIES then Travelled(once.table, Failed(NoAnswer))
    else Travel(once.table, about, attempts, i + 1)
  }

  /** Nobody but the server knows the nonce: noise that would carry it is not heard. */
  function Audible(noise: seq<byte>, req: seq<byte>): seq<byte> {
    if IsMapRequest(req) && |noise| >= MAP_SIZE && noise[24..36] == req[24..36] then [] else noise
  }

  function Received(req: seq<byte>, o: Outcome): Result<seq<byte>, Err> {
    match o
    case Replied(code, ans) => Ok(Reply(req, code, ans))
    case Heard(noise) => Ok(Audible(noise, req))
    case Failed(cause) => Err(Base(cause))
  }

  /** RFC 6887 section 8.1.1: the delay times a factor between 0.9 and 1.1. */
  function RetryDelayWithJitter(delay: real, b: byte): real {
    delay * (1.0 + (b as real / 255.0) * 0.2 - 0.1)
  }

  lemma JitterBounds(delay: real, b: byte)
    requires delay >= 0.0
    ensures 0.9 * delay <= RetryDelayWithJitter(delay, b) <= 1.1 * delay
  {
    var p := b as real / 255.0;
    Portion(delay, p);
    assert RetryDelayWithJitter(delay, b) == 0.9 * delay + 0.2 * (delay * p);
  }

  /** The byte drawn spreads the wait evenly over that range. */
  lemma JitterSpread(delay: real, b: byte)
    ensures RetryDelayWithJitter(delay, 0) == 0.9 * delay && RetryDelayWithJitter(delay, 255) == 1.1 * delay
    ensures b < 255 ==> RetryDelayWithJitter(delay, b + 1) - RetryDelayWithJitter(delay, b) == delay * 0.2 / 255.0
  {
    if b < 255 {
      var x, y := b as real / 255.0, (b + 1) as real / 255.0;
      assert y - x == 1.0 / 255.0;
      assert RetryDelayWithJitter(delay, b + 1) - RetryDelayWithJitter(delay, b) == delay * (y * 0.2 - x * 0.2);
    }
  }

  lemma Portion(d: real, p: real)
    requires d >= 0.0 && 0.0 <= p <= 1.0
    ensures 0.0 <= d * p <= d
  {
    assert d * (1.0 - p) >= 0.0;
  }

  /** The nominal wait before the second, third and fourth attempt, in seconds. */
  function Delay(attempt: nat): real {
    if attempt == 0 then 3.0 else if attempt == 1 then 6.0 else if attempt == 2 then 12.0 else 24.0
  }

  /** The nominal waits after the first `n` attempts. */
  function Waits(n: nat): real {
    if n == 0 then 0.0 else Waits(n - 1) + if n < MAX_RETRIES then Delay(n - 1) else 0.0
  }

  lemma WaitsTotal()
    ensures Waits(MAX_RETRIES) == 3.0 + 6.0 + 12.0
  {
    assert Waits(1) == 3.0 && Waits(2) == 9.0 && Waits(3) == 21.0;
  }

  /** The most time `n` attempts take, with the waits that follow them. */
  function Budget(n: nat, limit: real): real {
    if n == 0 then 0.0
    else Budget(n - 1, limit) + limit + (if n < MAX_RETRIES then 1.1 * Delay(n - 1) else 0.0)
  }

  lemma {:induction false} BudgetTotal(n: nat, limit: real)
    requires n <= MAX_RETRIES && limit > 0.0
    ensures Budget(n, limit) <= 4.0 * limit + 1.1 * (3.0 + 6.0 + 12.0)
  {
    assert Budget(1, limit) == limit + 3.3;
    assert Budget(2, limit) == 2.0 * limit + 9.9;
    assert Budget(3, limit) == 3.0 * limit + 23.1;
    assert Budget(4, limit) == 4.0 * limit + 23.1;
  }

  // ---------------------------------------------------------------- the client

  /** `sent` is the history of requests the client has made of the network, as bytes. */
  datatype ClientState = ClientState(
    gateway: bool, localIP: Addr, tracker: Epoch.Tracker, externalIP: Addr, nonces: Nonces, sent: seq<seq<byte>>)

  datatype MapArgs = MapArgs(protocol: string, internalPort: int, suggestedPort: int, suggestedIP: Addr, lifetime: int)

  function ProtocolNumber(protocol: string): Option<byte> {
    if protocol == "udp" || protocol == "UDP" then Some(17)
    else if protocol == "tcp" || protocol == "TCP" then Some(6)
    else None
  }

  /** Nanoseconds to the wire's seconds; a positive lifetime never becomes a delete. */
  function LifetimeSeconds(lifetime: int): (s: uint32)
    ensures s == 0 <==> lifetime <= 0
    ensures 0 < lifetime < 1_000_000_000 ==> s == 7200
    ensures 1_000_000_000 <= lifetime < 0x1_0000_0000 * 1_000_000_000 ==>
              s * 1_000_000_000 <= lifetime < (s + 1) * 1_000_000_000
  {
    if lifetime <= 0 then 0
    else
      var s := (lifetime / 1_000_000_000) % TWO_TO_THE_32;
      if s == 0 then DEFAULT_LIFETIME else s
  }

  predicate IsUnspecified(a: Addr) {
    a == UNSPECIFIED4 || a == UNSPECIFIED6
  }

  function CachedIP(cached: Addr, ip: Addr): Addr {
    if ip != NoAddr && !IsUnspecified(ip) then ip else cached
  }

  datatype Called<T> = Called(client: ClientState, table: Table, result: Result<T, Err>)

  function CheckArgs(c: ClientState, a: MapArgs, w: World): Option<Cause> {
    if a.internalPort <= 0 || a.internalPort > 65535 then Some(BadInternalPort)
    else if a.suggestedPort < 0 || a.suggestedPort > 65535 then Some(BadExternalPort)
    else if c.localIP == NoAddr then Some(NoLocalIP)
    else if ProtocolNumber(a.protocol).None? then Some(BadProtocol)
    else if w.candidate.None? then Some(NoEntropy)
    else None
  }

  function KeyOf(protocol: string, internalPort: int): Key
    requires ProtocolNumber(protocol).Some? && 0 <= internalPort <= 65535
  {
    Key(ProtocolNumber(protocol).value, internalPort)
  }

  /** The request of a call with good arguments, free of its encoding. */
  function Asked(c: ClientState, a: MapArgs, w: World): Decoded
    requires CheckArgs(c, a, w).None?
  {
    var key := KeyOf(a.protocol, a.internalPort);
    Decoded(key, NonceToSend(c.nonces, key, w.candidate.value), LifetimeSeconds(a.lifetime))
  }

  /** The request as it is encoded. */
  function RequestFor(c: ClientState, a: MapArgs, d: Decoded): MapRequest
    requires 0 <= a.suggestedPort <= 65535
  {
    MapRequest(c.localIP, d.nonce, d.key.proto, d.key.port, a.suggestedPort, a.suggestedIP, d.lifetime)
  }

  function Granted(d: Decoded, ans: ServerAnswer): MapResponse {
    MapResponse(Response(VERSION, OP_MAP + OP_REPLY, SUCCESS, ans.lifetime, ans.epoch),
                d.nonce, d.key.proto, d.key.port, ans.externalPort, Canonical(ans.externalIP))
  }

  function Accept(c: ClientState, d: Decoded, ans: ServerAnswer, now: nat): ClientState {
    c.(tracker := Epoch.Update(c.tracker, ans.epoch, now),
       externalIP := CachedIP(c.externalIP, Canonical(ans.externalIP)),
       nonces := AfterAccept(c.nonces, d.key, d.lifetime))
  }

  /** A MAP call without the wire: what it does to client and server, and what it returns. */
  function MapCall(c: ClientState, table: Table, a: MapArgs, w: World): Called<MapResponse> {
    if CheckArgs(c, a, w).Some? then Called(c, table, Err(Base(CheckArgs(c, a, w).value)))
    else
      var d := Asked(c, a, w);
      var c1 := c.(nonces := AfterPick(c.nonces, d.key, w.candidate.value, d.lifetime));
      if !c.gateway then Called(c1, table, Err(Base(NoGateway)))
      else
        var c2 := c1.(sent := c.sent + [MapRequestBytes(RequestFor(c, a, d))]);
        var tr := Travel(table, Some(d), w.attempts, 0);
        var r := Judged(d, tr.outcome);
        Called(if r.Ok? then Accept(c2, d, tr.outcome.ans, w.now) else c2, tr.table, r)
  }

  function AddArgs(protocol: string, internalPort: int, lifetime: int): MapArgs {
    MapArgs(protocol, internalPort, internalPort, NoAddr, lifetime)
  }

  datatype Deleted = Deleted(client: ClientState, table: Table, error: Option<Err>)

  function DeleteCall(c: ClientState, table: Table, protocol: string, internalPort: int, w: World): Deleted {
    var m := MapCall(c, table, MapArgs(protocol, internalPort, 0, NoAddr, 0), w);
    Deleted(m.client, m.table, if m.result.Err? then Some(Wrapped("delete mapping: ", m.result.error)) else None)
  }

  function EphemeralPort(clock: nat): (port: int)
    ensures 49152 <= port <= 65534
    ensures (clock % 0x1_0000 - (port - 49152)) % 16383 == 0
  {
    49152 + (clock % 0x1_0000) % (65535 - 49152)
  }

  function ExternalCall(c: ClientState, table: Table, clock: nat, create: World, remove: World): Called<Addr> {
    if c.externalIP != NoAddr then Called(c, table, Ok(c.externalIP))
    else
      var m := MapCall(c, table, AddArgs("udp", EphemeralPort(clock), 1_000_000_000), create);
      if m.result.Err? then Called(m.client, m.table, Err(Wrapped("create temporary mapping: ", m.result.error)))
      else
        var d := DeleteCall(m.client, m.table, "udp", EphemeralPort(clock), remove);
        Called(d.client, d.table, Ok(m.result.value.externalIP))
  }

  /** What the caller of a MAP exchange is told. */
  function Judged(d: Decoded, o: Outcome): (r: Result<MapResponse, Err>)
    ensures r.Ok? <==> o.Replied? && o.code == SUCCESS
  {
    match o
    case Replied(code, ans) => if code == SUCCESS then Ok(Granted(d, ans)) else Err(Base(Pcp(code)))
    case Heard(_) => Err(Base(BadReply))
    case Failed(cause) => Err(Base(cause))
  }

  function AnnounceCall(c: ClientState, table: Table, w: World): Called<uint32> {
    if c.localIP == NoAddr then Called(c, table, Err(Base(NoLocalIP)))
    else if !c.gateway then Called(c, table, Err(Base(NoGateway)))
    else
      var c1 := c.(sent := c.sent + [AnnounceRequestBytes(c.localIP)]);
      var tr := Travel(table, None, w.attempts, 0);
      match tr.outcome
      case Replied(code, ans) => Announced(c1, tr.table, code, ans.epoch, w.now)
      case Heard(noise) =>
        (match ParseResponse(noise)
         case Ok(h) => Announced(c1, tr.table, h.resultCode, h.epoch, w.now)
         case Err(_) => Called(c1, tr.table, Err(Base(BadReply))))
      case Failed(cause) => Called(c1, tr.table, Err(Base(cause)))
  }

  function Announced(c: ClientState, table: Table, code: byte, epoch: uint32, now: nat): Called<uint32> {
    if code != SUCCESS then Called(c, table, Err(Base(Pcp(code))))
    else Called(c.(tracker := Epoch.Update(c.tracker, epoch, now)), table, Ok(epoch))
  }

  /** No noise gets past the parser with the nonce of the request. */
  lemma NoiseIsRejected(m: MapRequest, noise: seq<byte>)
    ensures var p := ParseMapResponse(Audible(noise, MapRequestBytes(m))); p.Ok? ==> p.value.nonce != m.nonce
  {
    MapRequestLayout(m);
  }

  class Client {
    var gateway: bool
    var timeout: real
    var localIP: Addr
    var lastEpoch: uint32
    var epochTime: Option<nat>
    var externalIP: Addr
    var epochStateLost: bool
    var nonces: Nonces
    var sent: seq<seq<byte>>

    ghost function State(): ClientState
      reads this
    {
      ClientState(gateway, localIP, Epoch.Tracker(lastEpoch, epochTime, epochStateLost),
                  externalIP, nonces, sent)
    }

    constructor (gateway: bool, timeout: real)
      ensures State() == ClientState(gateway, NoAddr, Epoch.Tracker(0, None, false), NoAddr, map[], [])
      ensures this.timeout == timeout
    {
      this.gateway, this.timeout := gateway, timeout;
      localIP, externalIP := NoAddr, NoAddr;
      lastEpoch, epochTime, epochStateLost := 0, None, false;
      nonces, sent := map[], [];
    }

    method SetLocalIP(ip: Addr)
      modifies this`localIP
      ensures localIP == Unmap(ip)
    {
      localIP := Unmap(ip);
    }

    /** Reads the restart flag and clears it. */
    method EpochStateLost() returns (lost: bool)
      modifies this`epochStateLost
      ensures lost == old(epochStateLost)
      ensures State().tracker == Epoch.Step(old(State()).tracker, Epoch.Read)
    {
      lost := epochStateLost;
      epochStateLost := false;
    }

    method UpdateEpochLocked(newEpoch: uint32, now: nat) returns (stateLost: bool)
      modifies this`lastEpoch, this`epochTime, this`epochStateLost
      ensures State().tracker == Epoch.Update(old(State()).tracker, newEpoch, now)
      ensures stateLost == Epoch.Verdict(old(State()).tracker, newEpoch, now)
    {
      stateLost := false;
      if epochTime.Some? && lastEpoch > 0 {
        var clientDelta: int := Epoch.WholeSeconds(epochTime.value, now);
        var serverDelta: int := Epoch.Wrap(newEpoch - lastEpoch);
        if Epoch.Wrap(clientDelta + 2) < serverDelta - serverDelta / 16
           || Epoch.Wrap(serverDelta + 2) < clientDelta - clientDelta / 16 {
          stateLost := true;
          epochStateLost := true;
        }
      }
      lastEpoch := newEpoch;
      epochTime := Some(now);
    }

    method CacheExternalIPLocked(ip: Addr)
      modifies this`externalIP
      ensures externalIP == CachedIP(old(externalIP), ip)
    {
      if ip != NoAddr && !IsUnspecified(ip) {
        externalIP := ip;
      }
    }

    function AttemptTimeout(): (t: real)
      reads this`timeout
      ensures t > 0.0
      ensures if timeout > 0.0 then t == timeout else t == 3.0
    {
      if timeout <= 0.0 then 3.0 else timeout
    }

    /** One attempt on a socket of its own; `done` unless another may follow. */
    method SendOnce(server: Server, req: seq<byte>, a: Attempt) returns (r: Result<seq<byte>, Err>, done: bool)
      requires IsRequest(req)
      modifies server
      ensures var once := TryOnce(old(server.table), Meaning(req), a);
              && server.table == once.table && done == once.outcome.Some?
              && (done ==> r == Received(req, once.outcome.value))
    {
      r, done := Err(Base(NoAnswer)), true;
      server.Endure(req, a.before);
      match a.fate {
        case Served(ans) =>
          var reply := server.Handle(req, ans);
          r := Ok(reply);
        case Noise(bytes) => r := Ok(Audible(bytes, req));
        case ContextDone => r := Err(Base(ContextEnded));
        case Unanswered => done := false;
      }
      server.Endure(req, a.after);
    }

    /**
     Sends a request with retries. It ends within four attempts and the three waits
     between them, whatever the network does.
     */
    method SendRequest(server: Server, req: seq<byte>, attempts: seq<Attempt>)
      returns (r: Result<seq<byte>, Err>, elapsed: real)
      requires IsRequest(req)
      modifies server, this`sent
      ensures sent == if gateway then old(sent) + [req] else old(sent)
      ensures !gateway ==> r == Err(Base(NoGateway)) && server.table == old(server.table)
      ensures gateway ==>
                var tr := Travel(old(server.table), Meaning(req), attempts, 0);
                server.table == tr.table && r == Received(req, tr.outcome)
      ensures 0.0 <= elapsed <= 4.0 * AttemptTimeout() + 1.1 * (3.0 + 6.0 + 12.0)
      ensures r == Err(Base(NoAnswer)) ==> elapsed >= 0.9 * (3.0 + 6.0 + 12.0)
    {
      if !gateway {
        return Err(Base(NoGateway)), 0.0;
      }
      sent := sent + [req];
      r, elapsed := Exchange(server, req, attempts);
    }

    /** The retry loop. */
    method Exchange(server: Server, req: seq<byte>, attempts: seq<Attempt>)
      returns (r: Result<seq<byte>, Err>, elapsed: real)
      requires IsRequest(req)
      modifies server
      ensures var tr := Travel(old(server.table), Meaning(req), attempts, 0);
              server.table == tr.table && r == Received(req, tr.outcome)
      ensures 0.0 <= elapsed <= 4.0 * AttemptTimeout() + 1.1 * (3.0 + 6.0 + 12.0)
      ensures r == Err(Base(NoAnswer)) ==> elapsed >= 0.9 * (3.0 + 6.0 + 12.0)
    {
      elapsed := 0.0;
      var delay := 3.0;
      var limit := AttemptTimeout();
      for attempt := 0 to MAX_RETRIES
        invariant attempt < MAX_RETRIES ==> delay == Delay(attempt)
        invariant attempt < MAX_RETRIES ==>
            Travel(server.table, Meaning(req), attempts, attempt)
            == Travel(old(server.table), Meaning(req), attempts, 0)
        invariant attempt == MAX_RETRIES ==>
            Travel(old(server.table), Meaning(req), attempts, 0) == Travelled(server.table, Failed(NoAnswer))
        invariant 0.0 <= elapsed <= Budget(attempt, limit)
        invariant elapsed >= 0.9 * Waits(attempt)
      {
        var a := AttemptAt(attempts, attempt);
        var took := if a.took < 0.0 then 0.0 else if a.took > limit then limit else a.took;
        elapsed := elapsed + took;
        var done;
        r, done := SendOnce(server, req, a);
        if done {
          BudgetTotal(attempt + 1, limit);
          return;
        }
        if attempt < MAX_RETRIES - 1 {
          var wait := RetryDelayWithJitter(delay, a.jitter);
          JitterBounds(delay, a.jitter);
          elapsed := elapsed + wait;
          delay := if delay * 2.0 < 1024.0 then delay * 2.0 else 1024.0;
        }
      }
      BudgetTotal(MAX_RETRIES, limit);
      WaitsTotal();
      r := Err(Base(NoAnswer));
    }

    /** Builds the request, sends it, and checks what comes back. */
    method ExchangeMap(server: Server, m: MapRequest, attempts: seq<Attempt>) returns (r: Result<MapResponse, Err>)
      modifies server, this`sent
      ensures sent == if gateway then old(sent) + [MapRequestBytes(m)] else old(sent)
      ensures !gateway ==> r == Err(Base(NoGateway)) && server.table == old(server.table)
      ensures gateway ==>
                var d := Decoded(Key(m.protocol, m.internalPort), m.nonce, m.lifetime);
                var tr := Travel(old(server.table), Some(d), attempts, 0);
                server.table == tr.table && r == Judged(d, tr.outcome)
    {
      var packet := BuildMapRequest(m);
      var req := packet[..];
      ghost var d := Decoded(Key(m.protocol, m.internalPort), m.nonce, m.lifetime);
      DecodeBuiltRequest(m);
      var response, _ := SendRequest(server, req, attempts);
      if response.Err? {
        return Err(response.error);
      }
      ghost var o := Travel(old(server.table), Some(d), attempts, 0).outcome;
      match o {
        case Replied(code, ans) =>
          ParseBuiltReply(d, code, ans.lifetime, ans.epoch, ans.externalPort, ans.externalIP);
        case Heard(noise) => NoiseIsRejected(m, noise);
        case Failed(_) =>
      }
      var parsed := ParseMapResponse(response.value);
      if parsed.Err? {
        return Err(Base(BadReply));
      }
      var resp := parsed.value;
      if resp.nonce != m.nonce || resp.protocol != m.protocol || resp.internalPort != m.internalPort {
        return Err(Base(BadReply));
      }
      if resp.header.resultCode != SUCCESS {
        return Err(Base(Pcp(resp.header.resultCode)));
      }
      return Ok(resp);
    }

    method AddPortMappingWithHint(server: Server, a: MapArgs, w: World) returns (r: Result<MapResponse, Err>)
      modifies this, server
      ensures timeout == old(timeout)
      ensures var m := MapCall(old(State()), old(server.table), a, w);
              State() == m.client && server.table == m.table && r == m.result
    {
      if a.internalPort <= 0 || a.internalPort > 65535 {
        return Err(Base(BadInternalPort));
      }
      if a.suggestedPort < 0 || a.suggestedPort > 65535 {
        return Err(Base(BadExternalPort));
      }
      if localIP == NoAddr {
        return Err(Base(NoLocalIP));
      }
      var proto := ProtocolNumber(a.protocol);
      if proto.None? {
        return Err(Base(BadProtocol));
      }
      var lifetime := LifetimeSeconds(a.lifetime);
      if w.candidate.None? {
        return Err(Base(NoEntropy));
      }

      var key := Key(proto.value, a.internalPort);
      var nonce := if key in nonces then nonces[key] else w.candidate.value;
      if lifetime > 0 {
        nonces := nonces[key := nonce];
      }

      var m := MapRequest(localIP, nonce, key.proto, key.port, a.suggestedPort, a.suggestedIP, lifetime);
      r := ExchangeMap(server, m, w.attempts);
      if r.Err? {
        return;
      }
      var _ := UpdateEpochLocked(r.value.header.epoch, w.now);
      CacheExternalIPLocked(r.value.externalIP);
      if lifetime == 0 {
        nonces := nonces - {key};
      }
    }

    /** Deletes by asking for lifetime 0 of no particular external port. */
    method DeletePortMapping(server: Server, protocol: string, internalPort: int, w: World) returns (r: Option<Err>)
      modifies this, server
      ensures timeout == old(timeout)
      ensures var m := DeleteCall(old(State()), old(server.table), protocol, internalPort, w);
              State() == m.client && server.table == m.table && r == m.error
    {
      var mapped := AddPortMappingWithHint(server, MapArgs(protocol, internalPort, 0, NoAddr, 0), w);
      r := if mapped.Err? then Some(Wrapped("delete mapping: ", mapped.error)) else None;
    }

    /** The cached address, or that of a one-second mapping made for the purpose. */
    method GetExternalAddress(server: Server, clock: nat, create: World, remove: World) returns (r: Result<Addr, Err>)
      modifies this, server
      ensures timeout == old(timeout)
      ensures var m := ExternalCall(old(State()), old(server.table), clock, create, remove);
              State() == m.client && server.table == m.table && r == m.result
    {
      if externalIP != NoAddr {
        return Ok(externalIP);
      }
      var port := EphemeralPort(clock);
      var mapped := AddPortMappingWithHint(server, AddArgs("udp", port, 1_000_000_000), create);
      if mapped.Err? {
        return Err(Wrapped("create temporary mapping: ", mapped.error));
      }
      var _ := DeletePortMapping(server, "udp", port, remove);
      return Ok(mapped.value.externalIP);
    }

    method Announce(server: Server, w: World) returns (r: Result<uint32, Err>)
      modifies this, server
      ensures timeout == old(timeout)
      ensures var m := AnnounceCall(old(State()), old(server.table), w);
              State() == m.client && server.table == m.table && r == m.result
    {
      if localIP == NoAddr {
        return Err(Base(NoLocalIP));
      }
      var packet := BuildAnnounceRequest(localIP);
      var req := packet[..];
      var response, _ := SendRequest(server, req, w.attempts);
      if response.Err? {
        return Err(response.error);
      }
      ghost var tr := Travel(old(server.table), None, w.attempts, 0);
      if tr.outcome.Replied? {
        ParseBuiltAnnounceReply(tr.outcome.code, tr.outcome.ans.epoch);
      }
      var parsed := ParseResponse(response.value);
      if parsed.Err? {
        return Err(Base(BadReply));
      }
      if parsed.value.resultCode != SUCCESS {
        return Err(Base(Pcp(parsed.value.resultCode)));
      }
      var _ := UpdateEpochLocked(parsed.value.epoch, w.now);
      return Ok(parsed.value.epoch);
    }
  }
}
